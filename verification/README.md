# LLM leaderboard normaliser — a Dafny model

The leaderboard web page turns heterogeneous benchmark records into one uniform table.
A record maps string keys to numbers, strings or `null`. This project models the three
pieces of logic that do the turning, and proves what they promise.

- **`LeaderboardData`** (`src/LeaderboardData.ts`) is a stateful normaliser. Its constructor:
  - collects the columns in first-seen order, without the internal `_` keys;
  - loads the records and fills the missing columns with `null`;
  - applies the `__meta__` rules of the first record (`hidden_columns`, then the
    `formula`, `formula-map` and `weight` extra columns, in list order);
  - adds hidden `pb-` (score per billion parameters) and `uq-` (de-quantised score)
    companions;
  - hides `quantization` when no record has one;
  - rounds every number to two decimal places.

  The class becomes the Dafny class `Leaderboard.LeaderboardData`. It has the same fields,
  and one method per protected step, each changing only the fields its original changes.
  Every method is proved to compute a function of `Pipeline`. `Create` runs the steps in
  the constructor's order. It is proved to give `Pipeline.Normalize`, and the lemmas of
  `Pipeline` state what that table is.
- **`unquant`** (`src/data/unquant.ts`) estimates the full-precision score of a quantised
  model. It divides the score by the mean performance ratio of the quantisation level that
  the scheme name starts with (module `Quantization`, with `quant_map` as a constant).
- **The table view** (`src/App.tsx`) has the pieces below. Each is modelled as written,
  including where it differs from `LeaderboardData`.
  - `dataPrepare` and `header_key_fix` (module `Prepare`): the pipeline the page actually
    runs.
  - The free-text column filter: `escapeRegExp` and `fuzzyMatch` (module `Search`).
  - The size-range filter, the header label, `sortingFn` and `filterFn` (module `Columns`).

Shared vocabulary lives in `Text` (the JavaScript string methods used) and `Values`:
- a `Value` is a number, a non-finite number (NaN or ±Infinity), a string, `null` or
  `undefined`;
- a `Row` is its keys in insertion order plus a map;
- the module also models `Number()`, `toFixed(2)` and the first-seen ordering of keys.

In the code the exact-match lookup never succeeds, because the lookup key has lost its underscores and
every `Q` table key keeps them. The result is therefore always the level mean: `n / 0.39975`
for `IQ2_XXS` (`Quantization.ExactMatchNeverFires`, `Quantization.UnquantIQ2XXS`).

## Model

| member | source | states |
|---|---|---|
| Text.ToLowerIdempotent | src/data/unquant.ts:102-110 | lowercasing twice is lowercasing once |
| Text.RemoveChar | src/data/unquant.ts:110 | `replace(/_/g, "")` leaves no `_` and never lengthens the text |
| Values.DigitPrefix | src/data/unquant.ts:113 | the run of digits `\d+` matches: all digits, stopping at the first non-digit |
| Values.ParseNumberNatToString | src/App.tsx:225 | `Number(String(n))` reads back the natural number `n` |
| Values.Round2Spec | src/LeaderboardData.ts:37-39 | `n_fixed` moves a number by at most 0.005, lands on whole hundredths and is idempotent |
| Values.Set | src/LeaderboardData.ts:151 | `x[key] = v` keeps the record well formed, maps `key` to `v` and changes no other entry |
| Values.SetKeys | src/LeaderboardData.ts:184 | an assignment keeps the old keys in place, adds at most the assigned key, and leaves other values as they were |
| Values.RoundRowSpec | src/LeaderboardData.ts:203-212 | `data_fixed` keeps every key in order, keeps records well formed, rounds numbers and leaves every other value alone |
| Values.DedupSnoc | src/LeaderboardData.ts:89-91 | pushing a key that `includes` does not find appends it; a known key changes nothing |
| Values.DedupSpec | src/App.tsx:515 | `[...new Set(keys)]` has no repeats, the same members, and lists them in first-seen order |
| Values.FlattenSpec | src/App.tsx:514 | the flattened key lists hold exactly the keys of some record |
| Values.FirstSeen | src/App.tsx:514-515 | the header keys are repeat-free, are exactly the keys of some item, and come in first-seen order |
| Values.FillNullSpec | src/LeaderboardData.ts:217-226 | filling keeps a record well formed and its keys in place, adds exactly the missing columns, keeps existing values, and makes added ones `null` |
| Quantization.QuantMapSane | src/data/unquant.ts:1-96 | every level of `quant_map` has a variant and every ratio lies in (0, 1] |
| Quantization.LevelLookup | src/data/unquant.ts:126 | `quant_map[name]` finds a level of that name, or there is none |
| Quantization.VariantLookup | src/data/unquant.ts:119-120 | `quant_map[level][name]` finds a variant of that name, or there is none |
| Quantization.SumRatiosBounds | src/data/unquant.ts:130-131 | the sum of ratios in (0, 1] is positive and at most their count |
| Quantization.MeanRatio | src/data/unquant.ts:130-131 | the average ratio of a sane level lies in (0, 1] |
| Quantization.QuantLevel | src/data/unquant.ts:113 | the capture of `/^i?(q\d+)/` starts with `q` and has at least one digit |
| Quantization.EffectiveRatio | src/data/unquant.ts:101-137 | the divisor `unquant` ends up using lies in (0, 1] |
| Quantization.QLevelVariantsHaveUnderscores | src/data/unquant.ts:2-83 | every variant of a `Q` level is named with an underscore |
| Quantization.ExactMatchNeverFires | src/data/unquant.ts:119-123 | for every scheme whose level is in the table, the exact-match lookup finds nothing |
| Quantization.UnquantIsMeanDivision | src/data/unquant.ts:101-137 | for every scheme, `unquant(n, quant)` is `n` divided by the level's mean ratio (1 when nothing applies) |
| Quantization.UnquantByLevel | src/data/unquant.ts:110-133 | two non-full-precision schemes with the same level token give the same result |
| Quantization.UnquantCaseInsensitive | src/data/unquant.ts:102-110 | lowercasing the scheme first changes nothing |
| Quantization.UnquantNotBelow | src/data/unquant.ts:130-132 | de-quantising never lowers a non-negative score |
| Quantization.UnquantFullPrecision | src/data/unquant.ts:102-107 | a scheme containing `f16` or `f32`, in any case, returns `n` |
| Quantization.UnquantNoLevel | src/data/unquant.ts:113-116 | a scheme without an `i?q<digits>` prefix returns `n` |
| Quantization.UnquantUnknownLevel | src/data/unquant.ts:126-136 | a level token that is not a table key returns `n` |
| Quantization.UnquantKnownLevel | src/data/unquant.ts:125-132 | a known level divides by the mean of its ratios |
| Quantization.UnquantIQ2XXS | src/data/unquant.ts:8-25 | `unquant(n, "IQ2_XXS") == n / 0.39975` |
| Quantization.UnquantQ4KM | src/data/unquant.ts:44-61 | `unquant(n, "Q4_K_M") == n / 0.8025` |
| Quantization.UnquantQ4WEIRD | src/data/unquant.ts:125-132 | an unknown Q4 variant `Q4_WEIRD` also gives `n / 0.8025` |
| Quantization.UnquantIQ4XS | src/data/unquant.ts:110-113 | `iq4_xs` gives `n / 0.8025`, like `Q4_K_M` |
| Quantization.UnquantQ4KMPlain | src/data/unquant.ts:110-113 | `q4km` gives `n / 0.8025`, like `Q4_K_M` |
| Quantization.UnquantQ6K | src/data/unquant.ts:72-77 | `unquant(n, "Q6_K") == n` |
| Quantization.UnquantQ40 | src/data/unquant.ts:113 | `Q4_0` parses as the unknown level `q40` and returns `n` |
| Quantization.UnquantQ51 | src/data/unquant.ts:113 | `Q5_1` parses as the unknown level `q51` and returns `n` |
| Quantization.UnquantQ7 | src/data/unquant.ts:129-136 | the unknown level `q7` returns `n` |
| Quantization.UnquantQ10 | src/data/unquant.ts:129-136 | the unknown level `q10` returns `n` |
| Quantization.UnquantF16 | src/data/unquant.ts:102-104 | `F16` returns `n` |
| Quantization.UnquantF32 | src/data/unquant.ts:105-107 | `F32` returns `n` |
| Pipeline.DropInternal | src/LeaderboardData.ts:94 | the filter keeps exactly the keys that do not start with `_` |
| Pipeline.DropInternalDistinct | src/LeaderboardData.ts:94 | filtering a repeat-free list leaves it repeat-free |
| Pipeline.DropInternalDedup | src/LeaderboardData.ts:85-95 | dropping internal keys commutes with removing repeats |
| Pipeline.CollectedColumnsSpec | src/LeaderboardData.ts:85-95 | the columns are repeat-free, are exactly the non-`_` keys of some raw record, and come in first-seen order |
| Pipeline.StripInternalSpec | src/LeaderboardData.ts:100-107 | a loaded record is well formed, has exactly the non-`_` keys of its raw record, and keeps their values |
| Pipeline.Loaded | src/LeaderboardData.ts:100-107 | one loaded record per raw record, each stripped of internal keys |
| Pipeline.NullFilled | src/LeaderboardData.ts:217-226 | one filled record per record, each filled with the columns |
| Pipeline.NullToZeroSpec | src/LeaderboardData.ts:41-49 | the copy keeps the keys and order, turns `null` into 0, keeps other values, and has no `null` left |
| Pipeline.MapKeyTemplate | src/LeaderboardData.ts:278 | a name `prefix{{column}}suffix` gives the key `prefix + col + suffix` |
| Pipeline.FormulaMapRowKeys | src/LeaderboardData.ts:274-283 | a `formula-map` record stays well formed and keeps its keys in place |
| Pipeline.FormulaMapRowWrites | src/LeaderboardData.ts:277-280 | each written key holds the pre-loop null-to-zero value of the last column that maps to it |
| Pipeline.FormulaMapRowOthers | src/LeaderboardData.ts:277-280 | a key no column maps to keeps its value |
| Pipeline.WeightOf | src/LeaderboardData.ts:293 | `k in weights` exactly when some listed weight is named `k` |
| Pipeline.SumContributionsPerm | src/LeaderboardData.ts:292-295 | two repeat-free lists of the same keys give the same weighted sum |
| Pipeline.KeysWithWeightSpec | src/LeaderboardData.ts:293 | keys without a weight can be dropped from the sum |
| Pipeline.KeysInSpec | src/LeaderboardData.ts:292-293 | weighted keys the record lacks add nothing |
| Pipeline.RowWeightedSumIsSum | src/LeaderboardData.ts:292-295 | the sum over the record's entries equals the sum of each key's contribution |
| Pipeline.ListedSumIsSum | src/LeaderboardData.ts:292-295 | summing over the listed weights equals summing their contributions |
| Pipeline.WeightScoreSpec | src/LeaderboardData.ts:288-301 | the score is the sum over the listed weights of value × weight (missing, `null` or non-numeric values add 0), divided by the sum of all weights; a zero weight sum gives no finite number |
| Pipeline.WeightRow | src/LeaderboardData.ts:296-299 | a `weight` record stays well formed |
| Pipeline.ApplyRulesAppend | src/LeaderboardData.ts:239-254 | each rule is applied to the rows the earlier rules produced |
| Pipeline.ApplyRulesPrefixError | src/LeaderboardData.ts:250-252 | once a rule throws, the later rules change nothing |
| Pipeline.ApplyRulesError | src/LeaderboardData.ts:238-255 | the rules throw exactly when one has an unknown type, with the first such type |
| Pipeline.ApplyRuleKeys | src/LeaderboardData.ts:261-301 | a rule keeps the number of records, and each record's keys in place |
| Pipeline.ApplyRulesKeys | src/LeaderboardData.ts:238-255 | the same for a list of rules |
| Pipeline.Derived | src/LeaderboardData.ts:133-140 | the registered names start with the prefix and are at most as many as the columns |
| Pipeline.DerivedMembers | src/LeaderboardData.ts:133-140 | `prefix + k` is registered exactly when `k` is an eligible column |
| Pipeline.DerivedDistinct | src/LeaderboardData.ts:133-140 | repeat-free columns give repeat-free derived names |
| Pipeline.DerivedSkipsDerived | src/LeaderboardData.ts:135-136 | derived names are skipped, so deriving over the longer list adds nothing |
| Pipeline.PbFoldSpec | src/LeaderboardData.ts:146-152 | the entry loop writes `pb-k = Number(v) / size` for every eligible key and changes no other key |
| Pipeline.PbRowSpec | src/LeaderboardData.ts:141-154 | a record whose size is NaN is unchanged; otherwise every eligible key gets `pb-k = Number(v) / size` (no zero-size guard) and other keys keep their values |
| Pipeline.UqFoldFails | src/LeaderboardData.ts:177-185 | the entry loop throws exactly when the quantization is not a string and some eligible value is a number |
| Pipeline.UqFoldSpec | src/LeaderboardData.ts:177-185 | otherwise every eligible number gets `uq-k = unquant(v, quant)` and no other key changes |
| Pipeline.UqRowSpec | src/LeaderboardData.ts:175-187 | one record of `add_uq_score` fails or gives its `uq-` scores, as above |
| Pipeline.UqRowsFailure | src/LeaderboardData.ts:175-187 | a record that throws makes the whole batch throw |
| Pipeline.UqRowsSpec | src/LeaderboardData.ts:175-187 | the batch throws exactly when some record throws; otherwise each record is processed on its own |
| Pipeline.Parsed | src/LeaderboardData.ts:112-121 | `parse` fails only on a `__meta__` with an unknown rule type |
| Pipeline.AddUq | src/LeaderboardData.ts:162-188 | `add_uq_score` can only fail with a quantization column, and only because a value is not a string |
| Pipeline.QuantizationNotDerived | src/LeaderboardData.ts:58 | `quantization` is never a derived name |
| Pipeline.UqAfterPb | src/LeaderboardData.ts:167-174 | the `uq-` names come from the collected columns only: the `pb-` names are skipped |
| Pipeline.NormalizeNoData | src/LeaderboardData.ts:113-116 | the constructor throws "no data" exactly for an empty batch |
| Pipeline.NormalizeUnknownRule | src/LeaderboardData.ts:250-252 | an unknown rule type throws, with the type of the first such rule |
| Pipeline.NormalizeFailures | src/LeaderboardData.ts:66-77 | apart from an unknown rule, the only failure is a quantization that is not a string |
| Pipeline.NormalizeCatalogue | src/LeaderboardData.ts:66-77 | the columns are the collected ones, then the `pb-` and `uq-` names; hidden are `hidden_columns`, the derived names, and `quantization` when no record has one |
| Pipeline.NormalizeSteps | src/LeaderboardData.ts:66-77 | a successful run is the steps in constructor order |
| Pipeline.ParsedCatalogue | src/LeaderboardData.ts:231-236 | `parse` appends `hidden_columns` and records the metadata, but never adds to `columns` |
| Pipeline.ScoresCatalogue | src/LeaderboardData.ts:128-188 | the two score steps append the `pb-` then the `uq-` names to the columns and to the hidden ones |
| Pipeline.PbCatalogue | src/LeaderboardData.ts:128-140 | `add_pb_score` registers the `pb-` names once in `columns` and in `default_hidden` |
| Pipeline.UqCatalogue | src/LeaderboardData.ts:162-174 | `add_uq_score` registers the `uq-` names once in `columns` and in `default_hidden` |
| Pipeline.PreparedDense | src/LeaderboardData.ts:100-107 | after loading and filling, every record is well formed and has every column |
| Pipeline.ParsedDense | src/LeaderboardData.ts:231-301 | the rules keep the records dense |
| Pipeline.ScoresDense | src/LeaderboardData.ts:128-188 | the score steps keep the records dense |
| Pipeline.NormalizeDense | src/LeaderboardData.ts:66-77 | the table has one record per raw record, each well formed and holding every collected column |
| Pipeline.QuantizationHidden | src/LeaderboardData.ts:193-198 | `quantization` is hidden exactly when no raw record has a truthy one, or `__meta__` hides it |
| Pipeline.CompanionsRegistered | src/LeaderboardData.ts:128-174 | with a `size` column every eligible column has a hidden `pb-` companion; with `quantization`, a `uq-` one |
| Pipeline.ColumnsDistinct | src/LeaderboardData.ts:85-174 | when no collected column looks derived, the final columns have no repeats |
| Pipeline.ColumnsRepeat | src/LeaderboardData.ts:133-140 | a collected `pb-k` next to an eligible `k` is registered twice |
| Leaderboard.ObjNullToZero | src/LeaderboardData.ts:41-49 | the loop over the copy computes the null-to-zero record |
| Leaderboard.WeightedScore | src/LeaderboardData.ts:290-298 | the two reductions compute the weight score |
| Leaderboard.PbScoreRow | src/LeaderboardData.ts:141-153 | the record loop computes the `pb-` record and keeps it well formed |
| Leaderboard.UqScoreRow | src/LeaderboardData.ts:175-186 | the record loop computes the `uq-` record or the throw |
| Leaderboard.Visibility | src/LeaderboardData.ts:79-83 | the map has exactly the columns as keys, each true exactly when the column is not hidden |
| Leaderboard.LeaderboardData.constructor | src/LeaderboardData.ts:56-66 | the field initialisers: empty data, columns, hidden list and metadata |
| Leaderboard.LeaderboardData.GetColumnVisibility | src/LeaderboardData.ts:79-83 | `get_column_visibility` is the visibility map of the fields |
| Leaderboard.LeaderboardData.CollectColumns | src/LeaderboardData.ts:85-95 | the nested push loop sets `columns` to the collected columns |
| Leaderboard.LeaderboardData.LoadData | src/LeaderboardData.ts:100-107 | `data` becomes the loaded records |
| Leaderboard.LeaderboardData.NullFixed | src/LeaderboardData.ts:217-226 | every record is filled in place with `null` for the columns it lacks |
| Leaderboard.LeaderboardData.ApplyExtraFormula | src/LeaderboardData.ts:261-269 | every record gets `name` set to the formula's value on its null-to-zero copy |
| Leaderboard.LeaderboardData.ApplyExtraFormulaMap | src/LeaderboardData.ts:274-283 | every record gets the `formula-map` writes |
| Leaderboard.LeaderboardData.ApplyExtraWeight | src/LeaderboardData.ts:288-301 | every record gets `name` set to its weight score |
| Leaderboard.LeaderboardData.ApplyMetadata | src/LeaderboardData.ts:231-256 | records the metadata, appends `hidden_columns`, applies the rules in order, and stops with the error of an unknown rule |
| Leaderboard.LeaderboardData.Parse | src/LeaderboardData.ts:112-121 | no first record gives "no data"; otherwise a `__meta__` on the first record is applied |
| Leaderboard.LeaderboardData.RegisterDerived | src/LeaderboardData.ts:133-140 | the `forEach` appends the derived names of the columns present when it starts, to `columns` and to `default_hidden` |
| Leaderboard.LeaderboardData.AddPbScore | src/LeaderboardData.ts:128-155 | the fields become `add_pb_score` of the old ones |
| Leaderboard.LeaderboardData.AddUqScore | src/LeaderboardData.ts:162-188 | the fields become `add_uq_score` of the old ones, or it reports the throw |
| Leaderboard.LeaderboardData.HiddenQuantIfEmpty | src/LeaderboardData.ts:193-198 | `quantization` is appended to the hidden list exactly when no raw record has a truthy one |
| Leaderboard.LeaderboardData.DataFixed | src/LeaderboardData.ts:203-212 | every record is rounded |
| Leaderboard.LeaderboardData.Create | src/LeaderboardData.ts:66-77 | the constructor's steps give the normalised table, or the error the constructor throws |
| Search.EscapeRegExp | src/App.tsx:30-32 | escaping never shortens a text, and a text without special characters is unchanged |
| Search.EscapeRoundTrip | src/App.tsx:30-32 | removing the added backslashes recovers the input |
| Search.EscapeIsLiteral | src/App.tsx:30-32 | every special character of the result sits behind its own backslash |
| Search.Letters | src/App.tsx:37-39 | the pattern letters hold no white space |
| Search.FollowsIsSubsequence | src/App.tsx:34-45 | a regular-expression match places the letters in order in the text |
| Search.SubsequenceFollows | src/App.tsx:34-45 | on a one-line text, letters in order give a match |
| Search.FuzzyMatchSubsequence | src/App.tsx:34-45 | on a text without line terminators, `fuzzyMatch` holds exactly when the pattern's letters occur in order |
| Search.FuzzyMatchBlank | src/App.tsx:34-45 | an empty or all-white-space pattern matches every text |
| Search.FuzzyMatchLineBreak | src/App.tsx:41-44 | `ab` occurs in order in `a\nb`, yet `fuzzyMatch("ab", "a\nb")` is false |
| Columns.SizeFilter | src/App.tsx:169-173 | the filter never adds rows |
| Columns.SizeFilterMembers | src/App.tsx:169-173 | a row is kept exactly when it is a row and `lo <= size <= hi` |
| Columns.SizeFilterAppend | src/App.tsx:169-173 | the filter keeps the order of the rows |
| Columns.SizeFilterIdempotent | src/App.tsx:169-173 | filtering again with the same range changes nothing |
| Columns.HeaderLabelSpec | src/App.tsx:181-185 | the label has one character per key character: `_` becomes a space, the first letter of each word is upper-cased, the rest is kept |
| Columns.CompareAntisymmetric | src/App.tsx:206-217 | `sortingFn` answers -1, 0 or 1, is antisymmetric, and ties a value with itself |
| Columns.CompareNone | src/App.tsx:116 | `null` and `undefined` sort before every number and tie with each other; numbers compare by value |
| Columns.FilterFnSpec | src/App.tsx:219-229 | a typed whole number `n` keeps exactly the numbers in `[n, n+1)`; strings are fuzzy-matched; other values are dropped |
| Prepare.Keep | src/App.tsx:460 | the rest pattern keeps exactly the keys not named, without repeats |
| Prepare.KeepAppend | src/App.tsx:460 | the rest pattern keeps the keys' order: it splits over a concatenation |
| Prepare.KeepNone | src/App.tsx:460 | keys not named all come through |
| Prepare.KeepIrrelevant | src/App.tsx:460 | naming keys that are not present changes nothing |
| Prepare.NumericKeys | src/App.tsx:465-467 | exactly the keys holding a number |
| Prepare.NumericAmongAppend | src/App.tsx:465-467 | the numeric keys are found in the record's order: the search splits over a concatenation |
| Prepare.Entries | src/App.tsx:463 | `Object.entries` lists the keys in order |
| Prepare.SetAll | src/App.tsx:498-500 | spreading entries in keeps a record well formed |
| Prepare.SetAllKeys | src/App.tsx:498-500 | new, distinct entries are appended in order |
| Prepare.SetAllLayout | src/App.tsx:498-500 | spreading distinct entries keeps an existing key in its place and appends the new ones in order |
| Prepare.SetAllAt | src/App.tsx:498-500 | each spread entry reads back as written |
| Prepare.SetAllOther | src/App.tsx:498-500 | a key no entry has keeps its value |
| Prepare.PbEntries | src/App.tsx:463-473 | `pbs` has a `pb-k` entry for exactly the numeric other fields, in order |
| Prepare.UqEntries | src/App.tsx:475-484 | `unquants` is empty for a falsy or non-string quantization, has a `uq-k` entry for each number otherwise, and throws exactly for a truthy non-string with a number to convert |
| Prepare.Head | src/App.tsx:493-497 | the record starts with `model, size, quantization, average` |
| Prepare.Assembled | src/App.tsx:493-501 | `o1` is well formed |
| Prepare.DataPrepare | src/App.tsx:459-511 | the method computes what `dataPrepare` returns or throws |
| Prepare.RoundEntries | src/App.tsx:503-508 | the in-place loop rounds every number of `o1` and nothing else |
| Prepare.PreparedFails | src/App.tsx:475-484 | `dataPrepare` throws exactly when a truthy quantization is not a string and some other field is a number |
| Prepare.PreparedKeys | src/App.tsx:493-501 | the keys are `model, size, quantization, average`, then the other fields in order, then the `pb-*` names not already present, then the `uq-*` names not already present when the quantization is truthy |
| Prepare.PreparedKeysPlain | src/App.tsx:493-501 | when no field is named like a score, every `pb-*` and `uq-*` name is a new key, in that order after the fields |
| Prepare.PreparedLeading | src/App.tsx:493-496 | `model`, `size` and `quantization` come through, only rounded |
| Prepare.PreparedAverage | src/App.tsx:486-497 | `average` holds the average score, rounded |
| Prepare.PreparedRest | src/App.tsx:491-498 | the other fields come through, only rounded, except one named like a computed score, which that score overwrites |
| Prepare.PreparedPb | src/App.tsx:463-473 | each numeric field, `average` included, gets `pb-k`: 0 when `size <= 0`, else `v / size`, rounded |
| Prepare.PreparedUq | src/App.tsx:475-484 | with a truthy quantization string each numeric field gets `uq-k = unquant(v, quantization)`, rounded |
| Prepare.AverageSpec | src/App.tsx:486-489 | a truthy `average` is kept; otherwise the sum of the other values over `headers.length - 3`, with no finite result for no data headers |
| Prepare.SumAppend | src/App.tsx:489 | the `reduce` sum splits over a concatenation |
| Prepare.KeyFixed | src/App.tsx:513-525 | `header_key_fix` keeps the number of items |
| Prepare.HeaderKeyFix | src/App.tsx:513-525 | the array is filled in place and returned itself |
| Prepare.FillNullKeys | src/App.tsx:517-522 | filling appends exactly the missing header keys, in their order |
| Prepare.KeyFixedSpec | src/App.tsx:513-525 | every item has every key of any item: its own first, then the missing ones in first-seen order; old values kept, added ones `null` |

## Left out

- The React components and hooks, pagination, the `minmaxs` memo, the colour helpers and
  the bundled datasets are left out. They are display state, timers and DOM events, not
  data logic.
- `new Function` is left out. The `formula` rule is a caller-supplied `Evaluator` over the
  null-to-zero record. The `formula-map` accessor is a plain lookup.
- `Pipeline.ApplyRulesError`: the `Evaluator` is total, so a `formula` whose evaluation
  throws (a syntax or runtime error inside `new Function`, src/LeaderboardData.ts:266) is
  not modelled. The only rule failure stated is an unknown rule type.
- `Pipeline.Parsed`: for the same reason, a throwing `formula` is not among the failures of
  `parse`.
- `Pipeline.NormalizeFailures`: for the same reason, a throwing `formula` is not among the
  failures of the constructor.
- Numbers are exact reals. NaN and ±Infinity are one value, `NonFinite`, and floating-point
  effects of `toFixed` are not modelled (`Round2` rounds half away from zero, exactly).
- `Values.ToNumber` reads decimal text only (sign, digits, one point). Exponents, hexadecimal
  and the text `Infinity` give NaN. Booleans are not a value of the model.
- `Pipeline.PbRowSpec`: an infinite `size` is a number in JavaScript, and `add_pb_score`
  divides by it. The model reads it as NaN and leaves the record unchanged.
- `Prepare.AverageSpec`: when a string enters the `reduce` sum, JavaScript concatenates and
  later divides the text. The model gives no finite number in that case.
- `Columns.FilterFnSpec`: JavaScript compares `Math.floor` of a non-finite number. The model
  drops non-finite cells.
- An infinity is truthy in JavaScript, but `NonFinite` is falsy in the model (`Truthy`).
  This matters only for an infinite `average` or `quantization`.
- Case mapping (`toUpperCase`, `toLowerCase`) covers ASCII letters only.
- `Search.FuzzyMatchSubsequence`, `Search.FuzzyMatch`: characters are Unicode scalar values.
  JavaScript's code-unit view of astral characters (lone surrogates, `split("")`, `.`) is
  not modelled.
- The `$` patterns of a `replace` replacement string are not interpreted.
- JavaScript lists integer-like keys before the others in key order. The model keeps
  insertion order for every key. `in` finding inherited prototype keys is not modelled.
- Records are values. The same object appearing twice in `items` (aliasing) is not modelled
  by `Prepare.HeaderKeyFix`.
- `Search.FuzzyMatch` models the regular expression `.*c1.*c2.*…` by its matching relation
  for this pattern shape. It does not model a general regular-expression engine.
- `Prepare.PreparedKeysPlain`: the simple key layout is stated only for records with no
  field already named like a score (`NoDerived`). `Prepare.PreparedKeys` states the general
  layout.
- JavaScript objects never repeat a key, so well-formed records (`WellFormed`,
  `RawWellFormed`) are required rather than checked.
- `Leaderboard.LeaderboardData.Create` stands for the throwing constructor. It returns the
  object or the error, because a Dafny constructor cannot fail.
