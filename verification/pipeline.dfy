/** The value-level meaning of every step of the `LeaderboardData` normaliser: the class
    in `leaderboard.dfy` is proved to compute exactly these functions, and the properties
    of the normaliser are proved about them here. */
module Pipeline {
  import opened Text
  import opened Values
  import opened Quantization

  /** An `extra_columns` rule of `__meta__`. A rule whose `type` is none of the three
      known ones is `Unknown`. */
  datatype ExtraColumn =
    | Formula(name: string, formula: string)
    | FormulaMap(column: seq<string>, name: string)
    | Weight(name: string, weights: seq<(string, real)>)
    | Unknown(kind: string)

  /** `LeaderboardMetadata`; an absent list is the empty list (`?? []`, and a loop over no
      rules does nothing). */
  datatype Metadata = Metadata(hiddenColumns: seq<string>, extraColumns: seq<ExtraColumn>)

  const NoMetadata := Metadata([], [])

  /** A raw record: its fields, and the object under its `__meta__` key when that is set. */
  datatype RawRecord = RawRecord(fields: Row, meta: Option<Metadata>)

  /** What `new Function("x", "return (" + formula + ")")(x)` yields for a formula and a
      record: supplied by the caller. */
  type Evaluator = (string, Row) -> Value

  function Fields(raw: seq<RawRecord>): (rows: seq<Row>)
    ensures |rows| == |raw| && forall i | 0 <= i < |raw| :: rows[i] == raw[i].fields
  {
    seq(|raw|, i requires 0 <= i < |raw| => raw[i].fields)
  }

  // ---------------------------------------------------------------- collect_columns

  /** A key starting with `_`: never a column, never kept in a row. */
  predicate Internal(k: string) {
    StartsWith(k, "_")
  }

  /** `keys.filter((x) => !x.startsWith("_"))` */
  function DropInternal(s: seq<string>): (r: seq<string>)
    ensures forall k :: k in r <==> k in s && !Internal(k)
  {
    if s == [] then []
    else
      var d := DropInternal(s[..|s| - 1]);
      assert s == s[..|s| - 1] + [s[|s| - 1]];
      if Internal(s[|s| - 1]) then d else d + [s[|s| - 1]]
  }

  lemma {:induction false} DropInternalDistinct(s: seq<string>)
    requires Distinct(s)
    ensures Distinct(DropInternal(s))
  {
    if s != [] {
      var s' := s[..|s| - 1];
      assert Distinct(s');
      DropInternalDistinct(s');
      assert s[|s| - 1] !in s';
    }
  }

  /** Removing internal keys and removing repeats can be done in either order. */
  lemma {:induction false} DropInternalDedup(s: seq<string>)
    ensures DropInternal(Dedup(s)) == Dedup(DropInternal(s))
  {
    if s != [] {
      var s', x := s[..|s| - 1], s[|s| - 1];
      DropInternalDedup(s');
      DedupSpec(s');
      DedupSpec(DropInternal(s'));
      assert s == s' + [x];
      assert DropInternal(s)[..|DropInternal(s)|] == DropInternal(s);
      if !Internal(x) && x !in s' {
        assert DropInternal(s) == DropInternal(s') + [x];
        assert DropInternal(Dedup(s)) == DropInternal(Dedup(s') + [x]);
        assert (Dedup(s') + [x])[..|Dedup(s')|] == Dedup(s');
      } else if !Internal(x) {
        assert DropInternal(s) == DropInternal(s') + [x];
        assert x in DropInternal(s');
      } else if x !in s' {
        assert (Dedup(s') + [x])[..|Dedup(s')|] == Dedup(s');
      }
    }
  }

  /** What `collect_columns` leaves in `columns`: the keys of all raw records, each once,
      in first-seen order, without the internal ones. */
  function CollectedColumns(raw: seq<RawRecord>): seq<string> {
    DropInternal(Dedup(Flatten(Fields(raw))))
  }

  /** The catalogue: no repeats; exactly the non-internal keys some raw record has; in the
      order in which the records first show them. */
  lemma CollectedColumnsSpec(raw: seq<RawRecord>)
    ensures Distinct(CollectedColumns(raw))
    ensures forall k :: k in CollectedColumns(raw) <==>
      !Internal(k) && exists i :: 0 <= i < |raw| && k in raw[i].fields.keys
    ensures FirstSeenOrder(CollectedColumns(raw), DropInternal(Flatten(Fields(raw))))
  {
    var s := Flatten(Fields(raw));
    DropInternalDedup(s);
    DedupSpec(DropInternal(s));
    FlattenSpec(Fields(raw));
  }

  // ---------------------------------------------------------------- load_data

  /** `Object.fromEntries(Object.entries(x).filter(([k]) => !k.startsWith("_")))` */
  function StripInternal(r: Row): (r': Row)
    ensures r'.keys == DropInternal(r.keys)
  {
    Row(DropInternal(r.keys), map k | k in r.vals && !Internal(k) :: r.vals[k])
  }

  lemma StripInternalSpec(r: Row)
    requires WellFormed(r)
    ensures WellFormed(StripInternal(r))
    ensures forall k :: k in StripInternal(r).vals <==> k in r.vals && !Internal(k)
    ensures forall k | k in StripInternal(r).vals :: StripInternal(r).vals[k] == r.vals[k]
  {
    DropInternalDistinct(r.keys);
  }

  function Loaded(raw: seq<RawRecord>): (rows: seq<Row>)
    ensures |rows| == |raw| && forall i | 0 <= i < |raw| :: rows[i] == StripInternal(raw[i].fields)
  {
    seq(|raw|, i requires 0 <= i < |raw| => StripInternal(raw[i].fields))
  }

  // ---------------------------------------------------------------- null_fixed

  function NullFilled(rows: seq<Row>, cols: seq<string>): (rows': seq<Row>)
    ensures |rows'| == |rows| && forall i | 0 <= i < |rows| :: rows'[i] == FillNull(rows[i], cols)
  {
    seq(|rows|, i requires 0 <= i < |rows| => FillNull(rows[i], cols))
  }

  // ---------------------------------------------------------------- obj_null_to_zero

  /** `obj_null_to_zero`: the same keys in the same order, `null` read as 0. */
  function NullToZero(r: Row): Row {
    Row(r.keys, map k | k in r.vals :: if r.vals[k] == Null then Num(0.0) else r.vals[k])
  }

  lemma NullToZeroSpec(r: Row)
    ensures NullToZero(r).keys == r.keys && NullToZero(r).vals.Keys == r.vals.Keys
    ensures WellFormed(r) ==> WellFormed(NullToZero(r))
    ensures forall k :: Get(NullToZero(r), k) == (if Get(r, k) == Null then Num(0.0) else Get(r, k))
    ensures forall k :: Get(NullToZero(r), k) != Null
  {
  }

  // ---------------------------------------------------------------- extra columns

  /** The `{{column}}` placeholder of a `formula-map` name. */
  const Placeholder := "{{column}}"

  /** `name.replace(/\{\{column\}\}/g, col)` */
  function MapKey(name: string, col: string): string {
    ReplaceAll(name, Placeholder, col)
  }

  /** A name of the form `prefix{{column}}suffix` whose fixed parts have no `{` gives the
      key `prefix + col + suffix`. */
  lemma MapKeyTemplate(prefix: string, suffix: string, col: string)
    requires '{' !in prefix && '{' !in suffix
    ensures MapKey(prefix + Placeholder + suffix, col) == prefix + col + suffix
  {
    ReplaceAllTemplate(prefix, suffix, Placeholder, col);
  }

  /** The body of one row of `apply_extra_formula_map`, after `column[..n]`: each write
      reads the snapshot `zero` taken before the loop. */
  function FormulaMapRow(r: Row, zero: Row, column: seq<string>, name: string): Row {
    if column == [] then r
    else
      var col := column[|column| - 1];
      Set(FormulaMapRow(r, zero, column[..|column| - 1], name), MapKey(name, col), Get(zero, col))
  }

  /** A `formula-map` row keeps its keys in place and stays well formed. */
  lemma {:induction false} FormulaMapRowKeys(r: Row, zero: Row, column: seq<string>, name: string)
    requires WellFormed(r)
    ensures WellFormed(FormulaMapRow(r, zero, column, name))
    ensures r.keys <= FormulaMapRow(r, zero, column, name).keys
  {
    if column != [] {
      var c' := column[..|column| - 1];
      FormulaMapRowKeys(r, zero, c', name);
      var col := column[|column| - 1];
      SetKeys(FormulaMapRow(r, zero, c', name), MapKey(name, col), Get(zero, col));
    }
  }

  /** Every key a `formula-map` writes holds the snapshot value of the last column that
      maps to it. */
  lemma {:induction false} FormulaMapRowWrites(r: Row, zero: Row, column: seq<string>, name: string)
    ensures forall i | 0 <= i < |column| ::
      (forall j | i < j < |column| :: MapKey(name, column[j]) != MapKey(name, column[i])) ==>
      Get(FormulaMapRow(r, zero, column, name), MapKey(name, column[i])) == Get(zero, column[i])
  {
    if column != [] {
      var c' := column[..|column| - 1];
      FormulaMapRowWrites(r, zero, c', name);
      forall i | 0 <= i < |column| - 1 &&
        (forall j | i < j < |column| :: MapKey(name, column[j]) != MapKey(name, column[i]))
        ensures Get(FormulaMapRow(r, zero, column, name), MapKey(name, column[i])) == Get(zero, column[i])
      {
        assert c'[i] == column[i];
        assert forall j | i < j < |c'| :: c'[j] == column[j];
      }
    }
  }

  /** A key no column maps to is left alone by `formula-map`. */
  lemma {:induction false} FormulaMapRowOthers(r: Row, zero: Row, column: seq<string>, name: string, k: string)
    requires forall c | c in column :: MapKey(name, c) != k
    ensures Get(FormulaMapRow(r, zero, column, name), k) == Get(r, k)
  {
    if column != [] {
      var c' := column[..|column| - 1];
      forall c | c in c' ensures MapKey(name, c) != k {
        assert c in column;
      }
      FormulaMapRowOthers(r, zero, c', name, k);
      assert column[|column| - 1] in column;
    }
  }

  /** The sum of all weights (`Object.values(weights).reduce((a, b) => a + b, 0)`). */
  function WeightTotal(weights: seq<(string, real)>): real {
    if weights == [] then 0.0 else WeightTotal(weights[..|weights| - 1]) + weights[|weights| - 1].1
  }

  /** `weights[k]`, when `k in weights`. */
  function WeightOf(weights: seq<(string, real)>, k: string): (w: Option<real>)
    ensures w.Some? <==> exists i :: 0 <= i < |weights| && weights[i].0 == k
  {
    if weights == [] then None
    else if weights[0].0 == k then Some(weights[0].1)
    else
      var w := WeightOf(weights[1..], k);
      assert forall i | 0 <= i < |weights| - 1 :: weights[1..][i] == weights[i + 1];
      w
  }

  /** One term `typeof v === "number" ? v * w : 0`; `None` is a non-finite term. */
  function Term(v: Value, w: real): Option<real> {
    match v
    case Num(n) => Some(n * w)
    case NonFinite => None
    case _ => Some(0.0)
  }

  /** Adding terms: a non-finite term makes the sum non-finite. */
  function Plus(a: Option<real>, b: Option<real>): Option<real> {
    if a.Some? && b.Some? then Some(a.value + b.value) else None
  }

  /** The weighted sum over a record's keys, in key order, of the keys that have a weight. */
  function RowWeightedSum(zero: Row, keys: seq<string>, weights: seq<(string, real)>): Option<real> {
    if keys == [] then Some(0.0)
    else
      var k := keys[|keys| - 1];
      var rest := RowWeightedSum(zero, keys[..|keys| - 1], weights);
      match WeightOf(weights, k)
      case None => rest
      case Some(w) => Plus(rest, Term(Get(zero, k), w))
  }

  /** `sum / w_sum` in the `weight` rule. */
  function WeightScore(zero: Row, weights: seq<(string, real)>): Value {
    match RowWeightedSum(zero, zero.keys, weights)
    case None => NonFinite
    case Some(s) => if WeightTotal(weights) == 0.0 then NonFinite else Num(s / WeightTotal(weights))
  }

  // The weighted sum does not depend on the order of the record's keys: it equals the sum
  // over the listed weights, a weight whose key the record lacks adding 0.

  function Names(weights: seq<(string, real)>): (ns: seq<string>)
    ensures |ns| == |weights| && forall i | 0 <= i < |weights| :: ns[i] == weights[i].0
  {
    seq(|weights|, i requires 0 <= i < |weights| => weights[i].0)
  }

  /** The sum of `Term(zero[name], w)` over the listed weights, in list order. */
  function ListedSum(zero: Row, weights: seq<(string, real)>): Option<real> {
    if weights == [] then Some(0.0)
    else
      var e := weights[|weights| - 1];
      Plus(ListedSum(zero, weights[..|weights| - 1]), Term(Get(zero, e.0), e.1))
  }

  /** What key `k` adds to the weighted sum. */
  function Contribution(zero: Row, weights: seq<(string, real)>, k: string): Option<real> {
    match WeightOf(weights, k)
    case None => Some(0.0)
    case Some(w) => Term(Get(zero, k), w)
  }

  function SumContributions(zero: Row, weights: seq<(string, real)>, ks: seq<string>): Option<real> {
    if ks == [] then Some(0.0)
    else Plus(SumContributions(zero, weights, ks[..|ks| - 1]), Contribution(zero, weights, ks[|ks| - 1]))
  }

  lemma {:induction false} SumContributionsAppend(zero: Row, weights: seq<(string, real)>, a: seq<string>, b: seq<string>)
    ensures SumContributions(zero, weights, a + b) ==
      Plus(SumContributions(zero, weights, a), SumContributions(zero, weights, b))
  {
    if b == [] {
      assert a + b == a;
    } else {
      SumContributionsAppend(zero, weights, a, b[..|b| - 1]);
      assert (a + b)[..|a + b| - 1] == a + b[..|b| - 1];
    }
  }

  /** Moving one key to the end does not change the sum. */
  lemma SumContributionsRemove(zero: Row, weights: seq<(string, real)>, b: seq<string>, p: nat)
    requires p < |b|
    ensures SumContributions(zero, weights, b) ==
      Plus(SumContributions(zero, weights, b[..p] + b[p + 1..]), Contribution(zero, weights, b[p]))
  {
    assert b == b[..p] + ([b[p]] + b[p + 1..]);
    SumContributionsAppend(zero, weights, b[..p], [b[p]] + b[p + 1..]);
    SumContributionsAppend(zero, weights, [b[p]], b[p + 1..]);
    SumContributionsAppend(zero, weights, b[..p], b[p + 1..]);
    assert [b[p]][..0] == [];
  }

  lemma HeadIn(b: seq<string>)
    ensures b != [] ==> b[0] in b
  {
  }

  /** Two repeat-free lists of the same keys give the same sum. */
  lemma {:induction false} SumContributionsPerm(zero: Row, weights: seq<(string, real)>, a: seq<string>, b: seq<string>)
    requires Distinct(a) && Distinct(b)
    requires forall k :: k in a <==> k in b
    ensures SumContributions(zero, weights, a) == SumContributions(zero, weights, b)
    decreases |a|
  {
    if a == [] {
      HeadIn(b);
    } else {
      var x := a[|a| - 1];
      var a' := a[..|a| - 1];
      assert x in b;
      var p :| 0 <= p < |b| && b[p] == x;
      var b' := b[..p] + b[p + 1..];
      assert forall i | 0 <= i < |b'| :: b'[i] == if i < p then b[i] else b[i + 1];
      assert Distinct(b');
      forall k ensures k in a' <==> k in b' {
        if k in a' {
          assert k in b && k != x;
          var q :| 0 <= q < |b| && b[q] == k;
          assert q != p;
          if q < p { assert b'[q] == k; } else { assert b'[q - 1] == k; }
        }
        if k in b' {
          var q :| 0 <= q < |b'| && b'[q] == k;
          assert k != x;
          assert k in a;
          assert a == a' + [x];
        }
      }
      SumContributionsPerm(zero, weights, a', b');
      SumContributionsRemove(zero, weights, b, p);
    }
  }

  /** Keys that add nothing can be dropped from the sum. */
  function KeysWithWeight(ks: seq<string>, weights: seq<(string, real)>): (r: seq<string>)
    ensures forall k :: k in r <==> k in ks && WeightOf(weights, k).Some?
  {
    if ks == [] then []
    else
      var r := KeysWithWeight(ks[..|ks| - 1], weights);
      assert ks == ks[..|ks| - 1] + [ks[|ks| - 1]];
      if WeightOf(weights, ks[|ks| - 1]).Some? then r + [ks[|ks| - 1]] else r
  }

  lemma {:induction false} KeysWithWeightSpec(zero: Row, ks: seq<string>, weights: seq<(string, real)>)
    requires Distinct(ks)
    ensures Distinct(KeysWithWeight(ks, weights))
    ensures SumContributions(zero, weights, KeysWithWeight(ks, weights)) == SumContributions(zero, weights, ks)
  {
    if ks != [] {
      var ks' := ks[..|ks| - 1];
      assert Distinct(ks');
      KeysWithWeightSpec(zero, ks', weights);
      assert ks[|ks| - 1] !in ks';
      var r := KeysWithWeight(ks', weights);
      if WeightOf(weights, ks[|ks| - 1]).Some? {
        assert (r + [ks[|ks| - 1]])[..|r|] == r;
      }
    }
  }

  lemma {:induction false} RowWeightedSumIsSum(zero: Row, ks: seq<string>, weights: seq<(string, real)>)
    ensures RowWeightedSum(zero, ks, weights) == SumContributions(zero, weights, ks)
  {
    if ks != [] {
      RowWeightedSumIsSum(zero, ks[..|ks| - 1], weights);
    }
  }

  predicate DistinctNames(weights: seq<(string, real)>) {
    forall i, j | 0 <= i < j < |weights| :: weights[i].0 != weights[j].0
  }

  lemma {:induction false} WeightOfAt(weights: seq<(string, real)>, i: nat)
    requires DistinctNames(weights) && i < |weights|
    ensures WeightOf(weights, weights[i].0) == Some(weights[i].1)
  {
    if i > 0 {
      assert weights[0].0 != weights[i].0;
      assert weights[1..][i - 1] == weights[i];
      WeightOfAt(weights[1..], i - 1);
    }
  }

  lemma {:induction false} ListedSumIsSum(zero: Row, weights: seq<(string, real)>, m: nat)
    requires DistinctNames(weights) && m <= |weights|
    ensures ListedSum(zero, weights[..m]) == SumContributions(zero, weights, Names(weights[..m]))
  {
    if m > 0 {
      ListedSumIsSum(zero, weights, m - 1);
      assert weights[..m][..m - 1] == weights[..m - 1];
      assert Names(weights[..m])[..m - 1] == Names(weights[..m - 1]);
      WeightOfAt(weights, m - 1);
      var k := weights[m - 1].0;
      assert WeightOf(weights, k).Some?;
    }
  }

  /** The `weight` rule gives the sum over the listed weights of value times weight (a
      missing, null or non-numeric value adding 0, a non-finite one making the result
      non-finite), divided by the sum of all weights; a zero weight sum is not guarded
      and gives a non-finite result. */
  lemma WeightScoreSpec(zero: Row, weights: seq<(string, real)>)
    requires WellFormed(zero) && DistinctNames(weights)
    ensures WeightScore(zero, weights) ==
      match ListedSum(zero, weights)
      case None => NonFinite
      case Some(s) => if WeightTotal(weights) == 0.0 then NonFinite else Num(s / WeightTotal(weights))
  {
    RowWeightedSumIsSum(zero, zero.keys, weights);
    KeysWithWeightSpec(zero, zero.keys, weights);
    ListedSumIsSum(zero, weights, |weights|);
    assert weights[..|weights|] == weights;
    var a := KeysWithWeight(zero.keys, weights);
    var ns := Names(weights);
    KeysWithWeightSpec(zero, ns, weights);
    var b := KeysWithWeight(ns, weights);
    assert Distinct(ns) by {
      forall i, j | 0 <= i < j < |ns| ensures ns[i] != ns[j] {
        assert ns[i] == weights[i].0 && ns[j] == weights[j].0;
      }
    }
    // a missing key adds `Term(Undefined, w) == Some(0.0)`, so the listed keys the record
    // lacks can be dropped as well: compare the record's weighted keys with the listed
    // keys the record has
    var c := KeysIn(b, zero);
    KeysInSpec(zero, b, weights);
    assert Distinct(c);
    forall k ensures k in a <==> k in c {
      if k in a {
        assert WeightOf(weights, k).Some?;
        var i :| 0 <= i < |weights| && weights[i].0 == k;
        assert ns[i] == k;
      }
    }
    SumContributionsPerm(zero, weights, a, c);
  }

  /** The keys of `ks` the record has. */
  function KeysIn(ks: seq<string>, r: Row): (out: seq<string>)
    ensures forall k :: k in out <==> k in ks && k in r.vals
  {
    if ks == [] then []
    else
      var out := KeysIn(ks[..|ks| - 1], r);
      assert ks == ks[..|ks| - 1] + [ks[|ks| - 1]];
      if ks[|ks| - 1] in r.vals then out + [ks[|ks| - 1]] else out
  }

  lemma {:induction false} KeysInSpec(zero: Row, ks: seq<string>, weights: seq<(string, real)>)
    requires Distinct(ks)
    ensures Distinct(KeysIn(ks, zero))
    ensures SumContributions(zero, weights, KeysIn(ks, zero)) == SumContributions(zero, weights, ks)
  {
    if ks != [] {
      var ks' := ks[..|ks| - 1];
      assert Distinct(ks');
      KeysInSpec(zero, ks', weights);
      assert ks[|ks| - 1] !in ks';
      var r := KeysIn(ks', zero);
      if ks[|ks| - 1] in zero.vals {
        assert (r + [ks[|ks| - 1]])[..|r|] == r;
      }
    }
  }

  /** One row of the `weight` rule: `{...x, [name]: sum / w_sum}`. */
  function WeightRow(r: Row, name: string, weights: seq<(string, real)>): (r': Row)
    ensures WellFormed(r) ==> WellFormed(r')
  {
    Set(r, name, WeightScore(NullToZero(r), weights))
  }

  /** One rule applied to every row, or the error `apply_metadata` throws. */
  function ApplyRule(rows: seq<Row>, rule: ExtraColumn, eval: Evaluator): Result<seq<Row>> {
    match rule
    case Formula(name, formula) =>
      Ok(seq(|rows|, i requires 0 <= i < |rows| => Set(rows[i], name, eval(formula, NullToZero(rows[i])))))
    case FormulaMap(column, name) =>
      Ok(seq(|rows|, i requires 0 <= i < |rows| => FormulaMapRow(rows[i], NullToZero(rows[i]), column, name)))
    case Weight(name, weights) =>
      Ok(seq(|rows|, i requires 0 <= i < |rows| => WeightRow(rows[i], name, weights)))
    case Unknown(kind) => Err(UnknownExtraType(kind))
  }

  /** The rules applied in list order, each to the rows the previous one produced. */
  function ApplyRules(rows: seq<Row>, rules: seq<ExtraColumn>, eval: Evaluator): Result<seq<Row>>
    decreases |rules|
  {
    if rules == [] then Ok(rows)
    else match ApplyRule(rows, rules[0], eval)
      case Err(e) => Err(e)
      case Ok(next) => ApplyRules(next, rules[1..], eval)
  }

  /** Applying one more rule works on what the earlier rules produced. */
  lemma {:induction false} ApplyRulesAppend(rows: seq<Row>, rules: seq<ExtraColumn>, rule: ExtraColumn, eval: Evaluator)
    ensures ApplyRules(rows, rules + [rule], eval) ==
      match ApplyRules(rows, rules, eval)
      case Err(e) => Err(e)
      case Ok(d) => ApplyRule(d, rule, eval)
    decreases |rules|
  {
    if rules == [] {
      assert [] + [rule] == [rule];
      assert [rule][1..] == [];
    } else {
      assert (rules + [rule])[0] == rules[0];
      assert (rules + [rule])[1..] == rules[1..] + [rule];
      match ApplyRule(rows, rules[0], eval)
      case Err(e) =>
      case Ok(next) => ApplyRulesAppend(next, rules[1..], rule, eval);
    }
  }

  /** Once a prefix of the rules fails, the whole list fails with the same error. */
  lemma {:induction false} ApplyRulesPrefixError(rows: seq<Row>, rules: seq<ExtraColumn>, n: nat, eval: Evaluator)
    requires n <= |rules| && ApplyRules(rows, rules[..n], eval).Err?
    ensures ApplyRules(rows, rules, eval) == ApplyRules(rows, rules[..n], eval)
    decreases n
  {
    assert rules[..n][0] == rules[0];
    assert rules[..n][1..] == rules[1..][..n - 1];
    match ApplyRule(rows, rules[0], eval)
    case Err(e) =>
    case Ok(next) => ApplyRulesPrefixError(next, rules[1..], n - 1, eval);
  }

  /** Applying the rules fails exactly when one of them has an unknown type, with the
      error of the first such rule. */
  lemma {:induction false} ApplyRulesError(rows: seq<Row>, rules: seq<ExtraColumn>, eval: Evaluator)
    ensures ApplyRules(rows, rules, eval).Err? <==> exists i :: 0 <= i < |rules| && rules[i].Unknown?
    ensures ApplyRules(rows, rules, eval).Err? ==> ApplyRules(rows, rules, eval).error.UnknownExtraType?
    ensures forall i | 0 <= i < |rules| && rules[i].Unknown? && (forall j | 0 <= j < i :: !rules[j].Unknown?) ::
      ApplyRules(rows, rules, eval) == Err(UnknownExtraType(rules[i].kind))
    decreases |rules|
  {
    if rules != [] {
      match ApplyRule(rows, rules[0], eval)
      case Err(e) =>
        forall i | 0 <= i < |rules| && rules[i].Unknown? && (forall j | 0 <= j < i :: !rules[j].Unknown?)
          ensures ApplyRules(rows, rules, eval) == Err(UnknownExtraType(rules[i].kind))
        {
          assert i == 0;
        }
      case Ok(next) =>
        ApplyRulesError(next, rules[1..], eval);
        assert forall i | 0 <= i < |rules| - 1 :: rules[1..][i] == rules[i + 1];
        if exists i :: 0 <= i < |rules| && rules[i].Unknown? {
          var i :| 0 <= i < |rules| && rules[i].Unknown?;
          assert rules[1..][i - 1].Unknown?;
        }
    }
  }

  /** Rules only add keys: each row keeps its keys, in place, and stays well formed. */
  lemma {:induction false} ApplyRuleKeys(rows: seq<Row>, rule: ExtraColumn, eval: Evaluator)
    requires forall r | r in rows :: WellFormed(r)
    requires ApplyRule(rows, rule, eval).Ok?
    ensures |ApplyRule(rows, rule, eval).value| == |rows|
    ensures forall i | 0 <= i < |rows| ::
      WellFormed(ApplyRule(rows, rule, eval).value[i]) && rows[i].keys <= ApplyRule(rows, rule, eval).value[i].keys
  {
    var out := ApplyRule(rows, rule, eval).value;
    forall i | 0 <= i < |rows|
      ensures WellFormed(out[i]) && rows[i].keys <= out[i].keys
    {
      assert rows[i] in rows;
      match rule
      case Formula(name, formula) =>
        SetKeys(rows[i], name, eval(formula, NullToZero(rows[i])));
      case FormulaMap(column, name) =>
        FormulaMapRowKeys(rows[i], NullToZero(rows[i]), column, name);
      case Weight(name, weights) =>
        SetKeys(rows[i], name, WeightScore(NullToZero(rows[i]), weights));
        assert out[i] == WeightRow(rows[i], name, weights);
    }
  }

  lemma {:induction false} ApplyRulesKeys(rows: seq<Row>, rules: seq<ExtraColumn>, eval: Evaluator)
    requires forall r | r in rows :: WellFormed(r)
    requires ApplyRules(rows, rules, eval).Ok?
    ensures |ApplyRules(rows, rules, eval).value| == |rows|
    ensures forall i | 0 <= i < |rows| ::
      WellFormed(ApplyRules(rows, rules, eval).value[i]) && rows[i].keys <= ApplyRules(rows, rules, eval).value[i].keys
    decreases |rules|
  {
    if rules != [] {
      ApplyRuleKeys(rows, rules[0], eval);
      var next := ApplyRule(rows, rules[0], eval).value;
      assert forall r | r in next :: WellFormed(r);
      ApplyRulesKeys(next, rules[1..], eval);
    }
  }

  // ---------------------------------------------------------------- add_pb_score, add_uq_score

  /** `LeaderboardData.f3_cols` */
  const Fixed3: seq<string> := ["model", "size", "quantization"]

  /** A key that gets a `pb-`/`uq-` companion: not one of the first three columns and not
      itself derived. */
  predicate Eligible(k: string) {
    k !in Fixed3 && !StartsWith(k, "pb-") && !StartsWith(k, "uq-")
  }

  lemma PrefixStarts(p: string, k: string)
    ensures StartsWith(p + k, p)
  {
    assert (p + k)[..|p|] == p;
  }

  /** The names pushed by the `forEach` over the columns: `prefix + k` for each eligible
      column k, in column order. */
  function Derived(prefix: string, cols: seq<string>): (r: seq<string>)
    ensures |r| <= |cols|
    ensures forall k | k in r :: StartsWith(k, prefix)
  {
    if cols == [] then []
    else
      var k := cols[|cols| - 1];
      PrefixStarts(prefix, k);
      Derived(prefix, cols[..|cols| - 1]) + if Eligible(k) then [prefix + k] else []
  }

  lemma PrefixInjective(p: string, a: string, b: string)
    requires p + a == p + b
    ensures a == b
  {
    assert a == (p + a)[|p|..];
    assert b == (p + b)[|p|..];
  }

  /** `prefix + k` is registered exactly when k is an eligible column. */
  lemma {:induction false} DerivedMembers(prefix: string, cols: seq<string>, k: string)
    ensures prefix + k in Derived(prefix, cols) <==> k in cols && Eligible(k)
  {
    if cols != [] {
      var c' := cols[..|cols| - 1];
      var last := cols[|cols| - 1];
      DerivedMembers(prefix, c', k);
      assert cols == c' + [last];
      if prefix + k == prefix + last { PrefixInjective(prefix, k, last); }
    }
  }

  /** Over repeat-free columns the derived names have no repeats either. */
  lemma {:induction false} DerivedDistinct(prefix: string, cols: seq<string>)
    requires Distinct(cols)
    ensures Distinct(Derived(prefix, cols))
  {
    if cols != [] {
      var c' := cols[..|cols| - 1];
      var k := cols[|cols| - 1];
      assert Distinct(c');
      DerivedDistinct(prefix, c');
      DerivedMembers(prefix, c', k);
    }
  }

  /** Derived columns are themselves skipped, so deriving again over the longer list adds
      nothing new. */
  lemma {:induction false} DerivedSkipsDerived(prefix: string, other: string, cols: seq<string>, more: seq<string>)
    requires other == "pb-" || other == "uq-"
    requires forall k | k in more :: StartsWith(k, other)
    ensures Derived(prefix, cols + more) == Derived(prefix, cols)
  {
    if more != [] {
      var m' := more[..|more| - 1];
      assert (cols + more)[..|cols + more| - 1] == cols + m';
      assert more[|more| - 1] in more;
      DerivedSkipsDerived(prefix, other, cols, m');
    } else {
      assert cols + more == cols;
    }
  }

  /** `Number(v) / size`: NaN (non-finite) when `v` is not a number; division by a zero
      size is not guarded and gives a non-finite value too. */
  function PbValue(v: Value, size: real): Value {
    match ToNumber(v)
    case None => NonFinite
    case Some(x) => if size == 0.0 then NonFinite else Num(x / size)
  }

  /** The entry loop of one row of `add_pb_score`, over `ks`, reading the entries of `r`. */
  function PbFold(r: Row, ks: seq<string>, size: real): Row {
    if ks == [] then r
    else
      var k := ks[|ks| - 1];
      var a := PbFold(r, ks[..|ks| - 1], size);
      if Eligible(k) then Set(a, "pb-" + k, PbValue(Get(r, k), size)) else a
  }

  /** One row of `add_pb_score`: left alone when `Number(x.size)` is NaN. */
  function PbRow(r: Row): Row {
    match ToNumber(Get(r, "size"))
    case None => r
    case Some(size) => PbFold(r, r.keys, size)
  }

  lemma {:induction false} PbFoldSpec(r: Row, ks: seq<string>, size: real)
    requires WellFormed(r) && Distinct(ks)
    ensures WellFormed(PbFold(r, ks, size)) && r.keys <= PbFold(r, ks, size).keys
    ensures forall k | k in ks && Eligible(k) :: Get(PbFold(r, ks, size), "pb-" + k) == PbValue(Get(r, k), size)
    ensures forall k | !StartsWith(k, "pb-") :: Get(PbFold(r, ks, size), k) == Get(r, k)
  {
    if ks != [] {
      var ks' := ks[..|ks| - 1];
      var k := ks[|ks| - 1];
      assert Distinct(ks') && k !in ks';
      PbFoldSpec(r, ks', size);
      var a := PbFold(r, ks', size);
      if Eligible(k) {
        SetKeys(a, "pb-" + k, PbValue(Get(r, k), size));
        PrefixStarts("pb-", k);
        forall k2 | k2 in ks && Eligible(k2)
          ensures Get(PbFold(r, ks, size), "pb-" + k2) == PbValue(Get(r, k2), size)
        {
          if k2 != k {
            assert k2 in ks';
            if "pb-" + k2 == "pb-" + k { PrefixInjective("pb-", k2, k); }
          }
        }
      }
    }
  }

  /** A row with a numeric size gets `pb-k = Number(v) / size` for every eligible key k
      it has, keeps its other keys and values; a row whose size is NaN is unchanged. */
  lemma PbRowSpec(r: Row)
    requires WellFormed(r)
    ensures WellFormed(PbRow(r)) && r.keys <= PbRow(r).keys
    ensures ToNumber(Get(r, "size")).None? ==> PbRow(r) == r
    ensures forall k | k in r.keys && Eligible(k) && ToNumber(Get(r, "size")).Some? ::
      Get(PbRow(r), "pb-" + k) == PbValue(Get(r, k), ToNumber(Get(r, "size")).value)
    ensures forall k | !StartsWith(k, "pb-") :: Get(PbRow(r), k) == Get(r, k)
  {
    if ToNumber(Get(r, "size")).Some? {
      PbFoldSpec(r, r.keys, ToNumber(Get(r, "size")).value);
    }
  }

  /** `unquant(v, quant)` for a number `v`. */
  function UqValue(v: Value, quant: string): Value {
    match v
    case Num(n) => Num(Unquant(n, quant))
    case _ => NonFinite
  }

  /** The entry loop of one row of `add_uq_score`, over `ks`: numbers of eligible keys get
      a `uq-` companion; `quant.toLowerCase()` throws when the quantization is not a
      string. */
  function UqFold(r: Row, ks: seq<string>, quant: Value): (res: Result<Row>)
    ensures res.Err? ==> res.error == NotAString
  {
    if ks == [] then Ok(r)
    else
      match UqFold(r, ks[..|ks| - 1], quant)
      case Err(e) => Err(e)
      case Ok(a) =>
        var k := ks[|ks| - 1];
        var v := Get(r, k);
        if !Eligible(k) || !IsNumber(v) then Ok(a)
        else match quant
          case Str(q) => Ok(Set(a, "uq-" + k, UqValue(v, q)))
          case _ => Err(NotAString)
  }

  function UqRow(r: Row): (res: Result<Row>)
    ensures res.Err? ==> res.error == NotAString
  {
    UqFold(r, r.keys, Get(r, "quantization"))
  }

  lemma {:induction false} UqFoldFails(r: Row, ks: seq<string>, quant: Value)
    ensures UqFold(r, ks, quant).Err? <==>
      !quant.Str? && exists k :: k in ks && Eligible(k) && IsNumber(Get(r, k))
  {
    if ks != [] {
      var ks' := ks[..|ks| - 1];
      var k := ks[|ks| - 1];
      assert ks == ks' + [k];
      UqFoldFails(r, ks', quant);
    }
  }

  lemma {:induction false} UqFoldSpec(r: Row, ks: seq<string>, quant: Value)
    requires WellFormed(r) && Distinct(ks) && UqFold(r, ks, quant).Ok?
    ensures var out := UqFold(r, ks, quant).value;
      WellFormed(out) && r.keys <= out.keys
      && (quant.Str? ==> forall k | k in ks && Eligible(k) && IsNumber(Get(r, k)) :: Get(out, "uq-" + k) == UqValue(Get(r, k), quant.s))
      && (forall k | !StartsWith(k, "uq-") :: Get(out, k) == Get(r, k))
  {
    if ks != [] {
      var ks' := ks[..|ks| - 1];
      var k := ks[|ks| - 1];
      assert Distinct(ks') && k !in ks';
      UqFoldSpec(r, ks', quant);
      var a := UqFold(r, ks', quant).value;
      if Eligible(k) && IsNumber(Get(r, k)) && quant.Str? {
        SetKeys(a, "uq-" + k, UqValue(Get(r, k), quant.s));
        PrefixStarts("uq-", k);
        forall k2 | k2 in ks && Eligible(k2) && IsNumber(Get(r, k2))
          ensures Get(UqFold(r, ks, quant).value, "uq-" + k2) == UqValue(Get(r, k2), quant.s)
        {
          if k2 != k {
            assert k2 in ks';
            if "uq-" + k2 == "uq-" + k { PrefixInjective("uq-", k2, k); }
          }
        }
      }
    }
  }

  /** A row that throws makes the whole batch throw, whatever the rows after it. */
  lemma {:induction false} UqRowsFailure(rows: seq<Row>, i: nat)
    requires i < |rows| && UqRows(rows[..i]).Ok? && UqRow(rows[i]).Err?
    ensures UqRows(rows) == Err(NotAString)
    decreases |rows|
  {
    if i < |rows| - 1 {
      var rows' := rows[..|rows| - 1];
      assert rows'[..i] == rows[..i] && rows'[i] == rows[i];
      UqRowsFailure(rows', i);
    } else {
      assert rows[..|rows| - 1] == rows[..i];
    }
  }

  /** `add_uq_score` on one row fails exactly when the row's quantization is not a string
      and the row has an eligible numeric value; otherwise every eligible number gets
      `uq-k = unquant(v, quantization)` and nothing else changes. */
  lemma UqRowSpec(r: Row)
    requires WellFormed(r)
    ensures UqRow(r).Err? <==>
      !Get(r, "quantization").Str? && exists k :: k in r.keys && Eligible(k) && IsNumber(Get(r, k))
    ensures UqRow(r).Err? ==> UqRow(r).error == NotAString
    ensures UqRow(r).Ok? ==>
      WellFormed(UqRow(r).value) && r.keys <= UqRow(r).value.keys
      && (forall k | k in r.keys && Eligible(k) && IsNumber(Get(r, k)) ::
            Get(UqRow(r).value, "uq-" + k) == UqValue(Get(r, k), Get(r, "quantization").s))
      && (forall k | !StartsWith(k, "uq-") :: Get(UqRow(r).value, k) == Get(r, k))
  {
    UqFoldFails(r, r.keys, Get(r, "quantization"));
    if UqRow(r).Ok? {
      UqFoldSpec(r, r.keys, Get(r, "quantization"));
    }
  }

  /** `add_uq_score` over all rows: the first row that throws stops the constructor. */
  function UqRows(rows: seq<Row>): (res: Result<seq<Row>>)
    ensures res.Err? ==> res.error == NotAString
  {
    if rows == [] then Ok([])
    else match UqRows(rows[..|rows| - 1])
      case Err(e) => Err(e)
      case Ok(done) =>
        match UqRow(rows[|rows| - 1])
        case Err(e) => Err(e)
        case Ok(x) => Ok(done + [x])
  }

  lemma {:induction false} UqRowsSpec(rows: seq<Row>)
    ensures UqRows(rows).Err? <==> exists i :: 0 <= i < |rows| && UqRow(rows[i]).Err?
    ensures UqRows(rows).Ok? ==>
      |UqRows(rows).value| == |rows| && forall i | 0 <= i < |rows| :: UqRows(rows).value[i] == UqRow(rows[i]).value
  {
    if rows != [] {
      var rows' := rows[..|rows| - 1];
      UqRowsSpec(rows');
      assert forall i | 0 <= i < |rows'| :: rows'[i] == rows[i];
    }
  }

  // ---------------------------------------------------------------- the whole constructor

  /** The state of a `LeaderboardData` once its constructor has run. */
  datatype Table = Table(data: seq<Row>, columns: seq<string>, hidden: seq<string>, metadata: Metadata)

  /** JavaScript objects never repeat a key. */
  predicate RawWellFormed(raw: seq<RawRecord>) {
    forall i | 0 <= i < |raw| :: WellFormed(raw[i].fields)
  }

  /** `apply_metadata`, when the first record carries a `__meta__` object. */
  function Parsed(t: Table, meta: Option<Metadata>, eval: Evaluator): (res: Result<Table>)
    ensures res.Err? ==>
      meta.Some? && res.error.UnknownExtraType?
      && exists i :: 0 <= i < |meta.value.extraColumns| && meta.value.extraColumns[i].Unknown?
  {
    match meta
    case None => Ok(t)
    case Some(m) =>
      ApplyRulesError(t.data, m.extraColumns, eval);
      match ApplyRules(t.data, m.extraColumns, eval)
      case Err(e) => Err(e)
      case Ok(d) => Ok(Table(d, t.columns, t.hidden + m.hiddenColumns, m))
  }

  function PbRows(rows: seq<Row>): (rows': seq<Row>)
    ensures |rows'| == |rows| && forall i | 0 <= i < |rows| :: rows'[i] == PbRow(rows[i])
  {
    seq(|rows|, i requires 0 <= i < |rows| => PbRow(rows[i]))
  }

  /** `add_pb_score` */
  function AddPb(t: Table): Table {
    if "size" !in t.columns then t
    else
      var d := Derived("pb-", t.columns);
      Table(PbRows(t.data), t.columns + d, t.hidden + d, t.metadata)
  }

  /** `add_uq_score` */
  function AddUq(t: Table): (res: Result<Table>)
    ensures res.Err? ==> res.error == NotAString && "quantization" in t.columns
  {
    if "quantization" !in t.columns then Ok(t)
    else
      match UqRows(t.data)
      case Err(e) => Err(e)
      case Ok(rows) =>
        var d := Derived("uq-", t.columns);
        Ok(Table(rows, t.columns + d, t.hidden + d, t.metadata))
  }

  /** `this.raw.some((x) => x["quantization"])` */
  predicate HasQuant(raw: seq<RawRecord>) {
    exists i :: 0 <= i < |raw| && Truthy(Get(raw[i].fields, "quantization"))
  }

  /** `hidden_quant_if_empty` */
  function HideQuantIfEmpty(t: Table, raw: seq<RawRecord>): Table {
    if HasQuant(raw) then t else t.(hidden := t.hidden + ["quantization"])
  }

  /** `data_fixed` */
  function Fixed(t: Table): Table {
    t.(data := seq(|t.data|, i requires 0 <= i < |t.data| => RoundRow(t.data[i])))
  }

  /** The state before `parse`: collected columns, loaded and null-filled rows. */
  function Prepared(raw: seq<RawRecord>): Table {
    var cols := CollectedColumns(raw);
    Table(NullFilled(Loaded(raw), cols), cols, [], NoMetadata)
  }

  /** `new LeaderboardData(raw)`: the table it builds, or the error it throws. */
  function Normalize(raw: seq<RawRecord>, eval: Evaluator): Result<Table> {
    if raw == [] then Err(NoData)
    else
      match Parsed(Prepared(raw), raw[0].meta, eval)
      case Err(e) => Err(e)
      case Ok(t1) =>
        match AddUq(AddPb(t1))
        case Err(e) => Err(e)
        case Ok(t2) => Ok(Fixed(HideQuantIfEmpty(t2, raw)))
  }

  /** The columns `add_pb_score` registers, given the collected ones. */
  function PbColumns(cols: seq<string>): seq<string> {
    if "size" in cols then Derived("pb-", cols) else []
  }

  /** The columns `add_uq_score` registers, given the collected ones. */
  function UqColumns(cols: seq<string>): seq<string> {
    if "quantization" in cols then Derived("uq-", cols) else []
  }

  /** What `hidden_quant_if_empty` appends. */
  function QuantHidden(raw: seq<RawRecord>): seq<string> {
    if HasQuant(raw) then [] else ["quantization"]
  }

  lemma QuantizationNotDerived()
    ensures !StartsWith("quantization", "pb-") && !StartsWith("quantization", "uq-")
  {
    assert "quantization"[..3] == "qua";
  }

  /** `uq-` names are derived from the collected columns only: the `pb-` names registered
      just before are skipped. */
  lemma UqAfterPb(cols: seq<string>)
    ensures Derived("uq-", cols + PbColumns(cols)) == Derived("uq-", cols)
  {
    if "size" in cols {
      DerivedSkipsDerived("uq-", "pb-", cols, Derived("pb-", cols));
    } else {
      assert cols + [] == cols;
    }
  }

  /** The constructor throws "no data" exactly for an empty input. */
  lemma NormalizeNoData(raw: seq<RawRecord>, eval: Evaluator)
    ensures Normalize(raw, eval) == Err(NoData) <==> raw == []
  {
  }

  /** An unknown rule type throws, with the type of the first such rule. */
  lemma NormalizeUnknownRule(raw: seq<RawRecord>, eval: Evaluator, i: nat)
    requires raw != [] && raw[0].meta.Some?
    requires i < |raw[0].meta.value.extraColumns| && raw[0].meta.value.extraColumns[i].Unknown?
    requires forall j | 0 <= j < i :: !raw[0].meta.value.extraColumns[j].Unknown?
    ensures Normalize(raw, eval) == Err(UnknownExtraType(raw[0].meta.value.extraColumns[i].kind))
  {
    ApplyRulesError(Prepared(raw).data, raw[0].meta.value.extraColumns, eval);
  }

  /** Besides those two, the only failure is a quantization that is not a string. */
  lemma NormalizeFailures(raw: seq<RawRecord>, eval: Evaluator)
    requires raw != [] && Normalize(raw, eval).Err?
    ensures (raw[0].meta.Some? && exists i :: 0 <= i < |raw[0].meta.value.extraColumns| && raw[0].meta.value.extraColumns[i].Unknown?)
      || (Normalize(raw, eval).error == NotAString && "quantization" in CollectedColumns(raw))
  {
    var t0 := Prepared(raw);
    var meta := raw[0].meta;
    if Parsed(t0, meta, eval).Ok? {
      var t1 := Parsed(t0, meta, eval).value;
      ParsedCatalogue(t0, meta, eval);
      assert t1.columns == CollectedColumns(raw);
      PbCatalogue(t1);
    }
  }

  /** The columns of a successful run: the collected ones, then their `pb-` and `uq-`
      companions; hidden are the `hidden_columns` of `__meta__`, the companions and, when
      no record has a quantization, `quantization`. */
  lemma NormalizeCatalogue(raw: seq<RawRecord>, eval: Evaluator)
    requires Normalize(raw, eval).Ok?
    ensures raw != []
    ensures var t := Normalize(raw, eval).value;
      var c := CollectedColumns(raw);
      var meta := raw[0].meta;
      t.columns == c + PbColumns(c) + UqColumns(c)
      && t.hidden == (if meta.Some? then meta.value.hiddenColumns else []) + PbColumns(c) + UqColumns(c) + QuantHidden(raw)
      && t.metadata == (if meta.Some? then meta.value else NoMetadata)
  {
    NormalizeSteps(raw, eval);
    var meta := raw[0].meta;
    var t0 := Prepared(raw);
    var c := CollectedColumns(raw);
    assert t0.columns == c && t0.hidden == [] && t0.metadata == NoMetadata;
    ParsedCatalogue(t0, meta, eval);
    var t1 := Parsed(t0, meta, eval).value;
    var mh := if meta.Some? then meta.value.hiddenColumns else [];
    assert t1.columns == c && t1.hidden == mh;
    ScoresCatalogue(t1);
    var t2 := AddUq(AddPb(t1)).value;
    FinishCatalogue(t2, raw);
  }

  /** The stages of a successful run, named. */
  lemma NormalizeSteps(raw: seq<RawRecord>, eval: Evaluator)
    requires Normalize(raw, eval).Ok?
    ensures raw != [] && Parsed(Prepared(raw), raw[0].meta, eval).Ok?
    ensures AddUq(AddPb(Parsed(Prepared(raw), raw[0].meta, eval).value)).Ok?
    ensures Normalize(raw, eval).value ==
      Fixed(HideQuantIfEmpty(AddUq(AddPb(Parsed(Prepared(raw), raw[0].meta, eval).value)).value, raw))
  {
  }

  lemma FinishCatalogue(t: Table, raw: seq<RawRecord>)
    ensures Fixed(HideQuantIfEmpty(t, raw)).columns == t.columns
    ensures Fixed(HideQuantIfEmpty(t, raw)).hidden == t.hidden + QuantHidden(raw)
    ensures Fixed(HideQuantIfEmpty(t, raw)).metadata == t.metadata
  {
    if HasQuant(raw) { assert t.hidden + [] == t.hidden; }
  }

  lemma ParsedCatalogue(t: Table, meta: Option<Metadata>, eval: Evaluator)
    requires Parsed(t, meta, eval).Ok?
    ensures var t' := Parsed(t, meta, eval).value;
      t'.columns == t.columns
      && t'.hidden == t.hidden + (if meta.Some? then meta.value.hiddenColumns else [])
      && t'.metadata == (if meta.Some? then meta.value else t.metadata)
  {
    if meta.None? { assert t.hidden + [] == t.hidden; }
  }

  lemma ScoresCatalogue(t: Table)
    requires AddUq(AddPb(t)).Ok?
    ensures var t' := AddUq(AddPb(t)).value;
      t'.columns == t.columns + PbColumns(t.columns) + UqColumns(t.columns)
      && t'.hidden == t.hidden + PbColumns(t.columns) + UqColumns(t.columns)
      && t'.metadata == t.metadata
  {
    PbCatalogue(t);
    UqCatalogue(AddPb(t));
    UqAfterPb(t.columns);
  }

  /** `add_pb_score` appends the `pb-` names to the columns and to the hidden ones; it
      never registers `quantization`. */
  lemma PbCatalogue(t: Table)
    ensures AddPb(t).columns == t.columns + PbColumns(t.columns)
    ensures AddPb(t).hidden == t.hidden + PbColumns(t.columns)
    ensures AddPb(t).metadata == t.metadata
    ensures "quantization" in AddPb(t).columns <==> "quantization" in t.columns
  {
    QuantizationNotDerived();
    NotDerived("pb-", t.columns, "quantization");
    if "size" !in t.columns {
      assert t.columns + [] == t.columns && t.hidden + [] == t.hidden;
    }
  }

  lemma UqCatalogue(t: Table)
    requires AddUq(t).Ok?
    ensures AddUq(t).value.columns == t.columns + UqColumns(t.columns)
    ensures AddUq(t).value.hidden == t.hidden + UqColumns(t.columns)
    ensures AddUq(t).value.metadata == t.metadata
  {
    if "quantization" !in t.columns {
      assert t.columns + [] == t.columns && t.hidden + [] == t.hidden;
    }
  }

  lemma NotDerived(prefix: string, cols: seq<string>, x: string)
    requires !StartsWith(x, prefix)
    ensures x !in Derived(prefix, cols)
  {
  }

  /** Every record of the table, well formed, with every column of the catalogue. */
  predicate Dense(rows: seq<Row>, cols: seq<string>) {
    forall i | 0 <= i < |rows| :: WellFormed(rows[i]) && forall k | k in cols :: k in rows[i].keys
  }

  lemma PreparedDense(raw: seq<RawRecord>)
    requires RawWellFormed(raw)
    ensures |Prepared(raw).data| == |raw| && Dense(Prepared(raw).data, CollectedColumns(raw))
  {
    var t := Prepared(raw);
    forall i | 0 <= i < |raw|
      ensures WellFormed(t.data[i]) && forall k | k in CollectedColumns(raw) :: k in t.data[i].keys
    {
      StripInternalSpec(raw[i].fields);
      FillNullSpec(StripInternal(raw[i].fields), CollectedColumns(raw));
    }
  }

  lemma ParsedDense(t: Table, meta: Option<Metadata>, eval: Evaluator, cols: seq<string>)
    requires Dense(t.data, cols) && Parsed(t, meta, eval).Ok?
    ensures |Parsed(t, meta, eval).value.data| == |t.data| && Dense(Parsed(t, meta, eval).value.data, cols)
  {
    if meta.Some? {
      assert forall r | r in t.data :: WellFormed(r);
      ApplyRulesKeys(t.data, meta.value.extraColumns, eval);
    }
  }

  lemma ScoresDense(t: Table, cols: seq<string>)
    requires Dense(t.data, cols) && AddUq(AddPb(t)).Ok?
    ensures |AddUq(AddPb(t)).value.data| == |t.data| && Dense(AddUq(AddPb(t)).value.data, cols)
  {
    var t2 := AddPb(t);
    forall i | 0 <= i < |t.data| ensures WellFormed(t2.data[i]) && forall k | k in cols :: k in t2.data[i].keys {
      if "size" in t.columns { PbRowSpec(t.data[i]); }
    }
    if "quantization" in t2.columns {
      UqRowsSpec(t2.data);
      var rows := UqRows(t2.data).value;
      forall i | 0 <= i < |t.data| ensures WellFormed(rows[i]) && forall k | k in cols :: k in rows[i].keys {
        UqRowSpec(t2.data[i]);
      }
    }
  }

  /** A successful run keeps one record per input record, each well formed and holding
      every collected column (`null` where the input had none). */
  lemma NormalizeDense(raw: seq<RawRecord>, eval: Evaluator)
    requires RawWellFormed(raw) && Normalize(raw, eval).Ok?
    ensures |Normalize(raw, eval).value.data| == |raw|
    ensures Dense(Normalize(raw, eval).value.data, CollectedColumns(raw))
  {
    var c := CollectedColumns(raw);
    PreparedDense(raw);
    ParsedDense(Prepared(raw), raw[0].meta, eval, c);
    var t1 := Parsed(Prepared(raw), raw[0].meta, eval).value;
    ScoresDense(t1, c);
    var t3 := HideQuantIfEmpty(AddUq(AddPb(t1)).value, raw);
    forall i | 0 <= i < |t3.data| ensures WellFormed(Fixed(t3).data[i]) && forall k | k in c :: k in Fixed(t3).data[i].keys {
      RoundRowSpec(t3.data[i]);
    }
  }

  /** `quantization` is hidden exactly when no raw record has a truthy quantization or
      `__meta__` hides it: the derived names never clash with it. */
  lemma QuantizationHidden(raw: seq<RawRecord>, eval: Evaluator)
    requires Normalize(raw, eval).Ok?
    ensures raw != []
    ensures "quantization" in Normalize(raw, eval).value.hidden <==>
      !HasQuant(raw) || (raw[0].meta.Some? && "quantization" in raw[0].meta.value.hiddenColumns)
  {
    NormalizeCatalogue(raw, eval);
    var c := CollectedColumns(raw);
    QuantizationNotDerived();
    NotDerived("pb-", c, "quantization");
    NotDerived("uq-", c, "quantization");
  }

  /** With a `size` column every eligible collected column gets a hidden `pb-` companion;
      with a `quantization` column, a hidden `uq-` one. */
  lemma CompanionsRegistered(raw: seq<RawRecord>, eval: Evaluator, k: string)
    requires Normalize(raw, eval).Ok?
    requires k in CollectedColumns(raw) && Eligible(k)
    ensures var t := Normalize(raw, eval).value;
      ("size" in CollectedColumns(raw) ==> "pb-" + k in t.columns && "pb-" + k in t.hidden)
      && ("quantization" in CollectedColumns(raw) ==> "uq-" + k in t.columns && "uq-" + k in t.hidden)
  {
    NormalizeCatalogue(raw, eval);
    var c := CollectedColumns(raw);
    DerivedMembers("pb-", c, k);
    DerivedMembers("uq-", c, k);
  }

  lemma DistinctConcat(a: seq<string>, b: seq<string>)
    requires Distinct(a) && Distinct(b) && forall x | x in a :: x !in b
    ensures Distinct(a + b)
  {
    forall i, j | 0 <= i < j < |a + b| ensures (a + b)[i] != (a + b)[j] {
      if i < |a| && j >= |a| {
        assert (a + b)[i] in a && (a + b)[j] == b[j - |a|];
      }
    }
  }

  lemma PrefixesDiffer(x: string)
    requires StartsWith(x, "uq-")
    ensures !StartsWith(x, "pb-")
  {
    assert x[..3] == "uq-";
    assert "uq-"[0] != "pb-"[0];
  }

  /** When no collected column already looks derived, the column list has no repeats. */
  lemma ColumnsDistinct(raw: seq<RawRecord>, eval: Evaluator)
    requires Normalize(raw, eval).Ok?
    requires forall k | k in CollectedColumns(raw) :: !StartsWith(k, "pb-") && !StartsWith(k, "uq-")
    ensures Distinct(Normalize(raw, eval).value.columns)
  {
    NormalizeCatalogue(raw, eval);
    var c := CollectedColumns(raw);
    CollectedColumnsSpec(raw);
    var pb, uq := PbColumns(c), UqColumns(c);
    DerivedDistinct("pb-", c);
    DerivedDistinct("uq-", c);
    DistinctConcat(c, pb);
    forall x | x in c + pb ensures x !in uq {
      if x in uq {
        PrefixesDiffer(x);
      }
    }
    DistinctConcat(c + pb, uq);
  }

  /** A collected column `pb-k` next to an eligible `k` is registered twice: the guard
      skips `pb-k` itself but not the `pb-k` derived from `k`. */
  lemma ColumnsRepeat(cols: seq<string>, k: string)
    requires "size" in cols && k in cols && Eligible(k) && "pb-" + k in cols
    ensures !Distinct(cols + PbColumns(cols) + UqColumns(cols))
  {
    DerivedMembers("pb-", cols, k);
    var all := cols + PbColumns(cols) + UqColumns(cols);
    var i :| 0 <= i < |cols| && cols[i] == "pb-" + k;
    var j :| 0 <= j < |PbColumns(cols)| && PbColumns(cols)[j] == "pb-" + k;
    assert all[i] == all[|cols| + j];
  }
}
