/** De-quantisation estimate: a score measured on a quantised model is divided by the
    share of full-precision performance its quantisation level is taken to keep. */
module Quantization {
  import opened Text
  import opened Values

  datatype Variant = Variant(name: string, bits: real, ratio: real)
  datatype Level = Level(name: string, variants: seq<Variant>)

  /** `quant_map`: quantisation levels, each with its named variants. */
  const QuantMap: seq<Level> := [
    Q1Level, Q2Level, Q3Level, Q4Level, Q5Level, Q6Level, Q8Level, F16Level, F32Level
  ]

  const Q1Level := Level("Q1", [Variant("IQ1_S", 1.78, 0.076)])
  const Q2Level := Level("Q2", [Variant("IQ2_XXS", 2.2, 0.299), Variant("IQ2_XS", 2.43, 0.4),
                                Variant("IQ2_S", 2.55, 0.43), Variant("IQ2_M", 2.76, 0.47)])
  const Q3Level := Level("Q3", [Variant("IQ3_XXS", 3.21, 0.59), Variant("IQ3_XS", 3.32, 0.61),
                                Variant("IQ3_S", 3.52, 0.67), Variant("IQ3_M", 3.63, 0.69)])
  const Q4Level := Level("Q4", [Variant("IQ4_XS", 4.32, 0.79), Variant("IQ4_NL", 4.56, 0.8),
                                Variant("Q4_K_S", 4.57, 0.8), Variant("Q4_K_M", 4.83, 0.82)])
  const Q5Level := Level("Q5", [Variant("Q5_K_S", 5.52, 0.995), Variant("Q5_K_M", 5.67, 0.9999)])
  const Q6Level := Level("Q6", [Variant("Q6_K", 6.57, 1.0)])
  const Q8Level := Level("Q8", [Variant("Q8_0", 8.0, 1.0)])
  const F16Level := Level("F16", [Variant("F16", 16.0, 1.0)])
  const F32Level := Level("F32", [Variant("F32", 32.0, 1.0)])

  /** A level that can be averaged: it has variants, and each keeps a share in (0, 1]. */
  predicate SaneLevel(l: Level) {
    l.variants != [] && forall v | v in l.variants :: 0.0 < v.ratio <= 1.0
  }

  /** Every level of the table has a variant and every ratio lies in (0, 1], so no
      division in `unquant` is by zero. */
  lemma QuantMapSane()
    ensures forall l | l in QuantMap :: SaneLevel(l)
  {
    assert SaneLevel(Q1Level) && SaneLevel(Q2Level) && SaneLevel(Q3Level);
    assert SaneLevel(Q4Level) && SaneLevel(Q5Level) && SaneLevel(Q6Level);
    assert SaneLevel(Q8Level) && SaneLevel(F16Level) && SaneLevel(F32Level);
  }

  /** `quant_map[name]` */
  function LevelLookup(levels: seq<Level>, name: string): (r: Option<Level>)
    ensures r.Some? ==> r.value in levels && r.value.name == name
    ensures r.None? ==> forall l | l in levels :: l.name != name
  {
    if levels == [] then None
    else if levels[0].name == name then Some(levels[0])
    else LevelLookup(levels[1..], name)
  }

  /** `quant_map[level][name]` */
  function VariantLookup(vs: seq<Variant>, name: string): (r: Option<Variant>)
    ensures r.Some? ==> r.value in vs && r.value.name == name
    ensures r.None? ==> forall v | v in vs :: v.name != name
  {
    if vs == [] then None
    else if vs[0].name == name then Some(vs[0])
    else VariantLookup(vs[1..], name)
  }

  function SumRatios(vs: seq<Variant>): real {
    if vs == [] then 0.0 else vs[0].ratio + SumRatios(vs[1..])
  }

  lemma {:induction false} SumRatiosBounds(vs: seq<Variant>)
    requires forall v | v in vs :: 0.0 < v.ratio <= 1.0
    ensures vs != [] ==> 0.0 < SumRatios(vs) <= |vs| as real
  {
    if vs != [] {
      SumRatiosBounds(vs[1..]);
    }
  }

  /** The plain average of the ratios of a level's variants. */
  function MeanRatio(l: Level): (m: real)
    requires SaneLevel(l)
    ensures 0.0 < m <= 1.0
  {
    SumRatiosBounds(l.variants);
    SumRatios(l.variants) / |l.variants| as real
  }

  /** The capture of `/^i?(q\d+)/`: `q` and the longest run of digits after it, after
      an optional leading `i`. */
  function QuantLevel(s: string): (r: Option<string>)
    ensures r.Some? ==> |r.value| >= 2 && r.value[0] == 'q'
  {
    if |s| > 2 && s[0] == 'i' && s[1] == 'q' && IsDigit(s[2]) then
      Some(s[1..2 + DigitPrefix(s[2..])])
    else if |s| > 1 && s[0] == 'q' && IsDigit(s[1]) then
      Some(s[..1 + DigitPrefix(s[1..])])
    else None
  }

  predicate FullPrecision(quant: string) {
    Contains(ToLower(quant), "f16") || Contains(ToLower(quant), "f32")
  }

  /** The lowercased scheme with its underscores removed. */
  function Normalized(quant: string): string {
    RemoveChar(ToLower(quant), '_')
  }

  /** `unquant(n, quant)` */
  function Unquant(n: real, quant: string): real {
    if Contains(ToLower(quant), "f16") then n
    else if Contains(ToLower(quant), "f32") then n
    else
      var normalized := Normalized(quant);
      match QuantLevel(normalized)
      case None => n
      case Some(level) =>
        QuantMapSane();
        match LevelLookup(QuantMap, ToUpper(level))
        case None => n
        case Some(l) =>
          match VariantLookup(l.variants, ToUpper(normalized))
          case Some(v) => n / v.ratio
          case None => n / MeanRatio(l)
  }

  /** The ratio a scheme is actually divided by: the mean of its level, or 1 when there
      is no adjustment (full precision, no level token, unknown level). */
  function EffectiveRatio(quant: string): (r: real)
    ensures 0.0 < r <= 1.0
  {
    QuantMapSane();
    if FullPrecision(quant) then 1.0
    else match QuantLevel(Normalized(quant))
      case None => 1.0
      case Some(level) =>
        match LevelLookup(QuantMap, ToUpper(level))
        case None => 1.0
        case Some(l) => MeanRatio(l)
  }

  lemma {:induction false} UpperCharUnderscore(c: char)
    ensures UpperChar(c) == '_' <==> c == '_'
  {
  }

  lemma {:induction false} ToUpperKeepsNoUnderscore(s: string)
    requires '_' !in s
    ensures '_' !in ToUpper(s)
  {
    if s != [] {
      assert s[0] in s;
      UpperCharUnderscore(s[0]);
      assert s[1..] <= s[1..];
      assert forall c | c in s[1..] :: c in s;
      ToUpperKeepsNoUnderscore(s[1..]);
    }
  }

  /** The variants of every `Q` level are named with an underscore. */
  lemma QLevelVariantsHaveUnderscores(l: Level, v: Variant)
    requires l in QuantMap && l.name[0] == 'Q' && v in l.variants
    ensures '_' in v.name
  {
    assert l == Q1Level || l == Q2Level || l == Q3Level || l == Q4Level
      || l == Q5Level || l == Q6Level || l == Q8Level;
    assert "IQ1_S"[3] == '_' && "IQ2_XXS"[3] == '_' && "IQ2_XS"[3] == '_';
    assert "IQ2_S"[3] == '_' && "IQ2_M"[3] == '_' && "IQ3_XXS"[3] == '_';
    assert "IQ3_XS"[3] == '_' && "IQ3_S"[3] == '_' && "IQ3_M"[3] == '_';
    assert "IQ4_XS"[3] == '_' && "IQ4_NL"[3] == '_' && "Q4_K_S"[2] == '_';
    assert "Q4_K_M"[2] == '_' && "Q5_K_S"[2] == '_' && "Q5_K_M"[2] == '_';
    assert "Q6_K"[2] == '_' && "Q8_0"[2] == '_';
  }

  /** The exact-match branch never succeeds: the lookup key has had its underscores
      removed, while every variant of a level reachable through `q<digits>` is named
      with one. */
  lemma ExactMatchNeverFires(quant: string, level: string, l: Level)
    requires QuantLevel(Normalized(quant)) == Some(level)
    requires LevelLookup(QuantMap, ToUpper(level)) == Some(l)
    ensures VariantLookup(l.variants, ToUpper(Normalized(quant))) == None
  {
    ToUpperKeepsNoUnderscore(Normalized(quant));
    assert ToUpper(level)[0] == UpperChar(level[0]) == 'Q';
    forall v | v in l.variants ensures v.name != ToUpper(Normalized(quant)) {
      QLevelVariantsHaveUnderscores(l, v);
    }
  }

  /** For every scheme the result is the score divided by the level's mean ratio (1 when
      nothing applies): the table's per-variant ratios are never used on their own. */
  lemma UnquantIsMeanDivision(n: real, quant: string)
    ensures Unquant(n, quant) == n / EffectiveRatio(quant)
  {
    if !FullPrecision(quant) {
      match QuantLevel(Normalized(quant))
      case None =>
      case Some(level) =>
        match LevelLookup(QuantMap, ToUpper(level))
        case None =>
        case Some(l) =>
          ExactMatchNeverFires(quant, level, l);
    }
  }

  /** The result depends only on whether the scheme is full precision and on its level
      token: case, underscores and the variant suffix do not matter. */
  lemma UnquantByLevel(n: real, a: string, b: string)
    requires !FullPrecision(a) && !FullPrecision(b)
    requires QuantLevel(Normalized(a)) == QuantLevel(Normalized(b))
    ensures Unquant(n, a) == Unquant(n, b)
  {
    UnquantIsMeanDivision(n, a);
    UnquantIsMeanDivision(n, b);
  }

  /** Lowercasing the scheme first changes nothing. */
  lemma UnquantCaseInsensitive(n: real, quant: string)
    ensures Unquant(n, ToLower(quant)) == Unquant(n, quant)
  {
    ToLowerIdempotent(quant);
  }

  /** De-quantising never lowers a non-negative score. */
  lemma UnquantNotBelow(n: real, quant: string)
    requires n >= 0.0
    ensures Unquant(n, quant) >= n
  {
    UnquantIsMeanDivision(n, quant);
    DivideByShare(n, EffectiveRatio(quant));
  }

  lemma DivideByShare(n: real, r: real)
    requires n >= 0.0 && 0.0 < r <= 1.0
    ensures n / r >= n
  {
    var q := n / r;
    assert q * r == n;
    assert q >= 0.0;
    assert q * (1.0 - r) >= 0.0;
  }

  // ---------------------------------------------------------------- worked schemes

  lemma {:induction false} DigitPrefixStops(digits: string, rest: string)
    requires AllDigits(digits)
    requires rest == [] || !IsDigit(rest[0])
    ensures DigitPrefix(digits + rest) == |digits|
  {
    if digits != [] {
      assert (digits + rest)[1..] == digits[1..] + rest;
      DigitPrefixStops(digits[1..], rest);
    } else {
      assert digits + rest == rest;
    }
  }

  /** `/^i?(q\d+)/` captures `q` and the whole run of digits, however long, after an
      optional `i`: with the underscores gone, `q4_0` yields the level `q40`. */
  lemma QuantLevelCapture(lead: string, digits: string, rest: string)
    requires lead == "" || lead == "i"
    requires digits != [] && AllDigits(digits)
    requires rest == [] || !IsDigit(rest[0])
    ensures QuantLevel(lead + "q" + digits + rest) == Some("q" + digits)
  {
    var s := lead + "q" + digits + rest;
    var k := |lead| + 1;
    assert s[k..] == digits + rest;
    DigitPrefixStops(digits, rest);
    assert s[|lead|..k + |digits|] == "q" + digits;
    if lead == "i" {
      assert s[0] == 'i' && s[1] == 'q' && s[2] == digits[0];
    } else {
      assert s[0] == 'q' && s[1] == digits[0];
    }
  }

  lemma {:induction false} NoFirstNoContains(s: string, sub: string)
    requires sub != [] && sub[0] !in s
    ensures !Contains(s, sub)
  {
    if s != [] {
      assert s[0] in s;
      assert forall c | c in s[1..] :: c in s;
      NoFirstNoContains(s[1..], sub);
    }
  }

  lemma {:induction false} RemoveAbsent(s: string, c: char)
    requires c !in s
    ensures RemoveChar(s, c) == s
  {
    if s != [] {
      assert s[0] in s;
      assert forall x | x in s[1..] :: x in s;
      RemoveAbsent(s[1..], c);
    }
  }

  lemma {:induction false} RemoveConcat(a: string, b: string, c: char)
    ensures RemoveChar(a + b, c) == RemoveChar(a, c) + RemoveChar(b, c)
  {
    if a != [] {
      assert (a + b)[1..] == a[1..] + b;
      RemoveConcat(a[1..], b, c);
    } else {
      assert a + b == b;
    }
  }

  /** Removing `c` from `a + c + b` where `a` has none. */
  lemma RemoveFirst(a: string, b: string, c: char)
    requires c !in a
    ensures RemoveChar(a + [c] + b, c) == a + RemoveChar(b, c)
  {
    calc {
      RemoveChar(a + [c] + b, c);
      { assert a + [c] + b == a + ([c] + b); }
      RemoveChar(a + ([c] + b), c);
      { RemoveConcat(a, [c] + b, c); }
      RemoveChar(a, c) + RemoveChar([c] + b, c);
      { var cb := [c] + b; assert cb[0] == c && cb[1..] == b; }
      RemoveChar(a, c) + RemoveChar(b, c);
      { RemoveAbsent(a, c); }
      a + RemoveChar(b, c);
    }
  }
  /** A scheme with no `f` whose lowercased form is `lowered` and whose normalised form is
      `squashed` is not full precision. */
  lemma SchemeOf(quant: string, lowered: string, squashed: string)
    requires ToLower(quant) == lowered && 'f' !in lowered
    requires RemoveChar(lowered, '_') == squashed
    ensures !FullPrecision(quant) && Normalized(quant) == squashed
  {
    NoFirstNoContains(lowered, "f16");
    NoFirstNoContains(lowered, "f32");
  }

  lemma KnownLevelRatio(quant: string, level: string, l: Level)
    requires !FullPrecision(quant) && QuantLevel(Normalized(quant)) == Some(level)
    requires LevelLookup(QuantMap, ToUpper(level)) == Some(l) && SaneLevel(l)
    ensures EffectiveRatio(quant) == MeanRatio(l)
  {
  }

  lemma UnknownLevelRatio(quant: string, level: string)
    requires !FullPrecision(quant) && QuantLevel(Normalized(quant)) == Some(level)
    requires LevelLookup(QuantMap, ToUpper(level)) == None
    ensures EffectiveRatio(quant) == 1.0
  {
  }

  /** A scheme divided by `r` in every call. */
  lemma DividedBy(n: real, quant: string, r: real)
    requires EffectiveRatio(quant) == r
    ensures Unquant(n, quant) == n / r
  {
    calc {
      Unquant(n, quant);
      { UnquantIsMeanDivision(n, quant); }
      n / EffectiveRatio(quant);
    }
  }

  lemma Unchanged(n: real, quant: string)
    requires EffectiveRatio(quant) == 1.0
    ensures Unquant(n, quant) == n
  {
    DividedBy(n, quant, 1.0);
  }

  /** A scheme containing `f16` or `f32` in any case is returned unchanged. */
  lemma UnquantFullPrecision(n: real, quant: string)
    requires FullPrecision(quant)
    ensures Unquant(n, quant) == n
  {
  }

  /** A scheme whose normalised form has no `i?q<digits>` prefix is returned unchanged. */
  lemma UnquantNoLevel(n: real, quant: string)
    requires !FullPrecision(quant) && QuantLevel(Normalized(quant)) == None
    ensures Unquant(n, quant) == n
  {
  }

  /** A level token that is not a key of the table leaves the score unchanged. */
  lemma UnquantUnknownLevel(n: real, quant: string, level: string)
    requires !FullPrecision(quant) && QuantLevel(Normalized(quant)) == Some(level)
    requires LevelLookup(QuantMap, ToUpper(level)) == None
    ensures Unquant(n, quant) == n
  {
    UnknownLevelRatio(quant, level);
    Unchanged(n, quant);
  }

  /** A known level divides by the mean of that level's ratios. */
  lemma UnquantKnownLevel(n: real, quant: string, level: string, l: Level)
    requires !FullPrecision(quant) && QuantLevel(Normalized(quant)) == Some(level)
    requires LevelLookup(QuantMap, ToUpper(level)) == Some(l)
    ensures SaneLevel(l) && Unquant(n, quant) == n / MeanRatio(l)
  {
    assert SaneLevel(l) by {
      QuantMapSane();
    }
    KnownLevelRatio(quant, level, l);
    DividedBy(n, quant, MeanRatio(l));
  }

  /** `LevelLookup` finds the first level with the name. */
  lemma {:induction false} LookupAt(levels: seq<Level>, i: nat, name: string)
    requires i < |levels| && levels[i].name == name
    requires forall l | l in levels[..i] :: l.name != name
    ensures LevelLookup(levels, name) == Some(levels[i])
  {
    if i > 0 {
      assert levels[0] in levels[..i];
      assert levels[1..][..i - 1] == levels[..i][1..];
      forall l | l in levels[1..][..i - 1] ensures l.name != name {
        assert l in levels[..i];
      }
      LookupAt(levels[1..], i - 1, name);
    }
  }

  lemma SquashOne(a: string, b: string)
    requires '_' !in a && '_' !in b
    ensures RemoveChar(a + ['_'] + b, '_') == a + b
  {
    RemoveFirst(a, b, '_');
    RemoveAbsent(b, '_');
  }

  lemma SquashTwo(a: string, b: string, c: string)
    requires '_' !in a && '_' !in b && '_' !in c
    ensures RemoveChar(a + ['_'] + b + ['_'] + c, '_') == a + b + c
  {
    assert a + ['_'] + b + ['_'] + c == a + ['_'] + (b + ['_'] + c);
    RemoveFirst(a, b + ['_'] + c, '_');
    SquashOne(b, c);
    assert a + (b + c) == a + b + c;
  }

  lemma SchemeLevel(quant: string, lowered: string, squashed: string, level: string)
    requires ToLower(quant) == lowered && 'f' !in lowered
    requires RemoveChar(lowered, '_') == squashed && QuantLevel(squashed) == Some(level)
    ensures !FullPrecision(quant) && QuantLevel(Normalized(quant)) == Some(level)
  {
    SchemeOf(quant, lowered, squashed);
  }

  lemma LookupQ2()
    ensures LevelLookup(QuantMap, ToUpper("q2")) == Some(Q2Level)
  {
    assert ToUpper("q2") == "Q2";
    assert QuantMap[..1] == [Q1Level];
    forall l | l in QuantMap[..1] ensures l.name != "Q2" {
      assert l == Q1Level;
    }
    LookupAt(QuantMap, 1, "Q2");
  }

  lemma MeanQ2()
    ensures SaneLevel(Q2Level) && MeanRatio(Q2Level) == 0.39975
  {
  }

  lemma LookupQ4()
    ensures LevelLookup(QuantMap, ToUpper("q4")) == Some(Q4Level)
  {
    assert ToUpper("q4") == "Q4";
    assert QuantMap[..3] == [Q1Level, Q2Level, Q3Level];
    forall l | l in QuantMap[..3] ensures l.name != "Q4" {
      assert l == Q1Level || l == Q2Level || l == Q3Level;
    }
    LookupAt(QuantMap, 3, "Q4");
  }

  lemma MeanQ4()
    ensures SaneLevel(Q4Level) && MeanRatio(Q4Level) == 0.8025
  {
  }

  lemma LookupQ6()
    ensures LevelLookup(QuantMap, ToUpper("q6")) == Some(Q6Level)
  {
    assert ToUpper("q6") == "Q6";
    assert QuantMap[..5] == [Q1Level, Q2Level, Q3Level, Q4Level, Q5Level];
    forall l | l in QuantMap[..5] ensures l.name != "Q6" {
      assert l == Q1Level || l == Q2Level || l == Q3Level || l == Q4Level || l == Q5Level;
    }
    LookupAt(QuantMap, 5, "Q6");
  }

  lemma MeanQ6()
    ensures SaneLevel(Q6Level) && MeanRatio(Q6Level) == 1.0
  {
  }

  lemma UnknownQ40()
    ensures LevelLookup(QuantMap, ToUpper("q40")) == None
  {
    assert ToUpper("q40") == "Q40";
    forall l | l in QuantMap ensures l.name != "Q40" {
      assert l == Q1Level || l == Q2Level || l == Q3Level || l == Q4Level || l == Q5Level || l == Q6Level || l == Q8Level || l == F16Level || l == F32Level;
    }
  }

  lemma UnknownQ51()
    ensures LevelLookup(QuantMap, ToUpper("q51")) == None
  {
    assert ToUpper("q51") == "Q51";
    forall l | l in QuantMap ensures l.name != "Q51" {
      assert l == Q1Level || l == Q2Level || l == Q3Level || l == Q4Level || l == Q5Level || l == Q6Level || l == Q8Level || l == F16Level || l == F32Level;
    }
  }

  lemma UnknownQ7()
    ensures LevelLookup(QuantMap, ToUpper("q7")) == None
  {
    assert ToUpper("q7") == "Q7";
    forall l | l in QuantMap ensures l.name != "Q7" {
      assert l == Q1Level || l == Q2Level || l == Q3Level || l == Q4Level || l == Q5Level || l == Q6Level || l == Q8Level || l == F16Level || l == F32Level;
    }
  }

  lemma UnknownQ10()
    ensures LevelLookup(QuantMap, ToUpper("q10")) == None
  {
    assert ToUpper("q10") == "Q10";
    forall l | l in QuantMap ensures l.name != "Q10" {
      assert l == Q1Level || l == Q2Level || l == Q3Level || l == Q4Level || l == Q5Level || l == Q6Level || l == Q8Level || l == F16Level || l == F32Level;
    }
  }

  lemma LowerIQ2XXS(quant: string)
    requires quant == "IQ2_XXS"
    ensures ToLower(quant) == "iq2_xxs"
  {
    assert ToLower("IQ2_XXS") == "iq2_xxs";
  }

  lemma SquashIQ2XXS()
    ensures 'f' !in "iq2_xxs" && RemoveChar("iq2_xxs", '_') == "iq2xxs"
  {
    SquashOne("iq2", "xxs");
    assert "iq2" + ['_'] + "xxs" == "iq2_xxs";
    assert "iq2" + "xxs" == "iq2xxs";
  }

  lemma CaptureIQ2XXS()
    ensures QuantLevel("iq2xxs") == Some("q2")
  {
    QuantLevelCapture("i", "2", "xxs");
    assert "i" + "q" + "2" + "xxs" == "iq2xxs";
    assert "q" + "2" == "q2";
  }

  lemma SchemeIQ2XXS(quant: string)
    requires quant == "IQ2_XXS"
    ensures !FullPrecision(quant) && QuantLevel(Normalized(quant)) == Some("q2")
  {
    LowerIQ2XXS(quant);
    SquashIQ2XXS();
    CaptureIQ2XXS();
    SchemeLevel(quant, "iq2_xxs", "iq2xxs", "q2");
  }

  lemma UnquantIQ2XXS(n: real, quant: string)
    requires quant == "IQ2_XXS"
    ensures Unquant(n, quant) == n / 0.39975
  {
    SchemeIQ2XXS(quant);
    LookupQ2();
    MeanQ2();
    KnownLevelRatio(quant, "q2", Q2Level);
    DividedBy(n, quant, 0.39975);
  }

  lemma LowerQ4KM(quant: string)
    requires quant == "Q4_K_M"
    ensures ToLower(quant) == "q4_k_m"
  {
    assert ToLower("Q4_K_M") == "q4_k_m";
  }

  lemma SquashQ4KM()
    ensures 'f' !in "q4_k_m" && RemoveChar("q4_k_m", '_') == "q4km"
  {
    SquashTwo("q4", "k", "m");
    assert "q4" + ['_'] + "k" + ['_'] + "m" == "q4_k_m";
    assert "q4" + "k" + "m" == "q4km";
  }

  lemma CaptureQ4KM()
    ensures QuantLevel("q4km") == Some("q4")
  {
    QuantLevelCapture("", "4", "km");
    assert "" + "q" + "4" + "km" == "q4km";
    assert "q" + "4" == "q4";
  }

  lemma SchemeQ4KM(quant: string)
    requires quant == "Q4_K_M"
    ensures !FullPrecision(quant) && QuantLevel(Normalized(quant)) == Some("q4")
  {
    LowerQ4KM(quant);
    SquashQ4KM();
    CaptureQ4KM();
    SchemeLevel(quant, "q4_k_m", "q4km", "q4");
  }

  lemma UnquantQ4KM(n: real, quant: string)
    requires quant == "Q4_K_M"
    ensures Unquant(n, quant) == n / 0.8025
  {
    SchemeQ4KM(quant);
    LookupQ4();
    MeanQ4();
    KnownLevelRatio(quant, "q4", Q4Level);
    DividedBy(n, quant, 0.8025);
  }

  lemma LowerQ4WEIRD(quant: string)
    requires quant == "Q4_WEIRD"
    ensures ToLower(quant) == "q4_weird"
  {
    assert ToLower("Q4_WEIRD") == "q4_weird";
  }

  lemma SquashQ4WEIRD()
    ensures 'f' !in "q4_weird" && RemoveChar("q4_weird", '_') == "q4weird"
  {
    SquashOne("q4", "weird");
    assert "q4" + ['_'] + "weird" == "q4_weird";
    assert "q4" + "weird" == "q4weird";
  }

  lemma CaptureQ4WEIRD()
    ensures QuantLevel("q4weird") == Some("q4")
  {
    QuantLevelCapture("", "4", "weird");
    assert "" + "q" + "4" + "weird" == "q4weird";
    assert "q" + "4" == "q4";
  }

  lemma SchemeQ4WEIRD(quant: string)
    requires quant == "Q4_WEIRD"
    ensures !FullPrecision(quant) && QuantLevel(Normalized(quant)) == Some("q4")
  {
    LowerQ4WEIRD(quant);
    SquashQ4WEIRD();
    CaptureQ4WEIRD();
    SchemeLevel(quant, "q4_weird", "q4weird", "q4");
  }

  lemma UnquantQ4WEIRD(n: real, quant: string)
    requires quant == "Q4_WEIRD"
    ensures Unquant(n, quant) == n / 0.8025
  {
    SchemeQ4WEIRD(quant);
    LookupQ4();
    MeanQ4();
    KnownLevelRatio(quant, "q4", Q4Level);
    DividedBy(n, quant, 0.8025);
  }

  lemma LowerIQ4XS(quant: string)
    requires quant == "iq4_xs"
    ensures ToLower(quant) == "iq4_xs"
  {
    assert ToLower("iq4_xs") == "iq4_xs";
  }

  lemma SquashIQ4XS()
    ensures 'f' !in "iq4_xs" && RemoveChar("iq4_xs", '_') == "iq4xs"
  {
    SquashOne("iq4", "xs");
    assert "iq4" + ['_'] + "xs" == "iq4_xs";
    assert "iq4" + "xs" == "iq4xs";
  }

  lemma CaptureIQ4XS()
    ensures QuantLevel("iq4xs") == Some("q4")
  {
    QuantLevelCapture("i", "4", "xs");
    assert "i" + "q" + "4" + "xs" == "iq4xs";
    assert "q" + "4" == "q4";
  }

  lemma SchemeIQ4XS(quant: string)
    requires quant == "iq4_xs"
    ensures !FullPrecision(quant) && QuantLevel(Normalized(quant)) == Some("q4")
  {
    LowerIQ4XS(quant);
    SquashIQ4XS();
    CaptureIQ4XS();
    SchemeLevel(quant, "iq4_xs", "iq4xs", "q4");
  }

  lemma UnquantIQ4XS(n: real, quant: string)
    requires quant == "iq4_xs"
    ensures Unquant(n, quant) == n / 0.8025
  {
    SchemeIQ4XS(quant);
    LookupQ4();
    MeanQ4();
    KnownLevelRatio(quant, "q4", Q4Level);
    DividedBy(n, quant, 0.8025);
  }

  lemma LowerQ4KMPlain(quant: string)
    requires quant == "q4km"
    ensures ToLower(quant) == "q4km"
  {
    assert ToLower("q4km") == "q4km";
  }

  lemma SquashQ4KMPlain()
    ensures 'f' !in "q4km" && RemoveChar("q4km", '_') == "q4km"
  {
    RemoveAbsent("q4km", '_');
  }

  lemma CaptureQ4KMPlain()
    ensures QuantLevel("q4km") == Some("q4")
  {
    QuantLevelCapture("", "4", "km");
    assert "" + "q" + "4" + "km" == "q4km";
    assert "q" + "4" == "q4";
  }

  lemma SchemeQ4KMPlain(quant: string)
    requires quant == "q4km"
    ensures !FullPrecision(quant) && QuantLevel(Normalized(quant)) == Some("q4")
  {
    LowerQ4KMPlain(quant);
    SquashQ4KMPlain();
    CaptureQ4KMPlain();
    SchemeLevel(quant, "q4km", "q4km", "q4");
  }

  lemma UnquantQ4KMPlain(n: real, quant: string)
    requires quant == "q4km"
    ensures Unquant(n, quant) == n / 0.8025
  {
    SchemeQ4KMPlain(quant);
    LookupQ4();
    MeanQ4();
    KnownLevelRatio(quant, "q4", Q4Level);
    DividedBy(n, quant, 0.8025);
  }

  lemma LowerQ6K(quant: string)
    requires quant == "Q6_K"
    ensures ToLower(quant) == "q6_k"
  {
    assert ToLower("Q6_K") == "q6_k";
  }

  lemma SquashQ6K()
    ensures 'f' !in "q6_k" && RemoveChar("q6_k", '_') == "q6k"
  {
    SquashOne("q6", "k");
    assert "q6" + ['_'] + "k" == "q6_k";
    assert "q6" + "k" == "q6k";
  }

  lemma CaptureQ6K()
    ensures QuantLevel("q6k") == Some("q6")
  {
    QuantLevelCapture("", "6", "k");
    assert "" + "q" + "6" + "k" == "q6k";
    assert "q" + "6" == "q6";
  }

  lemma SchemeQ6K(quant: string)
    requires quant == "Q6_K"
    ensures !FullPrecision(quant) && QuantLevel(Normalized(quant)) == Some("q6")
  {
    LowerQ6K(quant);
    SquashQ6K();
    CaptureQ6K();
    SchemeLevel(quant, "q6_k", "q6k", "q6");
  }

  lemma UnquantQ6K(n: real, quant: string)
    requires quant == "Q6_K"
    ensures Unquant(n, quant) == n
  {
    SchemeQ6K(quant);
    LookupQ6();
    MeanQ6();
    KnownLevelRatio(quant, "q6", Q6Level);
    Unchanged(n, quant);
  }

  lemma LowerQ40(quant: string)
    requires quant == "Q4_0"
    ensures ToLower(quant) == "q4_0"
  {
    assert ToLower("Q4_0") == "q4_0";
  }

  lemma SquashQ40()
    ensures 'f' !in "q4_0" && RemoveChar("q4_0", '_') == "q40"
  {
    SquashOne("q4", "0");
    assert "q4" + ['_'] + "0" == "q4_0";
    assert "q4" + "0" == "q40";
  }

  lemma CaptureQ40()
    ensures QuantLevel("q40") == Some("q40")
  {
    QuantLevelCapture("", "40", "");
    assert "" + "q" + "40" + "" == "q40";
    assert "q" + "40" == "q40";
  }

  lemma SchemeQ40(quant: string)
    requires quant == "Q4_0"
    ensures !FullPrecision(quant) && QuantLevel(Normalized(quant)) == Some("q40")
  {
    LowerQ40(quant);
    SquashQ40();
    CaptureQ40();
    SchemeLevel(quant, "q4_0", "q40", "q40");
  }

  lemma UnquantQ40(n: real, quant: string)
    requires quant == "Q4_0"
    ensures Unquant(n, quant) == n
  {
    SchemeQ40(quant);
    UnknownQ40();
    UnquantUnknownLevel(n, quant, "q40");
  }

  lemma LowerQ51(quant: string)
    requires quant == "Q5_1"
    ensures ToLower(quant) == "q5_1"
  {
    assert ToLower("Q5_1") == "q5_1";
  }

  lemma SquashQ51()
    ensures 'f' !in "q5_1" && RemoveChar("q5_1", '_') == "q51"
  {
    SquashOne("q5", "1");
    assert "q5" + ['_'] + "1" == "q5_1";
    assert "q5" + "1" == "q51";
  }

  lemma CaptureQ51()
    ensures QuantLevel("q51") == Some("q51")
  {
    QuantLevelCapture("", "51", "");
    assert "" + "q" + "51" + "" == "q51";
    assert "q" + "51" == "q51";
  }

  lemma SchemeQ51(quant: string)
    requires quant == "Q5_1"
    ensures !FullPrecision(quant) && QuantLevel(Normalized(quant)) == Some("q51")
  {
    LowerQ51(quant);
    SquashQ51();
    CaptureQ51();
    SchemeLevel(quant, "q5_1", "q51", "q51");
  }

  lemma UnquantQ51(n: real, quant: string)
    requires quant == "Q5_1"
    ensures Unquant(n, quant) == n
  {
    SchemeQ51(quant);
    UnknownQ51();
    UnquantUnknownLevel(n, quant, "q51");
  }

  lemma LowerQ7(quant: string)
    requires quant == "q7"
    ensures ToLower(quant) == "q7"
  {
    assert ToLower("q7") == "q7";
  }

  lemma SquashQ7()
    ensures 'f' !in "q7" && RemoveChar("q7", '_') == "q7"
  {
    RemoveAbsent("q7", '_');
  }

  lemma CaptureQ7()
    ensures QuantLevel("q7") == Some("q7")
  {
    QuantLevelCapture("", "7", "");
    assert "" + "q" + "7" + "" == "q7";
    assert "q" + "7" == "q7";
  }

  lemma SchemeQ7(quant: string)
    requires quant == "q7"
    ensures !FullPrecision(quant) && QuantLevel(Normalized(quant)) == Some("q7")
  {
    LowerQ7(quant);
    SquashQ7();
    CaptureQ7();
    SchemeLevel(quant, "q7", "q7", "q7");
  }

  lemma UnquantQ7(n: real, quant: string)
    requires quant == "q7"
    ensures Unquant(n, quant) == n
  {
    SchemeQ7(quant);
    UnknownQ7();
    UnquantUnknownLevel(n, quant, "q7");
  }

  lemma LowerQ10(quant: string)
    requires quant == "q10"
    ensures ToLower(quant) == "q10"
  {
    assert ToLower("q10") == "q10";
  }

  lemma SquashQ10()
    ensures 'f' !in "q10" && RemoveChar("q10", '_') == "q10"
  {
    RemoveAbsent("q10", '_');
  }

  lemma CaptureQ10()
    ensures QuantLevel("q10") == Some("q10")
  {
    QuantLevelCapture("", "10", "");
    assert "" + "q" + "10" + "" == "q10";
    assert "q" + "10" == "q10";
  }

  lemma SchemeQ10(quant: string)
    requires quant == "q10"
    ensures !FullPrecision(quant) && QuantLevel(Normalized(quant)) == Some("q10")
  {
    LowerQ10(quant);
    SquashQ10();
    CaptureQ10();
    SchemeLevel(quant, "q10", "q10", "q10");
  }

  lemma UnquantQ10(n: real, quant: string)
    requires quant == "q10"
    ensures Unquant(n, quant) == n
  {
    SchemeQ10(quant);
    UnknownQ10();
    UnquantUnknownLevel(n, quant, "q10");
  }

  lemma LowerF16(quant: string)
    requires quant == "F16"
    ensures ToLower(quant) == "f16"
  {
    assert ToLower("F16") == "f16";
  }

  lemma UnquantF16(n: real, quant: string)
    requires quant == "F16"
    ensures Unquant(n, quant) == n
  {
    LowerF16(quant);
    assert StartsWith("f16", "f16");
    UnquantFullPrecision(n, quant);
  }

  lemma LowerF32(quant: string)
    requires quant == "F32"
    ensures ToLower(quant) == "f32"
  {
    assert ToLower("F32") == "f32";
  }

  lemma UnquantF32(n: real, quant: string)
    requires quant == "F32"
    ensures Unquant(n, quant) == n
  {
    LowerF32(quant);
    assert StartsWith("f32", "f32");
    UnquantFullPrecision(n, quant);
  }
}
