/** The values and records both pipelines work on: a record maps string keys to a number,
    a string or null, and keeps its keys in insertion order (JavaScript object order,
    which decides column and output order). */
module Values {
  import opened Text

  datatype Option<T> = None | Some(value: T)

  /** What the code throws. */
  datatype Error =
    | NoData                    // `parse` on an empty batch
    | UnknownExtraType(kind: string)  // an `extra_columns` rule of unknown `type`
    | NotAString                // `quant.toLowerCase()` on a quantization that is not a string

  datatype Result<T> = Ok(value: T) | Err(error: Error)

  /** A cell. `NonFinite` is a number that is NaN or an infinity (what a division by zero
      or a `Number` of a non-numeric string yields); `Undefined` is what reading a missing
      key gives. */
  datatype Value = Num(n: real) | NonFinite | Str(s: string) | Null | Undefined

  /** `typeof v === "number"` */
  predicate IsNumber(v: Value) {
    v.Num? || v.NonFinite?
  }

  /** JavaScript truthiness (NaN is falsy; the model does not tell an infinity from NaN). */
  predicate Truthy(v: Value) {
    match v
    case Num(n) => n != 0.0
    case Str(s) => s != []
    case _ => false
  }

  /** `Number(v)`: `None` is NaN. */
  function ToNumber(v: Value): Option<real> {
    match v
    case Num(n) => Some(n)
    case Null => Some(0.0)
    case Str(s) => ParseNumber(s)
    case _ => None
  }

  // ---------------------------------------------------------------- Number(string)

  /** Value of a string of decimal digits, most significant first. */
  function DigitsValue(ds: string): nat
    requires AllDigits(ds)
  {
    if ds == [] then 0 else DigitsValue(ds[..|ds| - 1]) * 10 + DigitValue(ds[|ds| - 1])
  }

  /** Value of the digits after a decimal point. */
  function FractionValue(ds: string): real
    requires AllDigits(ds)
  {
    if ds == [] then 0.0 else (DigitValue(ds[0]) as real + FractionValue(ds[1..])) / 10.0
  }

  function DigitPrefix(s: string): (n: nat)
    ensures n <= |s| && AllDigits(s[..n])
    ensures n < |s| ==> !IsDigit(s[n])
  {
    if s != [] && IsDigit(s[0]) then 1 + DigitPrefix(s[1..]) else 0
  }

  /** `digits`, `digits.`, `digits.digits` or `.digits` */
  function ParseUnsigned(t: string): Option<real> {
    var i := DigitPrefix(t);
    var whole := DigitsValue(t[..i]) as real;
    if i == |t| then
      if i > 0 then Some(whole) else None
    else if t[i] == '.' && AllDigits(t[i + 1..]) && (i > 0 || i + 1 < |t|) then
      Some(whole + FractionValue(t[i + 1..]))
    else None
  }

  /** `Number(s)` for a string: surrounding white space is ignored, the empty string is 0,
      an optional sign precedes a decimal literal; anything else is NaN. */
  function ParseNumber(s: string): Option<real> {
    var t := Trim(s);
    if t == [] then Some(0.0)
    else if t[0] == '-' then
      match ParseUnsigned(t[1..])
      case Some(x) => Some(-x)
      case None => None
    else if t[0] == '+' then ParseUnsigned(t[1..])
    else ParseUnsigned(t)
  }

  function DigitChar(d: nat): (c: char)
    requires d < 10
    ensures IsDigit(c) && DigitValue(c) == d
  {
    ('0' as int + d) as char
  }

  /** `String(n)` for a natural number. */
  function NatToString(n: nat): (s: string)
    ensures AllDigits(s) && s != []
  {
    if n < 10 then [DigitChar(n)] else NatToString(n / 10) + [DigitChar(n % 10)]
  }

  lemma {:induction false} DigitsValueOfNatToString(n: nat)
    ensures DigitsValue(NatToString(n)) == n
  {
    var s := NatToString(n);
    if n >= 10 {
      DigitsValueOfNatToString(n / 10);
      assert s[..|s| - 1] == NatToString(n / 10);
    } else {
      assert s[..|s| - 1] == [];
    }
  }

  lemma {:induction false} DigitPrefixAll(s: string)
    requires AllDigits(s)
    ensures DigitPrefix(s) == |s|
  {
    if s != [] {
      DigitPrefixAll(s[1..]);
    }
  }

  /** Number(String(n)) == n: the parser reads back what a natural number prints as. */
  lemma ParseNumberNatToString(n: nat)
    ensures ParseNumber(NatToString(n)) == Some(n as real)
  {
    var s := NatToString(n);
    assert !IsWhitespace(s[0]);
    assert TrimStart(s) == s;
    assert !IsWhitespace(s[|s| - 1]);
    assert TrimEnd(s) == s;
    DigitPrefixAll(s);
    assert s[..|s|] == s;
    DigitsValueOfNatToString(n);
  }

  // ---------------------------------------------------------------- toFixed(2)

  /** `Number(x.toFixed(2))` on exact reals: the nearest hundredth, ties away from zero
      (toFixed picks the larger of two equally near candidates for |x|). */
  function Round2(x: real): real {
    if x >= 0.0 then (x * 100.0 + 0.5).Floor as real / 100.0
    else -((-x * 100.0 + 0.5).Floor as real / 100.0)
  }

  /** The whole number of hundredths `Round2` lands on. */
  function Hundredths(x: real): int {
    if x >= 0.0 then (x * 100.0 + 0.5).Floor else -((-x * 100.0 + 0.5).Floor)
  }

  lemma Round2Hundredths(x: real)
    ensures Round2(x) == Hundredths(x) as real / 100.0
    ensures x >= 0.0 ==> Hundredths(x) >= 0
    ensures x < 0.0 ==> Hundredths(x) <= 0
  {
  }

  lemma Round2Near(x: real)
    ensures -0.005 <= Round2(x) - x <= 0.005
  {
    Round2Hundredths(x);
    var m := Hundredths(x);
    if x >= 0.0 {
      assert m as real <= x * 100.0 + 0.5 < m as real + 1.0;
    } else {
      assert -m as real <= -x * 100.0 + 0.5 < -m as real + 1.0;
    }
  }

  /** A whole number of hundredths is rounded to itself. */
  lemma Round2Again(y: real, m: int)
    requires y == m as real / 100.0
    ensures (y * 100.0).Floor as real == y * 100.0
    ensures Round2(y) == y
  {
    assert y * 100.0 == m as real;
    if m >= 0 {
      assert y * 100.0 + 0.5 == m as real + 0.5;
      assert (m as real + 0.5).Floor == m;
    } else {
      assert -y * 100.0 + 0.5 == (-m) as real + 0.5;
      assert ((-m) as real + 0.5).Floor == -m;
    }
  }

  /** Rounding moves a number by at most half a hundredth, lands on a whole number of
      hundredths, and rounding again changes nothing. */
  lemma Round2Spec(x: real)
    ensures -0.005 <= Round2(x) - x <= 0.005
    ensures (Round2(x) * 100.0).Floor as real == Round2(x) * 100.0
    ensures Round2(Round2(x)) == Round2(x)
  {
    Round2Near(x);
    Round2Hundredths(x);
    Round2Again(Round2(x), Hundredths(x));
  }

  /** `typeof v === "number" ? n_fixed(v) : v` */
  function RoundValue(v: Value): Value {
    match v
    case Num(n) => Num(Round2(n))
    case _ => v
  }

  // ---------------------------------------------------------------- records

  predicate Distinct<T(==)>(s: seq<T>) {
    forall i, j | 0 <= i < j < |s| :: s[i] != s[j]
  }

  /** A record: `keys` in insertion order, `vals` their values. */
  datatype Row = Row(keys: seq<string>, vals: map<string, Value>)

  predicate WellFormed(r: Row) {
    Distinct(r.keys) && (forall k | k in r.vals :: k in r.keys) && (forall k | k in r.keys :: k in r.vals)
  }

  const EmptyRow := Row([], map[])

  /** `x[k]` */
  function Get(r: Row, k: string): Value {
    if k in r.vals then r.vals[k] else Undefined
  }

  /** `x[k] = v`: an existing key keeps its place, a new one goes last. */
  function Set(r: Row, k: string, v: Value): (r': Row)
    ensures WellFormed(r) ==> WellFormed(r')
    ensures k in r'.vals && r'.vals == r.vals[k := v]
  {
    Row(if k in r.vals then r.keys else r.keys + [k], r.vals[k := v])
  }

  /** Setting only adds keys, keeps the old ones in place and changes one value. */
  lemma SetKeys(r: Row, k: string, v: Value)
    requires WellFormed(r)
    ensures r.keys <= Set(r, k, v).keys
    ensures forall x :: x in Set(r, k, v).keys <==> x in r.keys || x == k
    ensures Get(Set(r, k, v), k) == v
    ensures forall x :: x != k ==> Get(Set(r, k, v), x) == Get(r, x)
  {
  }

  /** The same record with every value passed through `RoundValue` (`data_fixed`, and the
      rounding loop of `dataPrepare`). */
  function RoundRow(r: Row): Row {
    Row(r.keys, map k | k in r.vals :: RoundValue(r.vals[k]))
  }

  /** Rounding keeps the keys and their order and rounds every number to two places. */
  lemma RoundRowSpec(r: Row)
    ensures RoundRow(r).keys == r.keys
    ensures WellFormed(r) ==> WellFormed(RoundRow(r))
    ensures forall k :: Get(RoundRow(r), k) == RoundValue(Get(r, k))
  {
  }

  // ---------------------------------------------------------------- first-seen order

  /** All keys of all records, record by record. */
  function Flatten(rows: seq<Row>): seq<string> {
    if rows == [] then [] else Flatten(rows[..|rows| - 1]) + rows[|rows| - 1].keys
  }

  lemma FlattenSnoc(rows: seq<Row>, i: nat)
    requires i < |rows|
    ensures Flatten(rows[..i + 1]) == Flatten(rows[..i]) + rows[i].keys
  {
    assert rows[..i + 1][..i] == rows[..i];
  }

  /** Each element kept at its first occurrence (`[...new Set(s)]`, or a loop that pushes
      what `includes` does not find). */
  function Dedup(s: seq<string>): seq<string> {
    if s == [] then []
    else
      var d := Dedup(s[..|s| - 1]);
      if s[|s| - 1] in d then d else d + [s[|s| - 1]]
  }

  /** Deduplicating one more element: it is appended unless already present. */
  lemma DedupSnoc(s: seq<string>, x: string)
    ensures Dedup(s + [x]) == if x in Dedup(s) then Dedup(s) else Dedup(s) + [x]
  {
    assert (s + [x])[..|s|] == s;
  }

  /** `d` lists elements in the order of their first occurrence in `s`: wherever the later
      one occurs in `s`, the earlier one has already occurred. */
  predicate FirstSeenOrder(d: seq<string>, s: seq<string>) {
    forall i, j, q | 0 <= i < j < |d| && 0 <= q < |s| && s[q] == d[j] :: d[i] in s[..q]
  }

  lemma {:induction false} DedupSpec(s: seq<string>)
    ensures Distinct(Dedup(s))
    ensures forall k :: k in Dedup(s) <==> k in s
    ensures FirstSeenOrder(Dedup(s), s)
  {
    if s != [] {
      var s' := s[..|s| - 1];
      var x := s[|s| - 1];
      DedupSpec(s');
      assert s == s' + [x];
      var d', d := Dedup(s'), Dedup(s);
      forall i, j, q | 0 <= i < j < |d| && 0 <= q < |s| && s[q] == d[j]
        ensures d[i] in s[..q]
      {
        assert d[i] in d' && d[i] in s';
        if q < |s| - 1 {
          assert s'[..q] == s[..q] && s'[q] == s[q];
          assert s[q] in s';
          assert j < |d'|;
          assert d[j] == d'[j];
        } else {
          assert s[..q] == s';
        }
      }
    }
  }

  lemma {:induction false} FlattenSpec(rows: seq<Row>)
    ensures forall k :: k in Flatten(rows) <==> exists i :: 0 <= i < |rows| && k in rows[i].keys
  {
    if rows != [] {
      FlattenSpec(rows[..|rows| - 1]);
      forall k | k in Flatten(rows) ensures exists i :: 0 <= i < |rows| && k in rows[i].keys {
        if k in Flatten(rows[..|rows| - 1]) {
          var i :| 0 <= i < |rows| - 1 && k in rows[..|rows| - 1][i].keys;
          assert k in rows[i].keys;
        } else {
          assert k in rows[|rows| - 1].keys;
        }
      }
      forall k | exists i :: 0 <= i < |rows| && k in rows[i].keys ensures k in Flatten(rows) {
        var i :| 0 <= i < |rows| && k in rows[i].keys;
        if i < |rows| - 1 {
          assert k in rows[..|rows| - 1][i].keys;
        }
      }
    }
  }

  /** The keys of a batch in first-seen order: every key that occurs in some record,
      once each, in the order in which the records first show them. */
  function FirstSeen(rows: seq<Row>): (ks: seq<string>)
    ensures Distinct(ks)
    ensures forall k :: k in ks <==> exists i :: 0 <= i < |rows| && k in rows[i].keys
    ensures FirstSeenOrder(ks, Flatten(rows))
  {
    DedupSpec(Flatten(rows));
    FlattenSpec(rows);
    Dedup(Flatten(rows))
  }

  // ---------------------------------------------------------------- null filling

  /** `if (!(k in x)) x[k] = null` for each k of `cols` in turn. */
  function FillNull(r: Row, cols: seq<string>): Row {
    if cols == [] then r
    else
      var a := FillNull(r, cols[..|cols| - 1]);
      var k := cols[|cols| - 1];
      if k in a.vals then a else Set(a, k, Null)
  }

  /** After filling, a record has every listed key; keys it had keep their value and
      their place, the missing ones are `null` and follow in list order. */
  lemma {:induction false} FillNullSpec(r: Row, cols: seq<string>)
    requires WellFormed(r)
    ensures WellFormed(FillNull(r, cols))
    ensures r.keys <= FillNull(r, cols).keys
    ensures forall k :: k in FillNull(r, cols).keys <==> k in r.keys || k in cols
    ensures forall k :: k in r.vals ==> FillNull(r, cols).vals[k] == r.vals[k]
    ensures forall k :: k in cols && k !in r.vals ==> FillNull(r, cols).vals[k] == Null
  {
    if cols != [] {
      var c' := cols[..|cols| - 1];
      FillNullSpec(r, c');
      var a := FillNull(r, c');
      var k := cols[|cols| - 1];
      assert cols == c' + [k];
      if k !in a.vals {
        SetKeys(a, k, Null);
      }
    }
  }
}
