/** The record preparation the table view runs on every dataset: `dataPrepare` on each record,
    then `header_key_fix` over all of them. */
module Prepare {
  import opened Text
  import opened Values
  import opened Pipeline

  // ---------------------------------------------------------------- key lists

  /** The keys of `ks` that are not in `drop`, in order. */
  function Keep(ks: seq<string>, drop: seq<string>): (r: seq<string>)
    ensures forall k :: k in r <==> k in ks && k !in drop
    ensures Distinct(ks) ==> Distinct(r)
  {
    if ks == [] then []
    else
      var r := Keep(ks[..|ks| - 1], drop);
      var k := ks[|ks| - 1];
      assert ks == ks[..|ks| - 1] + [k];
      if k in drop then r else r + [k]
  }

  /** Keeping works element by element, so it keeps the order of the keys. */
  lemma {:induction false} KeepAppend(a: seq<string>, b: seq<string>, drop: seq<string>)
    ensures Keep(a + b, drop) == Keep(a, drop) + Keep(b, drop)
    decreases |b|
  {
    if b == [] {
      assert a + b == a;
    } else {
      var b', x := b[..|b| - 1], b[|b| - 1];
      assert (a + b)[..|a + b| - 1] == a + b' && (a + b)[|a + b| - 1] == x;
      KeepAppend(a, b', drop);
    }
  }

  /** Keys that are not dropped all come through. */
  lemma {:induction false} KeepNone(ks: seq<string>, drop: seq<string>)
    requires forall k | k in ks :: k !in drop
    ensures Keep(ks, drop) == ks
  {
    if ks != [] {
      var ks' := ks[..|ks| - 1];
      assert forall k | k in ks' :: k in ks;
      KeepNone(ks', drop);
      assert ks == ks' + [ks[|ks| - 1]];
    }
  }

  /** Dropping keys that do not occur changes nothing. */
  lemma {:induction false} KeepIrrelevant(ks: seq<string>, a: seq<string>, b: seq<string>)
    requires forall k | k in ks :: k !in b
    ensures Keep(ks, a + b) == Keep(ks, a)
  {
    if ks != [] {
      var ks' := ks[..|ks| - 1];
      assert forall k | k in ks' :: k in ks;
      KeepIrrelevant(ks', a, b);
    }
  }

  /** `const { size, model, quantization, ...others } = data` */
  function Others(data: Row): Row {
    Row(Keep(data.keys, Fixed3), map k | k in data.vals && k !in Fixed3 :: data.vals[k])
  }

  /** `delete r[k]` */
  function Delete(r: Row, k: string): Row {
    Row(Keep(r.keys, [k]), r.vals - {k})
  }

  /** The keys of `r` whose value is a number, in order (`typeof v === "number"`). */
  function NumericKeys(r: Row): (ks: seq<string>)
    ensures forall k :: k in ks <==> k in r.keys && IsNumber(Get(r, k))
    ensures Distinct(r.keys) ==> Distinct(ks)
  {
    NumericAmong(r, r.keys)
  }

  function NumericAmong(r: Row, keys: seq<string>): (ks: seq<string>)
    ensures forall k :: k in ks <==> k in keys && IsNumber(Get(r, k))
    ensures Distinct(keys) ==> Distinct(ks)
  {
    if keys == [] then []
    else
      var ks := NumericAmong(r, keys[..|keys| - 1]);
      var k := keys[|keys| - 1];
      assert keys == keys[..|keys| - 1] + [k];
      if IsNumber(Get(r, k)) then ks + [k] else ks
  }

  /** The numeric keys of a list are found element by element, in the list's order. */
  lemma {:induction false} NumericAmongAppend(r: Row, a: seq<string>, b: seq<string>)
    ensures NumericAmong(r, a + b) == NumericAmong(r, a) + NumericAmong(r, b)
    decreases |b|
  {
    if b == [] {
      assert a + b == a;
    } else {
      var b', x := b[..|b| - 1], b[|b| - 1];
      assert (a + b)[..|a + b| - 1] == a + b' && (a + b)[|a + b| - 1] == x;
      NumericAmongAppend(r, a, b');
    }
  }

  /** `prefix + k` for each key. */
  function Prefixed(prefix: string, ks: seq<string>): (r: seq<string>)
    ensures |r| == |ks|
  {
    seq(|ks|, i requires 0 <= i < |ks| => prefix + ks[i])
  }

  // ---------------------------------------------------------------- entries

  type Entry = (string, Value)

  function Firsts(es: seq<Entry>): (ks: seq<string>)
    ensures |ks| == |es|
  {
    seq(|es|, i requires 0 <= i < |es| => es[i].0)
  }

  /** `Object.entries(r)` */
  function Entries(r: Row): (es: seq<Entry>)
    ensures Firsts(es) == r.keys
  {
    seq(|r.keys|, i requires 0 <= i < |r.keys| => (r.keys[i], Get(r, r.keys[i])))
  }

  /** `{...r, ...Object.fromEntries(es)}`: the entries are set one after the other. */
  function SetAll(r: Row, es: seq<Entry>): (r': Row)
    ensures WellFormed(r) ==> WellFormed(r')
  {
    if es == [] then r
    else
      var e := es[|es| - 1];
      Set(SetAll(r, es[..|es| - 1]), e.0, e.1)
  }

  /** Entries with new, distinct keys are appended in order. */
  lemma FirstsSnoc(es: seq<Entry>)
    requires es != []
    ensures Firsts(es) == Firsts(es[..|es| - 1]) + [es[|es| - 1].0]
  {
  }

  lemma DistinctSnoc(s: seq<string>, x: string)
    requires Distinct(s + [x])
    ensures Distinct(s) && x !in s
  {
    forall i | 0 <= i < |s|
      ensures s[i] != x
    {
      assert s[i] == (s + [x])[i] && x == (s + [x])[|s|];
    }
    assert forall i | 0 <= i < |s| :: s[i] == (s + [x])[i];
  }

  lemma {:induction false} SetAllKeys(r: Row, es: seq<Entry>)
    requires WellFormed(r) && Distinct(Firsts(es))
    requires forall i | 0 <= i < |es| :: es[i].0 !in r.vals
    ensures SetAll(r, es).keys == r.keys + Firsts(es)
  {
    if es != [] {
      var n := |es| - 1;
      var es', e := es[..n], es[n];
      FirstsSnoc(es);
      DistinctSnoc(Firsts(es'), e.0);
      SetAllKeys(r, es');
      assert e.0 !in SetAll(r, es').vals;
      assert SetAll(r, es).keys == (r.keys + Firsts(es')) + [e.0];
    }
  }

  /** Each entry reads back as set, since no later entry has its key. */
  lemma {:induction false} SetAllAt(r: Row, es: seq<Entry>, i: nat)
    requires Distinct(Firsts(es)) && i < |es|
    ensures Get(SetAll(r, es), es[i].0) == es[i].1
  {
    var n := |es| - 1;
    if i < n {
      var es' := es[..n];
      assert Firsts(es') == Firsts(es)[..n];
      assert Firsts(es)[i] != Firsts(es)[n];
      SetAllAt(r, es', i);
    }
  }

  /** A key no entry has keeps its value. */
  lemma {:induction false} SetAllOther(r: Row, es: seq<Entry>, k: string)
    requires k !in Firsts(es)
    ensures Get(SetAll(r, es), k) == Get(r, k)
  {
    if es != [] {
      var n := |es| - 1;
      assert Firsts(es[..n]) == Firsts(es)[..n];
      assert Firsts(es)[n] == es[n].0;
      SetAllOther(r, es[..n], k);
    }
  }

  /** Entries with distinct keys: a key already present keeps its place, the new ones are
      appended in the entries' order. */
  lemma {:induction false} SetAllLayout(r: Row, es: seq<Entry>)
    requires WellFormed(r) && Distinct(Firsts(es))
    ensures SetAll(r, es).keys == r.keys + Keep(Firsts(es), r.keys)
  {
    if es != [] {
      var n := |es| - 1;
      var es', e := es[..n], es[n];
      FirstsSnoc(es);
      DistinctSnoc(Firsts(es'), e.0);
      SetAllLayout(r, es');
      var s' := SetAll(r, es');
      assert e.0 in s'.vals <==> e.0 in r.keys;
      assert Firsts(es)[..n] == Firsts(es') && Firsts(es)[n] == e.0;
    }
  }

  // ---------------------------------------------------------------- dataPrepare

  /** `size <= 0`, with `size` converted to a number (NaN compares false). */
  predicate NonPositive(size: Value) {
    match ToNumber(size)
    case Some(x) => x <= 0.0
    case None => false
  }

  /** The `pb-` value of a number: 0 for a size at most 0, otherwise `v / size`. */
  function PerBillion(v: Value, size: Value): Value {
    if NonPositive(size) then Num(0.0)
    else match (v, ToNumber(size))
      case (Num(n), Some(x)) => Num(n / x)
      case _ => NonFinite
  }

  /** `pbs`: a `pb-` entry for every number among the other fields. */
  function PbEntries(others: Row, size: Value): (es: seq<Entry>)
    ensures Firsts(es) == Prefixed("pb-", NumericKeys(others))
  {
    var ns := NumericKeys(others);
    seq(|ns|, i requires 0 <= i < |ns| => ("pb-" + ns[i], PerBillion(Get(others, ns[i]), size)))
  }

  /** `unquants`: none for a falsy quantization; otherwise an `uq-` entry for every number
      among the other fields, and `quantization.toLowerCase()` throws for a non-string. */
  function UqEntries(others: Row, quant: Value): (res: Result<seq<Entry>>)
    ensures res.Ok? && Truthy(quant) && quant.Str? ==> Firsts(res.value) == Prefixed("uq-", NumericKeys(others))
    ensures res.Ok? && !(Truthy(quant) && quant.Str?) ==> res.value == []
    ensures res.Err? <==> Truthy(quant) && !quant.Str? && NumericKeys(others) != []
  {
    if !Truthy(quant) then Ok([])
    else match quant
      case Str(q) => Ok(Unquantized(others, q))
      case _ => if NumericKeys(others) == [] then Ok([]) else Err(NotAString)
  }

  function Unquantized(others: Row, q: string): (es: seq<Entry>)
    ensures Firsts(es) == Prefixed("uq-", NumericKeys(others))
  {
    var ns := NumericKeys(others);
    seq(|ns|, i requires 0 <= i < |ns| => ("uq-" + ns[i], UqValue(Get(others, ns[i]), q)))
  }

  /** `reduce((a, b) => a + b, 0)` over numbers and nulls; `None` once NaN (or text) enters. */
  function Sum(vs: seq<Value>): Option<real> {
    if vs == [] then Some(0.0)
    else match Sum(vs[..|vs| - 1])
      case None => None
      case Some(a) =>
        match vs[|vs| - 1]
        case Num(n) => Some(a + n)
        case Null => Some(a)
        case _ => None
  }

  /** `Object.values(r)` */
  function RowValues(r: Row): seq<Value> {
    seq(|r.keys|, i requires 0 <= i < |r.keys| => Get(r, r.keys[i]))
  }

  /** `average_score`: a truthy `average` is kept; otherwise the sum of all other fields over
      the number of headers after the first three. */
  function Average(others: Row, headers: seq<string>): Value {
    var avg := Get(others, "average");
    if Truthy(avg) then avg
    else
      var n := if |headers| >= 3 then |headers| - 3 else 0;
      match Sum(RowValues(others))
      case Some(s) => if n == 0 then NonFinite else Num(s / n as real)
      case None => NonFinite
  }

  const Leading: seq<string> := ["model", "size", "quantization", "average"]

  /** `{model, size, quantization, average: average_score}` */
  function Head(data: Row, average: Value): (h: Row)
    ensures WellFormed(h) && h.keys == Leading
    ensures forall k :: k in h.vals <==> k in Leading
  {
    Row(Leading, map["model" := Get(data, "model"), "size" := Get(data, "size"),
                     "quantization" := Get(data, "quantization"), "average" := average])
  }

  /** `o1` before its numbers are rounded. */
  function Assembled(data: Row, headers: seq<string>): (res: Result<Row>)
    ensures res.Ok? ==> WellFormed(res.value)
  {
    var others := Others(data);
    var pbs := PbEntries(others, Get(data, "size"));
    match UqEntries(others, Get(data, "quantization"))
    case Err(e) => Err(e)
    case Ok(uqs) =>
      var average := Average(others, headers);
      var rest := Delete(others, "average");
      Ok(SetAll(SetAll(SetAll(Head(data, average), Entries(rest)), pbs), uqs))
  }

  /** What `dataPrepare` returns (or throws). */
  function Prepared(data: Row, headers: seq<string>): Result<Row> {
    match Assembled(data, headers)
    case Ok(o) => Ok(RoundRow(o))
    case Err(e) => Err(e)
  }

  /** `dataPrepare(data, headers)`: assemble `o1`, then round its numbers in place. */
  method DataPrepare(data: Row, headers: seq<string>) returns (res: Result<Row>)
    ensures res == Prepared(data, headers)
  {
    var assembled := Assembled(data, headers);
    if assembled.Err? {
      return Err(assembled.error);
    }
    var o1 := RoundEntries(assembled.value);
    res := Ok(o1);
  }

  /** The closing loop of `dataPrepare`: every number among the entries is replaced by its
      rounding to two places, in place. */
  method RoundEntries(o1: Row) returns (o: Row)
    requires WellFormed(o1)
    ensures o == RoundRow(o1)
  {
    o := o1;
    for j := 0 to |o1.keys|
      invariant o.keys == o1.keys && o.vals.Keys == o1.vals.Keys
      invariant forall k | k in o1.vals ::
        o.vals[k] == if k in o1.keys[..j] then RoundValue(o1.vals[k]) else o1.vals[k]
    {
      var k := o1.keys[j];
      var v := Get(o1, k);
      assert k !in o1.keys[..j] && o1.keys[..j + 1] == o1.keys[..j] + [k] by {
        forall i | 0 <= i < j
          ensures o1.keys[..j][i] != k
        {
          assert o1.keys[i] != o1.keys[j];
        }
      }
      if !IsNumber(v) {
        continue;
      }
      o := Set(o, k, RoundValue(v));
    }
    assert o.vals == RoundRow(o1).vals;
  }

  // ---------------------------------------------------------------- what dataPrepare promises

  /** No field already looks like a derived score. */
  predicate NoDerived(data: Row) {
    forall k | k in data.keys :: !StartsWith(k, "pb-") && !StartsWith(k, "uq-")
  }

  /** The fields that follow the first four, in the record's order. */
  function RestKeys(data: Row): seq<string> {
    Keep(Keep(data.keys, Fixed3), ["average"])
  }

  /** The fields that get a companion score: numbers other than the first three. */
  function ScoredKeys(data: Row): seq<string> {
    NumericKeys(Others(data))
  }

  function UqKeys(data: Row): seq<string> {
    if Truthy(Get(data, "quantization")) then Prefixed("uq-", ScoredKeys(data)) else []
  }

  lemma LeadingPlain(k: string)
    requires k in Leading
    ensures !StartsWith(k, "pb-") && !StartsWith(k, "uq-")
  {
    if k == "model" {
      assert k[..3] == "mod";
    } else if k == "size" {
      assert k[..3] == "siz";
    } else if k == "quantization" {
      assert k[..3] == "qua";
    } else {
      assert k[..3] == "ave";
    }
  }

  lemma PrefixedFacts(prefix: string, ks: seq<string>, x: string)
    requires Distinct(ks)
    ensures Distinct(Prefixed(prefix, ks))
    ensures x in Prefixed(prefix, ks) <==> StartsWith(x, prefix) && x[|prefix|..] in ks
  {
    var p := Prefixed(prefix, ks);
    forall i, j | 0 <= i < j < |p| ensures p[i] != p[j] {
      if p[i] == p[j] {
        PrefixInjective(prefix, ks[i], ks[j]);
      }
    }
    if x in p {
      var i :| 0 <= i < |p| && p[i] == x;
      PrefixStarts(prefix, ks[i]);
      assert x[|prefix|..] == ks[i];
    }
    if StartsWith(x, prefix) && x[|prefix|..] in ks {
      var i :| 0 <= i < |ks| && ks[i] == x[|prefix|..];
      assert x == x[..|prefix|] + x[|prefix|..];
      assert p[i] == x;
    }
  }

  lemma PlainKey(data: Row, x: string)
    requires NoDerived(data) && x in Leading + RestKeys(data)
    ensures !StartsWith(x, "pb-") && !StartsWith(x, "uq-")
  {
    if x in Leading {
      LeadingPlain(x);
    }
  }

  /** The record after the first spread: the four leading fields, then the rest. */
  function FirstStage(data: Row, average: Value): Row {
    SetAll(Head(data, average), Entries(Delete(Others(data), "average")))
  }

  lemma HeadFresh(data: Row, average: Value)
    ensures var es := Entries(Delete(Others(data), "average"));
      forall i | 0 <= i < |es| :: es[i].0 !in Head(data, average).vals
  {
    var rest := Delete(Others(data), "average");
    var es := Entries(rest);
    assert rest.keys == RestKeys(data);
    forall i | 0 <= i < |es|
      ensures es[i].0 !in Head(data, average).vals
    {
      var x := rest.keys[i];
      assert es[i].0 == x && x in RestKeys(data);
      assert x !in Fixed3 && x !in ["average"];
      assert Leading == Fixed3 + ["average"];
    }
  }

  lemma FirstStageKeys(data: Row, average: Value)
    requires WellFormed(data)
    ensures WellFormed(FirstStage(data, average))
    ensures FirstStage(data, average).keys == Leading + RestKeys(data)
  {
    var rest := Delete(Others(data), "average");
    assert rest.keys == RestKeys(data);
    HeadFresh(data, average);
    SetAllKeys(Head(data, average), Entries(rest));
  }

  lemma FirstStageRest(data: Row, average: Value)
    requires WellFormed(data)
    ensures forall k | k in RestKeys(data) :: Get(FirstStage(data, average), k) == Get(data, k)
  {
    var rest := Delete(Others(data), "average");
    var es := Entries(rest);
    assert rest.keys == RestKeys(data);
    forall k | k in RestKeys(data)
      ensures Get(FirstStage(data, average), k) == Get(data, k)
    {
      var i :| 0 <= i < |rest.keys| && rest.keys[i] == k;
      SetAllAt(Head(data, average), es, i);
    }
  }

  lemma FirstStageLeading(data: Row, average: Value)
    requires WellFormed(data)
    ensures forall k | k in Fixed3 :: Get(FirstStage(data, average), k) == Get(data, k)
    ensures Get(FirstStage(data, average), "average") == average
  {
    var rest := Delete(Others(data), "average");
    var h := Head(data, average);
    var es := Entries(rest);
    assert rest.keys == RestKeys(data);
    HeadValues(data, average);
    forall k | k in Leading
      ensures Get(FirstStage(data, average), k) == Get(h, k)
    {
      SetAllOther(h, es, k);
    }
  }

  lemma HeadValues(data: Row, average: Value)
    ensures forall k | k in Fixed3 :: Get(Head(data, average), k) == Get(data, k)
    ensures Get(Head(data, average), "average") == average
  {
  }

  /** The record after the `pb-` entries are spread in. */
  function SecondStage(data: Row, average: Value): Row {
    SetAll(FirstStage(data, average), PbEntries(Others(data), Get(data, "size")))
  }

  /** The record after the `uq-` entries are spread in: `o1`. */
  function ThirdStage(data: Row, average: Value, uqs: seq<Entry>): Row {
    SetAll(SecondStage(data, average), uqs)
  }

  /** Every key of a prefixed list starts with the prefix. */
  lemma PrefixedStarts(prefix: string, ks: seq<string>)
    ensures forall x | x in Prefixed(prefix, ks) :: StartsWith(x, prefix)
  {
    forall x | x in Prefixed(prefix, ks)
      ensures StartsWith(x, prefix)
    {
      var i :| 0 <= i < |ks| && Prefixed(prefix, ks)[i] == x;
      PrefixStarts(prefix, ks[i]);
    }
  }

  /** The `uq-` entries, when there are any, are keyed by the `uq-` names of the scored fields. */
  lemma UqFirsts(data: Row, uqs: seq<Entry>)
    requires UqEntries(Others(data), Get(data, "quantization")) == Ok(uqs)
    ensures Firsts(uqs) == UqKeys(data)
    ensures forall x | x in UqKeys(data) :: StartsWith(x, "uq-") && !StartsWith(x, "pb-")
  {
    PrefixedStarts("uq-", ScoredKeys(data));
    forall x | x in UqKeys(data)
      ensures !StartsWith(x, "pb-")
    {
      PrefixesDiffer(x);
    }
  }

  lemma SecondStageLayout(data: Row, average: Value)
    requires WellFormed(data)
    ensures WellFormed(SecondStage(data, average))
    ensures var plain := Leading + RestKeys(data);
      SecondStage(data, average).keys == plain + Keep(Prefixed("pb-", ScoredKeys(data)), plain)
  {
    FirstStageKeys(data, average);
    PrefixedFacts("pb-", ScoredKeys(data), "");
    SetAllLayout(FirstStage(data, average), PbEntries(Others(data), Get(data, "size")));
  }

  lemma SecondStageScores(data: Row, average: Value)
    requires WellFormed(data)
    ensures forall k | k in ScoredKeys(data) ::
      Get(SecondStage(data, average), "pb-" + k) == PerBillion(Get(data, k), Get(data, "size"))
  {
    var ns := ScoredKeys(data);
    var pbs := PbEntries(Others(data), Get(data, "size"));
    PrefixedFacts("pb-", ns, "");
    forall k | k in ns
      ensures Get(SecondStage(data, average), "pb-" + k) == PerBillion(Get(data, k), Get(data, "size"))
    {
      var i :| 0 <= i < |ns| && ns[i] == k;
      SetAllAt(FirstStage(data, average), pbs, i);
    }
  }

  /** A key with no `pb-` entry keeps its value from the first stage. */
  lemma SecondStageOthers(data: Row, average: Value)
    ensures forall k | k !in Prefixed("pb-", ScoredKeys(data)) ::
      Get(SecondStage(data, average), k) == Get(FirstStage(data, average), k)
  {
    forall k | k !in Prefixed("pb-", ScoredKeys(data))
      ensures Get(SecondStage(data, average), k) == Get(FirstStage(data, average), k)
    {
      SetAllOther(FirstStage(data, average), PbEntries(Others(data), Get(data, "size")), k);
    }
  }

  /** Without a string to unquantize by, there are no `uq-` entries. */
  lemma UqEmpty(data: Row, uqs: seq<Entry>)
    requires UqEntries(Others(data), Get(data, "quantization")) == Ok(uqs)
    requires !(Truthy(Get(data, "quantization")) && Get(data, "quantization").Str?)
    ensures uqs == [] && UqKeys(data) == []
  {
  }

  lemma ThirdStageLayout(data: Row, average: Value, uqs: seq<Entry>)
    requires WellFormed(data)
    requires UqEntries(Others(data), Get(data, "quantization")) == Ok(uqs)
    ensures WellFormed(ThirdStage(data, average, uqs))
    ensures var plain := Leading + RestKeys(data);
      ThirdStage(data, average, uqs).keys
      == plain + Keep(Prefixed("pb-", ScoredKeys(data)), plain) + Keep(UqKeys(data), plain)
  {
    var plain := Leading + RestKeys(data);
    var pbs := Keep(Prefixed("pb-", ScoredKeys(data)), plain);
    SecondStageLayout(data, average);
    UqFirsts(data, uqs);
    PrefixedFacts("uq-", ScoredKeys(data), "");
    SetAllLayout(SecondStage(data, average), uqs);
    PrefixedStarts("pb-", ScoredKeys(data));
    KeepIrrelevant(UqKeys(data), plain, pbs);
  }

  lemma ThirdStageScores(data: Row, average: Value, uqs: seq<Entry>)
    requires WellFormed(data)
    requires UqEntries(Others(data), Get(data, "quantization")) == Ok(uqs)
    ensures var quant := Get(data, "quantization");
      forall k | k in ScoredKeys(data) && Truthy(quant) && quant.Str? ::
        Get(ThirdStage(data, average, uqs), "uq-" + k) == UqValue(Get(data, k), quant.s)
  {
    var ns := ScoredKeys(data);
    var quant := Get(data, "quantization");
    if quant.Str? && Truthy(quant) {
      PrefixedFacts("uq-", ns, "");
      forall k | k in ns
        ensures Get(ThirdStage(data, average, uqs), "uq-" + k) == UqValue(Get(data, k), quant.s)
      {
        var i :| 0 <= i < |ns| && ns[i] == k;
        SetAllAt(SecondStage(data, average), uqs, i);
      }
    }
  }

  /** A key with no `uq-` entry keeps its value from the second stage. */
  lemma ThirdStageOthers(data: Row, average: Value, uqs: seq<Entry>)
    requires UqEntries(Others(data), Get(data, "quantization")) == Ok(uqs)
    ensures forall k | k !in UqKeys(data) ::
      Get(ThirdStage(data, average, uqs), k) == Get(SecondStage(data, average), k)
  {
    UqFirsts(data, uqs);
    forall k | k !in UqKeys(data)
      ensures Get(ThirdStage(data, average, uqs), k) == Get(SecondStage(data, average), k)
    {
      SetAllOther(SecondStage(data, average), uqs, k);
    }
  }

  /** `dataPrepare` throws exactly when a truthy quantization is not a string and some field
      other than the first three is a number. */
  lemma PreparedFails(data: Row, headers: seq<string>)
    ensures var quant := Get(data, "quantization");
      Prepared(data, headers).Err? <==> Truthy(quant) && !quant.Str? && ScoredKeys(data) != []
  {
  }

  /** `dataPrepare`'s record has the fields `model, size, quantization, average` first, then
      the other fields in their order, then a `pb-` score for each number among them, then an
      `uq-` score for each when the quantization is truthy; a score whose name is already a
      field stays in that field's place. */
  lemma PreparedKeys(data: Row, headers: seq<string>)
    requires WellFormed(data)
    ensures Prepared(data, headers).Ok? ==>
      var o := Prepared(data, headers).value;
      var plain := Leading + RestKeys(data);
      WellFormed(o)
      && o.keys == plain + Keep(Prefixed("pb-", ScoredKeys(data)), plain) + Keep(UqKeys(data), plain)
  {
    match UqEntries(Others(data), Get(data, "quantization"))
    case Err(_) =>
    case Ok(uqs) =>
      var average := Average(Others(data), headers);
      var o := ThirdStage(data, average, uqs);
      assert Assembled(data, headers) == Ok(o);
      ThirdStageLayout(data, average, uqs);
      RoundRowSpec(o);
  }

  /** When no field already has a score's name, every score is a new field. */
  lemma PreparedKeysPlain(data: Row, headers: seq<string>)
    requires WellFormed(data) && NoDerived(data)
    ensures Prepared(data, headers).Ok? ==>
      Prepared(data, headers).value.keys
      == Leading + RestKeys(data) + Prefixed("pb-", ScoredKeys(data)) + UqKeys(data)
  {
    var plain := Leading + RestKeys(data);
    PreparedKeys(data, headers);
    PrefixedStarts("pb-", ScoredKeys(data));
    PrefixedStarts("uq-", ScoredKeys(data));
    forall k | k in plain
      ensures !StartsWith(k, "pb-") && !StartsWith(k, "uq-")
    {
      PlainKey(data, k);
    }
    KeepNone(Prefixed("pb-", ScoredKeys(data)), plain);
    KeepNone(UqKeys(data), plain);
  }

  /** The first three fields of the input come through with only their numbers rounded. */
  lemma PreparedLeading(data: Row, headers: seq<string>)
    requires WellFormed(data)
    ensures Prepared(data, headers).Ok? ==>
      forall k | k in Fixed3 :: Get(Prepared(data, headers).value, k) == RoundValue(Get(data, k))
  {
    match UqEntries(Others(data), Get(data, "quantization"))
    case Err(_) =>
    case Ok(uqs) =>
      var average := Average(Others(data), headers);
      var o := ThirdStage(data, average, uqs);
      assert Assembled(data, headers) == Ok(o);
      FirstStageLeading(data, average);
      LeadingUntouched(data, average, uqs);
      RoundRowSpec(o);
  }

  /** The four leading fields are never a score's name, so the scores leave them alone. */
  lemma LeadingUntouched(data: Row, average: Value, uqs: seq<Entry>)
    requires UqEntries(Others(data), Get(data, "quantization")) == Ok(uqs)
    ensures forall k | k in Leading ::
      Get(ThirdStage(data, average, uqs), k) == Get(FirstStage(data, average), k)
  {
    SecondStageOthers(data, average);
    ThirdStageOthers(data, average, uqs);
    PrefixedStarts("pb-", ScoredKeys(data));
    UqFirsts(data, uqs);
    forall k | k in Leading
      ensures !StartsWith(k, "pb-") && !StartsWith(k, "uq-")
    {
      LeadingPlain(k);
    }
  }

  /** `average` holds `average_score`, rounded. */
  lemma PreparedAverage(data: Row, headers: seq<string>)
    requires WellFormed(data)
    ensures Prepared(data, headers).Ok? ==>
      Get(Prepared(data, headers).value, "average") == RoundValue(Average(Others(data), headers))
  {
    match UqEntries(Others(data), Get(data, "quantization"))
    case Err(_) =>
    case Ok(uqs) =>
      var average := Average(Others(data), headers);
      var o := ThirdStage(data, average, uqs);
      assert Assembled(data, headers) == Ok(o);
      FirstStageLeading(data, average);
      LeadingUntouched(data, average, uqs);
      RoundRowSpec(o);
  }

  /** The other fields of the input come through with only their numbers rounded, except a
      field that has a score's name, which the score overwrites (`PreparedPb`, `PreparedUq`);
      when no field looks like a score, that is every other field. */
  lemma PreparedRest(data: Row, headers: seq<string>)
    requires WellFormed(data)
    ensures Prepared(data, headers).Ok? ==>
      var o := Prepared(data, headers).value;
      forall k | k in RestKeys(data) && k !in Prefixed("pb-", ScoredKeys(data)) && k !in UqKeys(data) ::
        Get(o, k) == RoundValue(Get(data, k))
    ensures Prepared(data, headers).Ok? && NoDerived(data) ==>
      var o := Prepared(data, headers).value;
      forall k | k in RestKeys(data) :: Get(o, k) == RoundValue(Get(data, k))
  {
    match UqEntries(Others(data), Get(data, "quantization"))
    case Err(_) =>
    case Ok(uqs) =>
      var average := Average(Others(data), headers);
      var o := ThirdStage(data, average, uqs);
      assert Assembled(data, headers) == Ok(o);
      FirstStageRest(data, average);
      SecondStageOthers(data, average);
      ThirdStageOthers(data, average, uqs);
      RoundRowSpec(o);
      if NoDerived(data) {
        PrefixedStarts("pb-", ScoredKeys(data));
        UqFirsts(data, uqs);
        assert forall k | k in RestKeys(data) :: k in data.keys;
      }
  }

  /** Each scored field `k` gets `pb-k`, its value per billion parameters (0 for a size at
      most 0), rounded. */
  lemma PreparedPb(data: Row, headers: seq<string>)
    requires WellFormed(data)
    ensures Prepared(data, headers).Ok? ==>
      forall k | k in ScoredKeys(data) ::
        Get(Prepared(data, headers).value, "pb-" + k) == RoundValue(PerBillion(Get(data, k), Get(data, "size")))
  {
    match UqEntries(Others(data), Get(data, "quantization"))
    case Err(_) =>
    case Ok(uqs) =>
      var average := Average(Others(data), headers);
      var o := ThirdStage(data, average, uqs);
      assert Assembled(data, headers) == Ok(o);
      SecondStageScores(data, average);
      ThirdStageOthers(data, average, uqs);
      UqFirsts(data, uqs);
      forall k | k in ScoredKeys(data)
        ensures "pb-" + k !in UqKeys(data)
      {
        PrefixStarts("pb-", k);
      }
      RoundRowSpec(o);
  }

  /** For a truthy quantization string, each scored field `k` gets `uq-k`, its unquantized
      value, rounded. */
  lemma PreparedUq(data: Row, headers: seq<string>)
    requires WellFormed(data)
    ensures var quant := Get(data, "quantization");
      Prepared(data, headers).Ok? && Truthy(quant) && quant.Str? ==>
      forall k | k in ScoredKeys(data) ::
        Get(Prepared(data, headers).value, "uq-" + k) == RoundValue(UqValue(Get(data, k), quant.s))
  {
    match UqEntries(Others(data), Get(data, "quantization"))
    case Err(_) =>
    case Ok(uqs) =>
      var average := Average(Others(data), headers);
      var o := ThirdStage(data, average, uqs);
      assert Assembled(data, headers) == Ok(o);
      ThirdStageScores(data, average, uqs);
      RoundRowSpec(o);
  }

  /** A truthy `average` passes through; otherwise the other fields are averaged over the
      data headers, and with no data headers the division gives no finite number. */
  lemma AverageSpec(others: Row, headers: seq<string>)
    ensures Truthy(Get(others, "average")) ==> Average(others, headers) == Get(others, "average")
    ensures !Truthy(Get(others, "average")) && |headers| <= 3 ==> Average(others, headers) == NonFinite
    ensures !Truthy(Get(others, "average")) && |headers| > 3 && Sum(RowValues(others)).Some? ==>
      Average(others, headers) == Num(Sum(RowValues(others)).value / (|headers| - 3) as real)
  {
  }

  /** The sum adds the numbers and skips the nulls. */
  lemma {:induction false} SumAppend(a: seq<Value>, b: seq<Value>)
    requires Sum(a).Some? && Sum(b).Some?
    ensures Sum(a + b) == Some(Sum(a).value + Sum(b).value)
    decreases |b|
  {
    if b == [] {
      assert a + b == a;
    } else {
      var b' := b[..|b| - 1];
      assert (a + b)[..|a + b| - 1] == a + b';
      SumAppend(a, b');
    }
  }

  // ---------------------------------------------------------------- header_key_fix

  /** Every record filled up with the keys first seen in any record, missing ones `null`. */
  function KeyFixed(rows: seq<Row>): (fixed: seq<Row>)
    ensures |fixed| == |rows|
  {
    var ks := Dedup(Flatten(rows));
    seq(|rows|, i requires 0 <= i < |rows| => FillNull(rows[i], ks))
  }

  /** `header_key_fix(items)`: fills every item in place and returns the same array. */
  method HeaderKeyFix(items: array<Row>) returns (fixed: array<Row>)
    modifies items
    ensures fixed == items
    ensures items[..] == KeyFixed(old(items[..]))
  {
    ghost var before := items[..];
    var headerKeys := Dedup(Flatten(items[..]));
    for i := 0 to items.Length
      invariant forall j | 0 <= j < i :: items[j] == FillNull(before[j], headerKeys)
      invariant forall j | i <= j < items.Length :: items[j] == before[j]
    {
      for m := 0 to |headerKeys|
        invariant items[i] == FillNull(before[i], headerKeys[..m])
        invariant forall j | 0 <= j < items.Length && j != i ::
          items[j] == if j < i then FillNull(before[j], headerKeys) else before[j]
      {
        var k := headerKeys[m];
        assert headerKeys[..m + 1][..m] == headerKeys[..m];
        if k in items[i].vals {
          continue;
        }
        items[i] := Set(items[i], k, Null);
      }
      assert headerKeys[..|headerKeys|] == headerKeys;
    }
    return items;
  }

  /** Filling appends exactly the listed keys a record lacks, in list order. */
  lemma {:induction false} FillNullKeys(r: Row, cols: seq<string>)
    requires WellFormed(r) && Distinct(cols)
    ensures FillNull(r, cols).keys == r.keys + Keep(cols, r.keys)
  {
    if cols != [] {
      var c' := cols[..|cols| - 1];
      var k := cols[|cols| - 1];
      FillNullKeys(r, c');
      FillNullSpec(r, c');
      assert k !in c';
    }
  }

  /** After `header_key_fix` every record has every key seen in any record: its own keys
      first and in place, then the keys it lacked in first-seen order. Values it had are
      kept, the added ones are `null`. */
  lemma KeyFixedSpec(rows: seq<Row>)
    requires forall i | 0 <= i < |rows| :: WellFormed(rows[i])
    ensures forall i | 0 <= i < |rows| ::
      var r, f := rows[i], KeyFixed(rows)[i];
      WellFormed(f)
      && f.keys == r.keys + Keep(FirstSeen(rows), r.keys)
      && (forall k :: k in f.vals <==> exists j :: 0 <= j < |rows| && k in rows[j].keys)
      && (forall k | k in r.vals :: Get(f, k) == r.vals[k])
      && (forall k | k in f.vals && k !in r.vals :: f.vals[k] == Null)
  {
    var ks := FirstSeen(rows);
    forall i | 0 <= i < |rows|
      ensures var r, f := rows[i], KeyFixed(rows)[i];
        WellFormed(f)
        && f.keys == r.keys + Keep(ks, r.keys)
        && (forall k :: k in f.vals <==> exists j :: 0 <= j < |rows| && k in rows[j].keys)
        && (forall k | k in r.vals :: Get(f, k) == r.vals[k])
        && (forall k | k in f.vals && k !in r.vals :: f.vals[k] == Null)
    {
      FillNullSpec(rows[i], ks);
      FillNullKeys(rows[i], ks);
      forall k | k in rows[i].keys
        ensures exists j :: 0 <= j < |rows| && k in rows[j].keys
      {
      }
    }
  }
}
