/** The per-column behaviour of the table view: the size-range filter over the rows, the
    header label, and the `sortingFn` / `filterFn` of every column. */
module Columns {
  import opened Text
  import opened Values
  import opened Search

  // ---------------------------------------------------------------- size range

  /** `row.size >= lo && row.size <= hi`, with JavaScript's conversion of `size` to a number
      (a missing or non-numeric size is NaN and fails both comparisons). */
  predicate InSizeRange(r: Row, lo: real, hi: real) {
    match ToNumber(Get(r, "size"))
    case Some(x) => lo <= x <= hi
    case None => false
  }

  /** `_data.filter(row => row.size >= sizeRange[0] && row.size <= sizeRange[1])` */
  function SizeFilter(rows: seq<Row>, lo: real, hi: real): (kept: seq<Row>)
    ensures |kept| <= |rows|
  {
    if rows == [] then []
    else
      var kept := SizeFilter(rows[..|rows| - 1], lo, hi);
      var r := rows[|rows| - 1];
      if InSizeRange(r, lo, hi) then kept + [r] else kept
  }

  /** A row is kept exactly when it is one of the rows and its size lies in the range. */
  lemma {:induction false} SizeFilterMembers(rows: seq<Row>, lo: real, hi: real)
    ensures forall r :: r in SizeFilter(rows, lo, hi) <==> r in rows && InSizeRange(r, lo, hi)
  {
    if rows != [] {
      SizeFilterMembers(rows[..|rows| - 1], lo, hi);
      assert rows == rows[..|rows| - 1] + [rows[|rows| - 1]];
    }
  }

  /** Filtering a concatenation filters each part in turn: the kept rows stay in their order. */
  lemma {:induction false} SizeFilterAppend(a: seq<Row>, b: seq<Row>, lo: real, hi: real)
    ensures SizeFilter(a + b, lo, hi) == SizeFilter(a, lo, hi) + SizeFilter(b, lo, hi)
    decreases |b|
  {
    if b != [] {
      var b' := b[..|b| - 1];
      assert (a + b)[..|a + b| - 1] == a + b';
      SizeFilterAppend(a, b', lo, hi);
    } else {
      assert a + b == a;
    }
  }

  /** Filtering twice with the same range keeps the same rows. */
  lemma {:induction false} SizeFilterIdempotent(rows: seq<Row>, lo: real, hi: real)
    ensures SizeFilter(SizeFilter(rows, lo, hi), lo, hi) == SizeFilter(rows, lo, hi)
  {
    if rows != [] {
      var rows' := rows[..|rows| - 1];
      var r := rows[|rows| - 1];
      SizeFilterIdempotent(rows', lo, hi);
      var kept := SizeFilter(rows', lo, hi);
      if InSizeRange(r, lo, hi) {
        assert (kept + [r])[..|kept + [r]| - 1] == kept;
      }
    }
  }

  // ---------------------------------------------------------------- header label

  /** `key.split(sep)` */
  function Split(s: string, sep: char): (ws: seq<string>)
    ensures |ws| >= 1
  {
    if s == [] then [[]]
    else
      var ws := Split(s[..|s| - 1], sep);
      var c := s[|s| - 1];
      if c == sep then ws + [[]] else ws[..|ws| - 1] + [ws[|ws| - 1] + [c]]
  }

  /** `words.join(sep)` */
  function Join(ws: seq<string>, sep: char): string
    requires |ws| >= 1
  {
    if |ws| == 1 then ws[0] else Join(ws[..|ws| - 1], sep) + [sep] + ws[|ws| - 1]
  }

  /** `word.charAt(0).toUpperCase() + word.slice(1)` */
  function Capitalize(w: string): string {
    if w == [] then [] else [UpperChar(w[0])] + w[1..]
  }

  function CapitalizeAll(ws: seq<string>): (cs: seq<string>)
    ensures |cs| == |ws|
  {
    seq(|ws|, i requires 0 <= i < |ws| => Capitalize(ws[i]))
  }

  /** The column header: the key split on `_`, each word capitalised, joined by spaces. */
  function HeaderLabel(key: string): string {
    Join(CapitalizeAll(Split(key, '_')), ' ')
  }

  /** What the header shows at position `i` of the key. */
  function LabelChar(key: string, i: nat): char
    requires i < |key|
  {
    if key[i] == '_' then ' '
    else if i == 0 || key[i - 1] == '_' then UpperChar(key[i])
    else key[i]
  }

  /** The last word of a split is empty exactly after a separator (or for the empty text). */
  lemma SplitLastEmpty(s: string, sep: char)
    ensures var ws := Split(s, sep); ws[|ws| - 1] == [] <==> s == [] || s[|s| - 1] == sep
  {
  }

  lemma CapitalizeSnoc(w: string, c: char)
    ensures Capitalize(w + [c]) == Capitalize(w) + [if w == [] then UpperChar(c) else c]
  {
    if w != [] {
      assert (w + [c])[1..] == w[1..] + [c];
    }
  }

  lemma JoinEmptyLast(ws: seq<string>, sep: char)
    requires |ws| >= 1
    ensures Join(ws + [[]], sep) == Join(ws, sep) + [sep]
  {
    assert (ws + [[]])[..|ws|] == ws;
  }

  lemma JoinExtendLast(ws: seq<string>, x: string, sep: char)
    requires |ws| >= 1
    ensures Join(ws[..|ws| - 1] + [ws[|ws| - 1] + x], sep) == Join(ws, sep) + x
  {
    var m := |ws|;
    var v := ws[..m - 1] + [ws[m - 1] + x];
    if m > 1 {
      assert v[..m - 1] == ws[..m - 1];
    }
  }

  lemma {:induction false} HeaderLabelSnoc(s: string, c: char)
    ensures HeaderLabel(s + [c]) == HeaderLabel(s) + [LabelChar(s + [c], |s|)]
  {
    var t := s + [c];
    assert t[..|t| - 1] == s;
    var ws := Split(s, '_');
    var m := |ws|;
    var w := ws[m - 1];
    SplitLastEmpty(s, '_');
    var cs := CapitalizeAll(ws);
    if c == '_' {
      assert Split(t, '_') == ws + [[]];
      assert CapitalizeAll(ws + [[]]) == cs + [[]];
      JoinEmptyLast(cs, ' ');
    } else {
      var ch := LabelChar(t, |s|);
      assert Split(t, '_') == ws[..m - 1] + [w + [c]];
      CapitalizeSnoc(w, c);
      assert Capitalize(w + [c]) == cs[m - 1] + [ch];
      assert CapitalizeAll(ws[..m - 1] + [w + [c]]) == cs[..m - 1] + [cs[m - 1] + [ch]];
      JoinExtendLast(cs, [ch], ' ');
    }
  }

  /** The header has one character per key character: `_` becomes a space, the first letter
      of each word is upper-cased, everything else is kept. */
  lemma {:induction false} HeaderLabelSpec(key: string)
    ensures |HeaderLabel(key)| == |key|
    ensures forall i | 0 <= i < |key| :: HeaderLabel(key)[i] == LabelChar(key, i)
  {
    if key != [] {
      var s := key[..|key| - 1];
      HeaderLabelSpec(s);
      assert key == s + [key[|key| - 1]];
      HeaderLabelSnoc(s, key[|key| - 1]);
      forall i | 0 <= i < |s|
        ensures LabelChar(key, i) == LabelChar(s, i)
      {
        assert key[i] == s[i];
        if i > 0 {
          assert key[i - 1] == s[i - 1];
        }
      }
    }
  }

  // ---------------------------------------------------------------- sortingFn

  predicate IsNone(v: Value) {
    v == Null || v == Undefined
  }

  /** What `<` sees: `-Infinity` in place of a missing value, a number, a string, or NaN. */
  datatype SortKey = MinusInfinity | Finite(x: real) | Text(s: string) | NaN

  function Key(v: Value): SortKey {
    if IsNone(v) then MinusInfinity
    else match v
      case Num(n) => Finite(n)
      case Str(s) => Text(s)
      case _ => NaN
  }

  /** Strings compare by their characters, a proper prefix first. */
  predicate LexLess(s: string, t: string) {
    if s == [] then t != []
    else if t == [] then false
    else if s[0] != t[0] then s[0] < t[0]
    else LexLess(s[1..], t[1..])
  }

  /** The numeric view of a key, with `None` for NaN and `Some(None)` for `-Infinity`:
      a string meeting a number is converted with `Number()`. */
  function Numeric(k: SortKey): Option<Option<real>> {
    match k
    case MinusInfinity => Some(None)
    case Finite(x) => Some(Some(x))
    case Text(s) => (match ParseNumber(s) case Some(x) => Some(Some(x)) case None => None)
    case NaN => None
  }

  /** `a < b` in JavaScript on the keys. */
  predicate KeyLess(a: SortKey, b: SortKey) {
    if a.Text? && b.Text? then LexLess(a.s, b.s)
    else match (Numeric(a), Numeric(b))
      case (Some(None), Some(Some(_))) => true
      case (Some(Some(x)), Some(Some(y))) => x < y
      case _ => false
  }

  /** `sortingFn`: -1, 1 or 0 for `a < b`, `a > b` or neither. */
  function Compare(a: Value, b: Value): int {
    if KeyLess(Key(a), Key(b)) then -1
    else if KeyLess(Key(b), Key(a)) then 1
    else 0
  }

  lemma {:induction false} LexLessAsymmetric(s: string, t: string)
    ensures !(LexLess(s, t) && LexLess(t, s))
  {
    if s != [] && t != [] && s[0] == t[0] {
      LexLessAsymmetric(s[1..], t[1..]);
    }
  }

  lemma {:induction false} LexLessIrreflexive(s: string)
    ensures !LexLess(s, s)
  {
    if s != [] {
      LexLessIrreflexive(s[1..]);
    }
  }

  /** The comparison is a three-way answer, antisymmetric, and a value ties with itself. */
  lemma CompareAntisymmetric(a: Value, b: Value)
    ensures Compare(a, b) in {-1, 0, 1}
    ensures Compare(a, b) == -Compare(b, a)
    ensures Compare(a, a) == 0
  {
    if Key(a).Text? && Key(b).Text? {
      LexLessAsymmetric(Key(a).s, Key(b).s);
    }
    if Key(a).Text? {
      LexLessIrreflexive(Key(a).s);
    }
  }

  /** Missing values come before every number and tie with each other; numbers compare by
      value. */
  lemma CompareNone(a: Value, b: Value, x: real, y: real)
    requires IsNone(a) && IsNone(b)
    ensures Compare(a, Num(x)) == -1 && Compare(Num(x), a) == 1
    ensures Compare(a, b) == 0
    ensures Compare(Num(x), Num(y)) == (if x < y then -1 else if y < x then 1 else 0)
  {
  }

  // ---------------------------------------------------------------- filterFn

  /** `filterFn` for the text typed into a column's filter box. */
  predicate FilterFn(val: Value, filter: string) {
    match val
    case Str(s) => FuzzyMatch(filter, s)
    case Num(n) => (match ParseNumber(filter) case Some(x) => n.Floor == x.Floor case None => false)
    case _ => false
  }

  /** A whole number typed into the filter keeps exactly the numbers with that integer part;
      text cells are fuzzy-matched and every other cell is dropped. */
  lemma FilterFnSpec(val: Value, n: nat, filter: string)
    ensures val.Num? ==> (FilterFn(val, NatToString(n)) <==> n as real <= val.n < n as real + 1.0)
    ensures val.Str? ==> FilterFn(val, filter) == FuzzyMatch(filter, val.s)
    ensures !val.Num? && !val.Str? ==> !FilterFn(val, filter)
  {
    ParseNumberNatToString(n);
  }
}
