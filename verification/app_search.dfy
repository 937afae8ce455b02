/** The free-text column filter of the table view: `escapeRegExp` and `fuzzyMatch`. */
module Search {
  import opened Text

  // ---------------------------------------------------------------- escapeRegExp

  /** The characters a regular expression gives a meaning of their own. */
  predicate Special(c: char) {
    c in ".*+?^${}()|[]\\"
  }

  /** `escapeRegExp`: a backslash goes in front of every special character. */
  function EscapeRegExp(s: string): (r: string)
    ensures |r| >= |s|
    ensures (forall i | 0 <= i < |s| :: !Special(s[i])) ==> r == s
  {
    if s == [] then []
    else (if Special(s[0]) then ['\\', s[0]] else [s[0]]) + EscapeRegExp(s[1..])
  }

  /** Reading an escaped pattern literally: a backslash stands for the character after it. */
  function Unescape(r: string): (s: string)
    ensures |s| <= |r|
  {
    if r == [] then []
    else if r[0] == '\\' && |r| >= 2 then [r[1]] + Unescape(r[2..])
    else [r[0]] + Unescape(r[1..])
  }

  /** An escaped pattern denotes the text it came from. */
  lemma {:induction false} EscapeRoundTrip(s: string)
    ensures Unescape(EscapeRegExp(s)) == s
  {
    if s != [] {
      EscapeRoundTrip(s[1..]);
      var rest := EscapeRegExp(s[1..]);
      if Special(s[0]) {
        var r := ['\\', s[0]] + rest;
        assert r[2..] == rest;
        assert Unescape(r) == [s[0]] + Unescape(rest);
      } else {
        var r := [s[0]] + rest;
        assert r[1..] == rest;
        assert Unescape(r) == [s[0]] + Unescape(rest);
      }
    }
  }

  /** No unescaped special character is left: every special character of the escaped text
      sits right after a backslash that belongs to it. */
  predicate Literal(r: string) {
    r == [] ||
    (if r[0] == '\\' then |r| >= 2 && Special(r[1]) && Literal(r[2..])
     else !Special(r[0]) && Literal(r[1..]))
  }

  lemma {:induction false} EscapeIsLiteral(s: string)
    ensures Literal(EscapeRegExp(s))
  {
    if s != [] {
      EscapeIsLiteral(s[1..]);
      var rest := EscapeRegExp(s[1..]);
      if Special(s[0]) {
        assert (['\\', s[0]] + rest)[2..] == rest;
      } else {
        assert ([s[0]] + rest)[1..] == rest;
      }
    }
  }

  // ---------------------------------------------------------------- fuzzyMatch

  /** `pattern.trim().replace(/\s/gi, "")`: the pattern's letters without any white space. */
  function Letters(pattern: string): (p: string)
    ensures forall i | 0 <= i < |p| :: !IsWhitespace(p[i])
  {
    Squeeze(Trim(pattern))
  }

  function Squeeze(s: string): (p: string)
    ensures forall i | 0 <= i < |p| :: !IsWhitespace(p[i])
  {
    if s == [] then []
    else if IsWhitespace(s[0]) then Squeeze(s[1..])
    else [s[0]] + Squeeze(s[1..])
  }

  predicate NoLineBreak(s: string) {
    forall i | 0 <= i < |s| :: !IsLineTerminator(s[i])
  }

  /** The regular expression `c1.*c2.* … cn.*` matches in `s` with `c1` at some position
      `j >= i`, when `i` is the start (`first`) or the text between the previous letter and
      `c1` must be free of line terminators, which `.` does not match (not `first`). */
  predicate Follows(p: string, s: string, i: nat, first: bool)
    requires i <= |s|
    decreases |p|
  {
    p == [] ||
    exists j | i <= j < |s| ::
      s[j] == p[0] && (first || NoLineBreak(s[i..j])) && Follows(p[1..], s, j + 1, false)
  }

  /** `new RegExp(".*" + letters.map(l => escapeRegExp(l) + ".*").join("")).test(str)`:
      each letter is matched literally (`EscapeRoundTrip`) and the leading `.*` lets the
      first letter sit anywhere. */
  predicate FuzzyMatch(pattern: string, str: string) {
    Follows(Letters(pattern), str, 0, true)
  }

  /** `p` occurs in `t` in order, possibly with gaps (greedy reference definition). */
  predicate Subsequence(p: string, t: string) {
    p == [] || (t != [] && (if t[0] == p[0] then Subsequence(p[1..], t[1..]) else Subsequence(p, t[1..])))
  }

  lemma {:induction false} SubsequenceTail(p: string, t: string)
    requires p != [] && Subsequence(p, t)
    ensures Subsequence(p[1..], t)
    decreases |t|, 0
  {
    if t[0] == p[0] {
      if p[1..] != [] {
        SubsequenceCons(p[1..], t[0], t[1..]);
        assert [t[0]] + t[1..] == t;
      }
    } else {
      SubsequenceTail(p, t[1..]);
      if p[1..] != [] {
        SubsequenceCons(p[1..], t[0], t[1..]);
        assert [t[0]] + t[1..] == t;
      }
    }
  }

  lemma {:induction false} SubsequenceCons(p: string, c: char, t: string)
    requires Subsequence(p, t)
    ensures Subsequence(p, [c] + t)
    decreases |t|, 1
  {
    var u := [c] + t;
    assert u[1..] == t;
    if p != [] && c == p[0] {
      SubsequenceTail(p, t);
    }
  }

  lemma {:induction false} SubsequenceSuffix(p: string, t: string, k: nat)
    requires k <= |t| && Subsequence(p, t[k..])
    ensures Subsequence(p, t)
    decreases k
  {
    if k > 0 {
      assert t[k - 1..] == [t[k - 1]] + t[k..];
      SubsequenceCons(p, t[k - 1], t[k..]);
      SubsequenceSuffix(p, t, k - 1);
    }
  }

  lemma {:induction false} FollowsIsSubsequence(p: string, s: string, i: nat, first: bool)
    requires i <= |s| && Follows(p, s, i, first)
    ensures Subsequence(p, s[i..])
    decreases |p|
  {
    if p != [] {
      var j :| i <= j < |s| && s[j] == p[0] && (first || NoLineBreak(s[i..j])) && Follows(p[1..], s, j + 1, false);
      FollowsIsSubsequence(p[1..], s, j + 1, false);
      SubsequenceAt(p, s, j);
      var t := s[i..];
      assert t[j - i..] == s[j..];
      SubsequenceSuffix(p, t, j - i);
    }
  }

  lemma SubsequenceAt(p: string, s: string, j: nat)
    requires p != [] && j < |s| && s[j] == p[0] && Subsequence(p[1..], s[j + 1..])
    ensures Subsequence(p, s[j..])
  {
    var u := s[j..];
    assert u[0] == p[0] && u[1..] == s[j + 1..];
  }

  lemma {:induction false} SubsequenceFollows(p: string, s: string, i: nat, first: bool)
    requires i <= |s| && NoLineBreak(s) && Subsequence(p, s[i..])
    ensures Follows(p, s, i, first)
    decreases |p|, |s| - i
  {
    if p != [] {
      assert s[i..][1..] == s[i + 1..];
      if s[i] == p[0] {
        SubsequenceFollows(p[1..], s, i + 1, false);
        assert s[i..i] == [];
      } else {
        SubsequenceFollows(p, s, i + 1, false);
        var j :| i + 1 <= j < |s| && s[j] == p[0] && NoLineBreak(s[i + 1..j]) && Follows(p[1..], s, j + 1, false);
        assert NoLineBreak(s[i..j]);
      }
    }
  }

  /** On a one-line text, the fuzzy filter keeps exactly the texts that hold the pattern's
      letters in order; white space in the pattern is ignored. */
  lemma FuzzyMatchSubsequence(pattern: string, str: string)
    requires NoLineBreak(str)
    ensures FuzzyMatch(pattern, str) <==> Subsequence(Letters(pattern), str)
  {
    assert str[0..] == str;
    if FuzzyMatch(pattern, str) {
      FollowsIsSubsequence(Letters(pattern), str, 0, true);
    }
    if Subsequence(Letters(pattern), str) {
      SubsequenceFollows(Letters(pattern), str, 0, true);
    }
  }

  /** A pattern of white space only (or empty) lets every text through. */
  lemma FuzzyMatchBlank(pattern: string, str: string)
    requires forall i | 0 <= i < |pattern| :: IsWhitespace(pattern[i])
    ensures FuzzyMatch(pattern, str)
  {
    BlankTrim(pattern);
  }

  lemma {:induction false} BlankTrim(s: string)
    requires forall i | 0 <= i < |s| :: IsWhitespace(s[i])
    ensures TrimStart(s) == []
  {
    if s != [] {
      BlankTrim(s[1..]);
    }
  }

  /** Letters may not be split by a line break: `.` does not match one, so "ab" does not
      match across "a\nb" although the letters occur there in order. */
  lemma FuzzyMatchLineBreak()
    ensures Subsequence("ab", "a\nb")
    ensures !FuzzyMatch("ab", "a\nb")
  {
    var s := "a\nb";
    assert Letters("ab") == "ab";
    assert s[1..2][0] == '\n';
    assert !Follows("b", s, 1, false);
    assert !Follows("ab", s, 0, true);
  }
}
