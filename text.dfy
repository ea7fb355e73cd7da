/** String helpers the core relies on: ASCII case folding (the stand-in for
    Python's str.lower()/str.upper()), Python's `p in s` substring test, and
    the decimal rendering of a count used in f-strings. */
module Text {

  function LowerChar(c: char): char {
    if 'A' <= c <= 'Z' then (c as int + 32) as char else c
  }

  function UpperChar(c: char): char {
    if 'a' <= c <= 'z' then (c as int - 32) as char else c
  }

  /** ASCII lower-casing, character by character. */
  function Lower(s: string): (r: string)
    ensures |r| == |s|
    ensures forall i :: 0 <= i < |s| ==> r[i] == LowerChar(s[i])
  {
    seq(|s|, i requires 0 <= i < |s| => LowerChar(s[i]))
  }

  /** ASCII upper-casing, character by character. */
  function Upper(s: string): (r: string)
    ensures |r| == |s|
    ensures forall i :: 0 <= i < |s| ==> r[i] == UpperChar(s[i])
  {
    seq(|s|, i requires 0 <= i < |s| => UpperChar(s[i]))
  }

  lemma LowerIdempotent(s: string)
    ensures Lower(Lower(s)) == Lower(s)
  {
    assert forall i :: 0 <= i < |s| ==> LowerChar(LowerChar(s[i])) == LowerChar(s[i]);
  }

  /** The window of s starting at i spells p. */
  ghost predicate MatchesAt(p: string, s: string, i: int) {
    0 <= i <= |s| - |p| && s[i..i + |p|] == p
  }

  /** The reference meaning of "p occurs in s": some window of s equals p. */
  ghost predicate OccursIn(p: string, s: string) {
    exists i :: MatchesAt(p, s, i)
  }

  /** Python's `p in s` for strings, computed by scanning s. The empty string
      occurs in every string. */
  function Contains(s: string, p: string): (b: bool)
    decreases |s|
  {
    if p <= s then true
    else if s == [] then false
    else Contains(s[1..], p)
  }

  lemma {:induction false} ContainsMeansOccurs(s: string, p: string)
    ensures Contains(s, p) <==> OccursIn(p, s)
    decreases |s|
  {
    if p <= s {
      assert MatchesAt(p, s, 0);
    } else if s == [] {
      assert forall i :: !MatchesAt(p, s, i);
    } else {
      ContainsMeansOccurs(s[1..], p);
      if OccursIn(p, s[1..]) {
        var i :| MatchesAt(p, s[1..], i);
        assert s[i + 1..i + 1 + |p|] == s[1..][i..i + |p|];
        assert MatchesAt(p, s, i + 1);
      }
      if OccursIn(p, s) {
        assert !MatchesAt(p, s, 0);
        var i :| MatchesAt(p, s, i);
        assert s[1..][i - 1..i - 1 + |p|] == s[i..i + |p|];
        assert MatchesAt(p, s[1..], i - 1);
      }
    }
  }

  /** A string occurs inside anything that contains a string it occurs in. */
  lemma ContainsTransitive(s: string, q: string, p: string)
    requires Contains(s, q) && Contains(q, p)
    ensures Contains(s, p)
  {
    ContainsMeansOccurs(s, q);
    ContainsMeansOccurs(q, p);
    var i :| MatchesAt(q, s, i);
    var j :| MatchesAt(p, q, j);
    forall k | 0 <= k < |p|
      ensures s[i + j + k] == p[k]
    {
      assert s[i + j + k] == s[i..i + |q|][j + k] == q[j..j + |p|][k];
    }
    assert s[i + j..i + j + |p|] == p;
    assert MatchesAt(p, s, i + j);
    ContainsMeansOccurs(s, p);
  }

  /** A string occurs in any string that embeds it between a prefix and a suffix. */
  lemma ContainsInfix(a: string, p: string, b: string)
    ensures Contains(a + p + b, p)
  {
    var s := a + p + b;
    assert s[|a|..|a| + |p|] == p;
    assert MatchesAt(p, s, |a|);
    ContainsMeansOccurs(s, p);
  }

  /** Identifiers built by prefixing the same tag are equal only when the
      identifiers they were built from are. */
  lemma PrefixCancel(tag: string, a: string, b: string)
    requires tag + a == tag + b
    ensures a == b
  {
    assert a == (tag + a)[|tag|..];
    assert b == (tag + b)[|tag|..];
  }

  function DigitChar(d: nat): char
    requires d < 10
  {
    "0123456789"[d]
  }

  /** Python's str(n) for a non-negative int: decimal digits, no leading zeros. */
  function DecimalString(n: nat): (r: string)
    ensures |r| > 0
    ensures forall i :: 0 <= i < |r| ==> '0' <= r[i] <= '9'
    decreases n
  {
    if n < 10 then [DigitChar(n)] else DecimalString(n / 10) + [DigitChar(n % 10)]
  }

  /** The number a string of decimal digits denotes. */
  function DecimalValue(s: string): int
    decreases |s|
  {
    if s == [] then 0 else 10 * DecimalValue(s[..|s| - 1]) + (s[|s| - 1] as int - '0' as int)
  }

  lemma {:induction false} DecimalRoundTrip(n: nat)
    ensures DecimalValue(DecimalString(n)) == n
    ensures DecimalString(n)[0] != '0' || n == 0
    decreases n
  {
    var r := DecimalString(n);
    if n < 10 {
      assert r[..|r| - 1] == [];
    } else {
      DecimalRoundTrip(n / 10);
      assert r[..|r| - 1] == DecimalString(n / 10);
    }
  }

  /** Distinct counts render as distinct strings. */
  lemma DecimalInjective(m: nat, n: nat)
    requires DecimalString(m) == DecimalString(n)
    ensures m == n
  {
    DecimalRoundTrip(m);
    DecimalRoundTrip(n);
  }
}
