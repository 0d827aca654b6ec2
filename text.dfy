/**
 * String helpers the engine relies on: decimal rendering of status codes and
 * counts (string interpolation in the messages), splitting a dotted element
 * path into its segments, and removing every occurrence of a type prefix
 * (Ruby's `gsub` with a literal pattern).
 */
module Text {

  // ---------------------------------------------------------------------------
  // Decimal rendering
  // ---------------------------------------------------------------------------

  function DigitChar(d: nat): (c: char)
    requires d < 10
    ensures '0' <= c <= '9'
  {
    "0123456789"[d]
  }

  function DigitValue(c: char): nat
  {
    if '0' <= c <= '9' then (c - '0') as nat else 0
  }

  /** Decimal digits of `n`, most significant first, no leading zeros. */
  function NatToString(n: nat): (s: string)
    ensures |s| >= 1
    ensures forall i :: 0 <= i < |s| ==> '0' <= s[i] <= '9'
    ensures |s| > 1 ==> s[0] != '0'
    decreases n
  {
    if n < 10 then [DigitChar(n)] else NatToString(n / 10) + [DigitChar(n % 10)]
  }

  /** Reads back a string of decimal digits. */
  function ParseNat(s: string): nat
    decreases |s|
  {
    if s == [] then 0 else ParseNat(s[..|s| - 1]) * 10 + DigitValue(s[|s| - 1])
  }

  /** The rendering used in "found 401." is faithful: it reads back as the same number. */
  lemma {:induction false} ParseNatToString(n: nat)
    ensures ParseNat(NatToString(n)) == n
    decreases n
  {
    var s := NatToString(n);
    if n < 10 {
      assert s[..|s| - 1] == [];
    } else {
      assert s[..|s| - 1] == NatToString(n / 10);
      ParseNatToString(n / 10);
    }
  }

  /** Distinct numbers render differently, so a message names exactly one code. */
  lemma NatToStringInjective(m: nat, n: nat)
    requires NatToString(m) == NatToString(n)
    ensures m == n
  {
    ParseNatToString(m);
    ParseNatToString(n);
  }

  // ---------------------------------------------------------------------------
  // Dotted paths
  // ---------------------------------------------------------------------------

  /** Index of the first `d` in `s`, or |s| when there is none. */
  function IndexOf(s: string, d: char): (i: nat)
    ensures i <= |s|
    ensures i < |s| ==> s[i] == d
    ensures forall j :: 0 <= j < i ==> s[j] != d
    decreases |s|
  {
    if s == [] then 0 else if s[0] == d then 0 else 1 + IndexOf(s[1..], d)
  }

  /** Splits `s` at every `d`; always at least one piece. */
  function SplitOn(s: string, d: char): (r: seq<string>)
    ensures |r| >= 1
    decreases |s|
  {
    var i := IndexOf(s, d);
    if i == |s| then [s] else [s[..i]] + SplitOn(s[i + 1..], d)
  }

  /** The parts with `sep` between each two (Ruby's `join`). */
  function JoinOn(parts: seq<string>, sep: string): string
    decreases |parts|
  {
    if parts == [] then ""
    else if |parts| == 1 then parts[0]
    else parts[0] + sep + JoinOn(parts[1..], sep)
  }

  lemma {:induction false} JoinSplit(s: string, d: char)
    ensures JoinOn(SplitOn(s, d), [d]) == s
    decreases |s|
  {
    var i := IndexOf(s, d);
    if i < |s| {
      var rest := SplitOn(s[i + 1..], d);
      assert SplitOn(s, d) == [s[..i]] + rest;
      JoinSplit(s[i + 1..], d);
      var parts := [s[..i]] + rest;
      assert |parts| > 1 && parts[0] == s[..i] && parts[1..] == rest;
      assert JoinOn(parts, [d]) == s[..i] + [d] + JoinOn(rest, [d]);
      assert s == s[..i] + [d] + s[i + 1..];
    }
  }

  lemma {:induction false} SplitPiecesFree(s: string, d: char)
    ensures forall k, j :: 0 <= k < |SplitOn(s, d)| && 0 <= j < |SplitOn(s, d)[k]| ==> SplitOn(s, d)[k][j] != d
    decreases |s|
  {
    var i := IndexOf(s, d);
    if i < |s| {
      SplitPiecesFree(s[i + 1..], d);
    }
  }

  /** The segments of an element path such as `category.coding.code`; the empty path has none. */
  function PathSegments(path: string): (segs: seq<string>)
    ensures path == "" <==> segs == []
  {
    if path == "" then [] else SplitOn(path, '.')
  }

  /** Segments never contain a dot and joining them gives the path back. */
  lemma PathSegmentsRoundTrip(path: string)
    ensures JoinOn(PathSegments(path), ".") == path
    ensures forall k, j :: 0 <= k < |PathSegments(path)| && 0 <= j < |PathSegments(path)[k]| ==> PathSegments(path)[k][j] != '.'
  {
    if path != "" {
      JoinSplit(path, '.');
      SplitPiecesFree(path, '.');
    }
  }

  // ---------------------------------------------------------------------------
  // Literal substitution
  // ---------------------------------------------------------------------------

  predicate OccursAt(s: string, pat: string, i: nat)
  {
    i + |pat| <= |s| && s[i..i + |pat|] == pat
  }

  predicate Contains(s: string, pat: string)
  {
    exists i: nat | i <= |s| :: OccursAt(s, pat, i)
  }

  /** `s.gsub(pat, '')`: scanning left to right, drop every non-overlapping occurrence of `pat`. */
  function RemoveAll(s: string, pat: string): (r: string)
    requires pat != ""
    ensures |r| <= |s|
    decreases |s|
  {
    if |s| < |pat| then s
    else if s[..|pat|] == pat then RemoveAll(s[|pat|..], pat)
    else [s[0]] + RemoveAll(s[1..], pat)
  }

  /** A string without an occurrence of the pattern is left as it is. */
  lemma {:induction false} RemoveAllAbsent(s: string, pat: string)
    requires pat != ""
    requires !Contains(s, pat)
    ensures RemoveAll(s, pat) == s
    decreases |s|
  {
    if |s| >= |pat| {
      assert !OccursAt(s, pat, 0);
      assert s[..|pat|] != pat;
      forall i: nat
        ensures !OccursAt(s[1..], pat, i)
      {
        assert !OccursAt(s, pat, i + 1);
        if i + |pat| <= |s[1..]| {
          assert s[1..][i..i + |pat|] == s[i + 1..i + 1 + |pat|];
        }
      }
      RemoveAllAbsent(s[1..], pat);
      assert s == [s[0]] + s[1..];
    }
  }

  /** Stripping a type prefix from `<Type>.<rest>` leaves `<rest>` when `rest` does not mention the prefix again. */
  lemma StripPrefix(prefix: string, rest: string)
    requires prefix != ""
    requires !Contains(rest, prefix)
    ensures RemoveAll(prefix + rest, prefix) == rest
  {
    var s := prefix + rest;
    assert s[..|prefix|] == prefix;
    assert s[|prefix|..] == rest;
    RemoveAllAbsent(rest, prefix);
  }

  /** The pattern text occurs inside the string where it is placed. */
  lemma ContainsInfix(a: string, pat: string, b: string)
    ensures Contains(a + pat + b, pat)
  {
    assert (a + pat + b)[|a|..|a| + |pat|] == pat;
    assert OccursAt(a + pat + b, pat, |a|);
  }
}
