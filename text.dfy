/**
 * Whitespace trimming as src/conf.c (trim_whitespace) and src/fcsv.c
 * (tokenize_line) both do it, with the C locale's isspace.
 */
module Text {

  /** isspace in the C locale: space, \t, \n, \v, \f, \r. */
  predicate IsSpace(c: char)
  {
    c == ' ' || c == '\t' || c == '\n' || c == '\U{0B}' || c == '\U{0C}' || c == '\r'
  }

  /** The first index at or after i that does not hold a space (or |s|). */
  function SkipSpaces(s: string, i: nat): (j: nat)
    requires i <= |s|
    ensures i <= j <= |s|
    ensures forall k :: i <= k < j ==> IsSpace(s[k])
    ensures j < |s| ==> !IsSpace(s[j])
    decreases |s| - i
  {
    if i < |s| && IsSpace(s[i]) then SkipSpaces(s, i + 1) else i
  }

  /** Moves hi down over trailing spaces, never below lo. */
  function TrailEnd(s: string, lo: nat, hi: nat): (j: nat)
    requires lo <= hi <= |s|
    ensures lo <= j <= hi
    ensures forall k :: j <= k < hi ==> IsSpace(s[k])
    ensures lo < j ==> !IsSpace(s[j - 1])
    decreases hi
  {
    if lo < hi && IsSpace(s[hi - 1]) then TrailEnd(s, lo, hi - 1) else hi
  }

  /** The bounds [i, j) of s without its leading and trailing spaces. */
  function TrimBounds(s: string): (b: (nat, nat))
    ensures b.0 <= b.1 <= |s|
    ensures forall k :: 0 <= k < b.0 ==> IsSpace(s[k])
    ensures forall k :: b.1 <= k < |s| ==> IsSpace(s[k])
    ensures b.0 < b.1 ==> !IsSpace(s[b.0]) && !IsSpace(s[b.1 - 1])
    ensures b.0 == b.1 ==> b.0 == |s|
  {
    var i := SkipSpaces(s, 0);
    (i, TrailEnd(s, i, |s|))
  }

  /**
   * s without leading and trailing whitespace: a contiguous piece of s whose
   * first and last characters are not spaces, with only spaces around it.
   */
  function Trim(s: string): (r: string)
    ensures |r| <= |s|
    ensures r == [] || (!IsSpace(r[0]) && !IsSpace(r[|r| - 1]))
    ensures r == [] <==> forall k :: 0 <= k < |s| ==> IsSpace(s[k])
    ensures var i := TrimBounds(s).0;
              i + |r| <= |s| && s[i..i + |r|] == r
              && (forall k :: 0 <= k < i ==> IsSpace(s[k]))
              && (forall k :: i + |r| <= k < |s| ==> IsSpace(s[k]))
  {
    var b := TrimBounds(s);
    s[b.0..b.1]
  }

  /**
   * trim_whitespace: step over leading spaces, stop if nothing is left, then
   * step the end back over trailing spaces.
   */
  method TrimWhitespace(s: string) returns (r: string)
    ensures r == Trim(s)
  {
    var i := 0;
    while i < |s| && IsSpace(s[i])
      invariant i <= |s| && SkipSpaces(s, 0) == SkipSpaces(s, i)
    {
      i := i + 1;
    }
    if i == |s| {
      return [];
    }
    var end := |s| - 1;
    while end > i && IsSpace(s[end])
      invariant i <= end < |s| && TrailEnd(s, i, |s|) == TrailEnd(s, i, end + 1)
    {
      end := end - 1;
    }
    r := s[i..end + 1];
  }

  /** A string with no space at either end is its own trim. */
  lemma TrimOfTrimmed(s: string)
    requires s == [] || (!IsSpace(s[0]) && !IsSpace(s[|s| - 1]))
    ensures Trim(s) == s
  {
    var b := TrimBounds(s);
    if s != [] {
      assert b.0 == 0;
      assert b.1 == |s|;
    }
  }

  /** Trimming twice is trimming once. */
  lemma TrimIdempotent(s: string)
    ensures Trim(Trim(s)) == Trim(s)
  {
    TrimOfTrimmed(Trim(s));
  }
}
