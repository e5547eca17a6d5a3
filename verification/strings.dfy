/** Character and string helpers standing in for the JavaScript string
    methods the dashboard uses: `trim`, `toLowerCase`, `toUpperCase`,
    `includes`, `replace(/\D/g, '')` and the anchored digit regexes.
    Case mapping is ASCII-only; trimming uses the ASCII and Latin-1/BOM
    white-space characters. */
module Strings {
  import Seqs

  predicate IsDigit(c: char) {
    '0' <= c <= '9'
  }

  /** The white space trimming removes: the ASCII and Latin-1 part of
      JavaScript's set, plus the byte-order mark. */
  predicate IsWhitespace(c: char) {
    c == ' ' || c == '\t' || c == '\n' || c == '\r' ||
    c == '\U{000B}' || c == '\U{000C}' || c == '\U{00A0}' || c == '\U{FEFF}'
  }

  /** Drops leading white space. */
  function TrimStart(s: string): (r: string)
    ensures |r| <= |s| && r == s[|s| - |r|..]
    ensures r == [] || !IsWhitespace(r[0])
    ensures forall i :: 0 <= i < |s| - |r| ==> IsWhitespace(s[i])
  {
    if s != [] && IsWhitespace(s[0]) then TrimStart(s[1..]) else s
  }

  /** Drops trailing white space. */
  function TrimEnd(s: string): (r: string)
    ensures |r| <= |s| && r == s[..|r|]
    ensures r == [] || !IsWhitespace(r[|r| - 1])
    ensures forall i :: |r| <= i < |s| ==> IsWhitespace(s[i])
  {
    if s != [] && IsWhitespace(s[|s| - 1]) then TrimEnd(s[..|s| - 1]) else s
  }

  /** t is the slice of s that starts at position i. */
  predicate OccursAt(s: string, t: string, i: nat) {
    i + |t| <= |s| && s[i..i + |t|] == t
  }

  /** A stretch of white space characters is blank. */
  lemma BlankSlice(s: string, lo: nat, hi: nat)
    requires lo <= hi <= |s|
    requires forall k :: lo <= k < hi ==> IsWhitespace(s[k])
    ensures Blank(s[lo..hi])
  {
    assert forall k :: 0 <= k < hi - lo ==> s[lo..hi][k] == s[lo + k];
  }

  /** What TrimStart drops is blank. */
  lemma TrimStartDropsBlank(s: string)
    ensures Blank(s[..|s| - |TrimStart(s)|])
  {
    BlankSlice(s, 0, |s| - |TrimStart(s)|);
    assert s[..|s| - |TrimStart(s)|] == s[0..|s| - |TrimStart(s)|];
  }

  /** What TrimEnd drops is blank. */
  lemma TrimEndDropsBlank(s: string)
    ensures Blank(s[|TrimEnd(s)|..])
  {
    BlankSlice(s, |TrimEnd(s)|, |s|);
    assert s[|TrimEnd(s)|..] == s[|TrimEnd(s)|..|s|];
  }

  /** r sits at position i of s, with only white space before and after. */
  predicate BlankAround(s: string, r: string, i: nat) {
    i + |r| <= |s| && s[i..i + |r|] == r && Blank(s[..i]) && Blank(s[i + |r|..])
  }

  /** Trimming both ends leaves the slice of s between its leading and
      its trailing white space. */
  lemma TrimSlices(s: string)
    ensures BlankAround(s, TrimEnd(TrimStart(s)), |s| - |TrimStart(s)|)
  {
    TrimStartDropsBlank(s);
    TrimEndDropsBlank(TrimStart(s));
    SplitBlankAround(s, TrimStart(s), TrimEnd(TrimStart(s)));
  }

  /** A blank prefix of s, then r, then a blank stretch up to the end of
      the suffix t: r sits in s with only white space around it. */
  lemma SplitBlankAround(s: string, t: string, r: string)
    requires |t| <= |s| && t == s[|s| - |t|..] && Blank(s[..|s| - |t|])
    requires |r| <= |t| && r == t[..|r|] && Blank(t[|r|..])
    ensures BlankAround(s, r, |s| - |t|)
  {
    var i := |s| - |t|;
    assert s[i..i + |r|] == r;
    assert s[i + |r|..] == t[|r|..];
  }

  /** Drops white space at both ends: what is left is a contiguous block
      of s, with only white space before and after it, and neither starting
      nor ending with white space. */
  function Trim(s: string): (r: string)
    ensures exists i: nat :: BlankAround(s, r, i)
    ensures r == [] || (!IsWhitespace(r[0]) && !IsWhitespace(r[|r| - 1]))
  {
    TrimSlices(s);
    TrimEnd(TrimStart(s))
  }

  /** Nothing but white space, so nothing is left once trimmed (see
      TrimEmptyIffBlank). */
  predicate Blank(s: string) {
    forall i :: 0 <= i < |s| ==> IsWhitespace(s[i])
  }

  /** A string trims to nothing exactly when every character is white space. */
  lemma TrimEmptyIffBlank(s: string)
    ensures Trim(s) == [] <==> Blank(s)
  {
    var t := TrimStart(s);
    assert |t| > 0 ==> t[0] == s[|s| - |t|];
    if exists k :: 0 <= k < |s| && !IsWhitespace(s[k]) {
      var k :| 0 <= k < |s| && !IsWhitespace(s[k]);
      assert t[k - (|s| - |t|)] == s[k];
    }
  }

  function LowerChar(c: char): char {
    if 'A' <= c <= 'Z' then (c as int + 32) as char else c
  }

  function UpperChar(c: char): char {
    if 'a' <= c <= 'z' then (c as int - 32) as char else c
  }

  /** Lower case: each ASCII capital becomes its small letter, 32 code
      points up; every other character is kept. */
  function Lower(s: string): (r: string)
    ensures |r| == |s|
    ensures forall i :: 0 <= i < |s| && 'A' <= s[i] <= 'Z' ==> 'a' <= r[i] <= 'z' && r[i] as int == s[i] as int + 32
    ensures forall i :: 0 <= i < |s| && !('A' <= s[i] <= 'Z') ==> r[i] == s[i]
  {
    seq(|s|, i requires 0 <= i < |s| => LowerChar(s[i]))
  }

  /** Upper case: each ASCII small letter becomes its capital, 32 code
      points down; every other character is kept. */
  function Upper(s: string): (r: string)
    ensures |r| == |s|
    ensures forall i :: 0 <= i < |s| && 'a' <= s[i] <= 'z' ==> 'A' <= r[i] <= 'Z' && r[i] as int == s[i] as int - 32
    ensures forall i :: 0 <= i < |s| && !('a' <= s[i] <= 'z') ==> r[i] == s[i]
  {
    seq(|s|, i requires 0 <= i < |s| => UpperChar(s[i]))
  }

  /** t occurs somewhere in s as a contiguous block (see IncludesIffOccurs). */
  predicate Includes(s: string, t: string)
    decreases |s|
  {
    t <= s || (s != [] && Includes(s[1..], t))
  }

  /** Includes holds exactly when t is the slice of s at some position. */
  lemma {:induction false} IncludesIffOccurs(s: string, t: string)
    ensures Includes(s, t) <==> exists i: nat :: OccursAt(s, t, i)
    decreases |s|
  {
    if t <= s {
      assert OccursAt(s, t, 0);
    } else if s != [] {
      IncludesIffOccurs(s[1..], t);
      if Includes(s[1..], t) {
        var i: nat :| OccursAt(s[1..], t, i);
        assert s[i + 1..i + 1 + |t|] == s[1..][i..i + |t|];
        assert OccursAt(s, t, i + 1);
      }
      if exists i: nat :: OccursAt(s, t, i) {
        var i: nat :| OccursAt(s, t, i);
        assert i > 0;
        assert s[1..][i - 1..i - 1 + |t|] == s[i..i + |t|];
        assert OccursAt(s[1..], t, i - 1);
      }
    }
  }

  /** Every string includes the empty string. */
  lemma IncludesEmpty(s: string)
    ensures Includes(s, [])
  {
  }

  /** Removes every character that is not an ASCII digit: the digits are
      all kept, in their order, and nothing else is. */
  function StripNonDigits(s: string): (r: string)
    ensures |r| <= |s|
    ensures forall i :: 0 <= i < |r| ==> IsDigit(r[i])
  {
    if s == [] then []
    else (if IsDigit(s[0]) then [s[0]] else []) + StripNonDigits(s[1..])
  }

  /** Stripping is filtering by IsDigit: every digit of s is kept, as
      often as it occurs and in its order, and nothing else is. */
  lemma {:induction false} StripNonDigitsKeepsDigits(s: string)
    ensures StripNonDigits(s) == Seqs.Filter(s, IsDigit)
    ensures forall c :: multiset(StripNonDigits(s))[c] == if IsDigit(c) then multiset(s)[c] else 0
    ensures Seqs.IsSubsequence(StripNonDigits(s), s)
  {
    if s != [] {
      StripNonDigitsKeepsDigits(s[1..]);
    }
  }

  /** s is made of digits only, between lo and hi of them. */
  predicate MatchesDigits(s: string, lo: nat, hi: nat) {
    lo <= |s| <= hi && forall i :: 0 <= i < |s| ==> IsDigit(s[i])
  }

  /** The decimal digits of a natural number, most significant first. */
  function NatToString(n: nat): (r: string)
    ensures r != [] && forall i :: 0 <= i < |r| ==> IsDigit(r[i])
  {
    if n < 10 then [('0' as int + n) as char]
    else NatToString(n / 10) + [('0' as int + n % 10) as char]
  }
}
