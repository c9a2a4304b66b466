/**
 * The parts of .NET's string API the application relies on, as functions on `seq<char>`:
 * white space, trimming, prefix and suffix tests, `Replace`, `Split`, `Join`,
 * and decimal rendering and parsing of integers. Comparisons are ordinal.
 */
module Text {
  import opened Common

  /** `char.IsWhiteSpace`: the Unicode separators and the control characters .NET counts as white space. */
  predicate IsWhiteSpace(c: char) {
    c == ' ' || ('\t' <= c <= '\r') || c == '\U{0085}' || c == '\U{00A0}' || c == '\U{1680}'
    || ('\U{2000}' <= c <= '\U{200A}') || c == '\U{2028}' || c == '\U{2029}'
    || c == '\U{202F}' || c == '\U{205F}' || c == '\U{3000}'
  }

  /** Every character is white space (true of the empty string). */
  predicate IsBlank(s: string) {
    forall i :: 0 <= i < |s| ==> IsWhiteSpace(s[i])
  }

  /** `string.IsNullOrWhiteSpace`. */
  predicate IsNullOrWhiteSpace(s: Option<string>) {
    s.None? || IsBlank(s.value)
  }

  /** `string.IsNullOrEmpty`. */
  predicate IsNullOrEmpty(s: Option<string>) {
    s.None? || s.value == ""
  }

  /** `TrimStart()`: the longest suffix that does not start with white space. */
  function TrimStart(s: string): (r: string)
    ensures |r| <= |s|
    ensures r == [] || !IsWhiteSpace(r[0])
  {
    if s != [] && IsWhiteSpace(s[0]) then TrimStart(s[1..]) else s
  }

  /** `TrimStart` keeps a suffix and drops only white space. */
  lemma {:induction false} TrimStartParts(s: string)
    ensures TrimStart(s) == s[|s| - |TrimStart(s)|..]
    ensures IsBlank(s[..|s| - |TrimStart(s)|])
  {
    if s != [] && IsWhiteSpace(s[0]) {
      TrimStartParts(s[1..]);
      var n := |s| - |TrimStart(s)|;
      assert s[1..][n - 1..] == s[n..];
      assert forall i :: 1 <= i < n ==> s[i] == s[1..][..n - 1][i - 1];
    }
  }

  /** `TrimEnd()`: the longest prefix that does not end with white space. */
  function TrimEnd(s: string): (r: string)
    ensures |r| <= |s|
    ensures r == [] || !IsWhiteSpace(r[|r| - 1])
  {
    if s != [] && IsWhiteSpace(s[|s| - 1]) then TrimEnd(s[..|s| - 1]) else s
  }

  /** `TrimEnd` keeps a prefix and drops only white space. */
  lemma {:induction false} TrimEndParts(s: string)
    ensures TrimEnd(s) == s[..|TrimEnd(s)|]
    ensures IsBlank(s[|TrimEnd(s)|..])
  {
    if s != [] && IsWhiteSpace(s[|s| - 1]) {
      TrimEndParts(s[..|s| - 1]);
      var n := |TrimEnd(s)|;
      assert s[..|s| - 1][..n] == s[..n];
      assert forall i :: n <= i < |s| - 1 ==> s[i] == s[..|s| - 1][n..][i - n];
    }
  }

  /** A string `Trim` leaves as it is. */
  predicate IsTrimmed(s: string) {
    s == [] || (!IsWhiteSpace(s[0]) && !IsWhiteSpace(s[|s| - 1]))
  }

  /** `Trim()`: white space removed from both ends. */
  function Trim(s: string): (r: string)
    ensures IsTrimmed(r)
  {
    var t := TrimStart(s);
    TrimEndParts(t);
    TrimEnd(t)
  }

  /** `Trim` leaves nothing exactly when the string is all white space. */
  lemma {:induction false} TrimBlank(s: string)
    ensures Trim(s) == [] <==> IsBlank(s)
  {
    var t := TrimStart(s);
    TrimStartParts(s);
    TrimEndParts(t);
    if IsBlank(s) {
      assert IsBlank(t);
    } else {
      assert s[..|s|] == s;
    }
  }

  lemma {:induction false} TrimTrimmed(s: string)
    requires IsTrimmed(s)
    ensures Trim(s) == s
  {
  }

  /** Leading white space does not survive `Trim`. */
  lemma {:induction false} TrimLeadingBlank(b: string, s: string)
    requires IsBlank(b)
    ensures Trim(b + s) == Trim(s)
  {
    if b != [] {
      assert (b + s)[1..] == b[1..] + s;
      TrimLeadingBlank(b[1..], s);
    } else {
      assert b + s == s;
    }
  }

  /** Text that opens with a character other than white space keeps it first when trimmed. */
  lemma {:induction false} TrimKeepsFirst(u: string)
    requires u != [] && !IsWhiteSpace(u[0])
    ensures Trim(u) != [] && Trim(u)[0] == u[0]
  {
    assert TrimStart(u) == u;
    TrimEndParts(u);
    TrimBlank(u);
    assert !IsBlank(u);
  }

  /** `TrimEnd(c)`: every trailing `c` removed. */
  function TrimEndChar(s: string, c: char): (r: string)
    ensures |r| <= |s| && r == s[..|r|]
    ensures r == [] || r[|r| - 1] != c
    ensures forall i :: |r| <= i < |s| ==> s[i] == c
  {
    if s != [] && s[|s| - 1] == c then TrimEndChar(s[..|s| - 1], c) else s
  }

  /** `TrimStart(c)`: every leading `c` removed. */
  function TrimStartChar(s: string, c: char): (r: string)
    ensures |r| <= |s| && r == s[|s| - |r|..]
    ensures r == [] || r[0] != c
    ensures forall i :: 0 <= i < |s| - |r| ==> s[i] == c
  {
    if s != [] && s[0] == c then TrimStartChar(s[1..], c) else s
  }

  predicate StartsWith(s: string, p: string) {
    |p| <= |s| && s[..|p|] == p
  }

  predicate EndsWith(s: string, p: string) {
    |p| <= |s| && s[|s| - |p|..] == p
  }

  /** A concatenation starts with its first part and ends with its second. */
  lemma {:induction false} AppendParts(a: string, b: string)
    ensures StartsWith(a + b, a) && EndsWith(a + b, b)
  {
    assert (a + b)[..|a|] == a;
    assert (a + b)[|a|..] == b;
  }

  /** Three pieces put together start with the first and end with the last. */
  lemma {:induction false} ThreeParts(a: string, b: string, c: string)
    ensures StartsWith(a + b + c, a) && EndsWith(a + b + c, c)
  {
    AppendParts(a + b, c);
    AppendParts(a, b + c);
    assert a + b + c == a + (b + c);
  }

  lemma {:induction false} EndsWithTrans(a: string, b: string, c: string)
    requires EndsWith(a, b) && EndsWith(b, c)
    ensures EndsWith(a, c)
  {
    assert a[|a| - |c|..] == a[|a| - |b|..][|b| - |c|..];
  }

  /** `Contains`: `t` occurs somewhere in `s`. */
  predicate Contains(s: string, t: string)
    decreases |s|
  {
    StartsWith(s, t) || (s != [] && Contains(s[1..], t))
  }

  /** `c` is not a character of `s`. */
  predicate Lacks(s: string, c: char) {
    forall i :: 0 <= i < |s| ==> s[i] != c
  }

  lemma {:induction false} LacksAppend(a: string, b: string, c: char)
    requires Lacks(a, c) && Lacks(b, c)
    ensures Lacks(a + b, c)
  {
    forall i | 0 <= i < |a + b| ensures (a + b)[i] != c {
      if i < |a| { assert (a + b)[i] == a[i]; } else { assert (a + b)[i] == b[i - |a|]; }
    }
  }

  /** A pattern that starts with a character `s` does not have cannot occur in `s`. */
  lemma {:induction false} LacksFirstNotContains(s: string, t: string)
    requires t != [] && Lacks(s, t[0])
    ensures !Contains(s, t)
  {
    if s != [] {
      assert s[0] != t[0];
      LacksFirstNotContains(s[1..], t);
    }
  }

  /** `Replace(pat, rep)`: every occurrence of `pat`, scanning left to right without overlap, becomes `rep`. */
  function Replace(s: string, pat: string, rep: string): (r: string)
    requires pat != []
    ensures rep == pat ==> r == s
    decreases |s|
  {
    if |s| < |pat| then s
    else if s[..|pat|] == pat then
      assert s == s[..|pat|] + s[|pat|..];
      rep + Replace(s[|pat|..], pat, rep)
    else
      assert s == [s[0]] + s[1..];
      [s[0]] + Replace(s[1..], pat, rep)
  }

  /** A string without the pattern's first character is left as it is. */
  lemma {:induction false} ReplaceLacking(s: string, pat: string, rep: string)
    requires pat != [] && Lacks(s, pat[0])
    ensures Replace(s, pat, rep) == s
    decreases |s|
  {
    if |s| >= |pat| {
      assert s[..|pat|][0] != pat[0];
      ReplaceLacking(s[1..], pat, rep);
      assert [s[0]] + s[1..] == s;
    }
  }

  /** An occurrence at the front is replaced. */
  lemma {:induction false} ReplaceFront(pat: string, rest: string, rep: string)
    requires pat != []
    ensures Replace(pat + rest, pat, rep) == rep + Replace(rest, pat, rep)
  {
    assert (pat + rest)[..|pat|] == pat;
    assert (pat + rest)[|pat|..] == rest;
  }

  /**
   * When the string after `a` starts with a character the pattern lacks, no occurrence
   * straddles the boundary and the two parts are replaced independently.
   */
  lemma {:induction false} ReplaceSplit(a: string, b: string, pat: string, rep: string)
    requires pat != [] && b != [] && Lacks(pat, b[0])
    ensures Replace(a + b, pat, rep) == Replace(a, pat, rep) + Replace(b, pat, rep)
    decreases |a|
  {
    if a == [] {
      assert a + b == b;
    } else if |a| >= |pat| && a[..|pat|] == pat {
      ReplaceSplit(a[|pat|..], b, pat, rep);
      MatchAcross(a, b, pat, rep);
    } else {
      ReplaceSplit(a[1..], b, pat, rep);
      SkipAcross(a, b, pat, rep);
    }
  }

  /** No occurrence can start inside a prefix that lacks the pattern's first character. */
  lemma {:induction false} ReplaceAfterLacking(a: string, b: string, pat: string, rep: string)
    requires pat != [] && Lacks(a, pat[0])
    ensures Replace(a + b, pat, rep) == a + Replace(b, pat, rep)
    decreases |a|
  {
    var s := a + b;
    if a == [] {
      assert s == b;
    } else if |s| < |pat| {
      assert Replace(b, pat, rep) == b;
    } else {
      assert s[..|pat|][0] == a[0] != pat[0];
      assert Replace(s, pat, rep) == [s[0]] + Replace(s[1..], pat, rep);
      assert s[1..] == a[1..] + b;
      ReplaceAfterLacking(a[1..], b, pat, rep);
      assert a == [a[0]] + a[1..];
    }
  }

  /**
   * A token that is not a prefix of the pattern, of which the pattern is not a prefix, and
   * whose later characters lack the pattern's first one, is left as it is wherever it stands.
   */
  lemma {:induction false} ReplaceSkipsToken(t: string, b: string, pat: string, rep: string)
    requires pat != [] && t != [] && Lacks(t[1..], pat[0])
    requires !StartsWith(t, pat) && !StartsWith(pat, t)
    ensures Replace(t + b, pat, rep) == t + Replace(b, pat, rep)
  {
    var s := t + b;
    if |s| < |pat| {
      assert Replace(b, pat, rep) == b;
    } else {
      NoMatchAcross(t, b, pat);
      ReplaceAfterLacking(t[1..], b, pat, rep);
      calc {
        Replace(s, pat, rep);
        [s[0]] + Replace(s[1..], pat, rep);
        { TailOfAppend(t, b); }
        [t[0]] + Replace(t[1..] + b, pat, rep);
        [t[0]] + (t[1..] + Replace(b, pat, rep));
        { assert t == [t[0]] + t[1..]; }
        t + Replace(b, pat, rep);
      }
    }
  }

  /** When neither of `t` and `pat` is a prefix of the other, `pat` does not start `t + b`. */
  lemma {:induction false} NoMatchAcross(t: string, b: string, pat: string)
    requires !StartsWith(t, pat) && !StartsWith(pat, t) && |t + b| >= |pat|
    ensures (t + b)[..|pat|] != pat
  {
    var s := t + b;
    if |pat| <= |t| {
      assert s[..|pat|] == t[..|pat|];
    }
  }

  /** An occurrence at the front of `a` is also one at the front of `a + b`. */
  lemma {:induction false} MatchAcross(a: string, b: string, pat: string, rep: string)
    requires pat != [] && |a| >= |pat| && a[..|pat|] == pat
    ensures Replace(a + b, pat, rep) == rep + Replace(a[|pat|..] + b, pat, rep)
    ensures Replace(a, pat, rep) == rep + Replace(a[|pat|..], pat, rep)
  {
    assert (a + b)[..|pat|] == a[..|pat|];
    assert (a + b)[|pat|..] == a[|pat|..] + b;
  }

  /** A front of `a` that is not an occurrence is not one of `a + b` either. */
  lemma {:induction false} SkipAcross(a: string, b: string, pat: string, rep: string)
    requires pat != [] && a != [] && b != [] && Lacks(pat, b[0])
    requires !(|a| >= |pat| && a[..|pat|] == pat)
    ensures Replace(a + b, pat, rep) == [a[0]] + Replace(a[1..] + b, pat, rep)
    ensures Replace(a, pat, rep) == [a[0]] + Replace(a[1..], pat, rep)
  {
    var s := a + b;
    assert s[0] == a[0];
    assert s[1..] == a[1..] + b;
    if |pat| <= |s| {
      if |a| < |pat| {
        assert s[..|pat|][|a|] == b[0];
      } else {
        assert s[..|pat|] == a[..|pat|];
      }
    }
  }

  /** `Split(seps)`: the pieces between separator characters, empty pieces kept. */
  function Split(s: string, seps: set<char>): (r: seq<string>)
    ensures |r| > 0
    ensures forall k :: 0 <= k < |r| ==> forall i :: 0 <= i < |r[k]| ==> r[k][i] !in seps
    decreases |s|
  {
    if s == [] then [""]
    else
      var rest := Split(s[1..], seps);
      if s[0] in seps then [""] + rest else [[s[0]] + rest[0]] + rest[1..]
  }

  /** `Split(seps, RemoveEmptyEntries)`. */
  function SplitNonEmpty(s: string, seps: set<char>): (r: seq<string>)
    ensures forall k :: 0 <= k < |r| ==> r[k] != []
  {
    NonEmpty(Split(s, seps))
  }

  /** The non-empty strings of `xs`, in order. */
  function NonEmpty(xs: seq<string>): (r: seq<string>)
    ensures |r| <= |xs|
    ensures forall k :: 0 <= k < |r| ==> r[k] != []
  {
    if xs == [] then [] else (if xs[0] == [] then [] else [xs[0]]) + NonEmpty(xs[1..])
  }

  lemma {:induction false} NonEmptyKeeps(xs: seq<string>)
    requires forall k :: 0 <= k < |xs| ==> xs[k] != []
    ensures NonEmpty(xs) == xs
  {
    if xs != [] { NonEmptyKeeps(xs[1..]); }
  }

  /** `NonEmpty` keeps only elements of `xs`. */
  lemma {:induction false} NonEmptyMembers(xs: seq<string>)
    ensures forall x :: x in NonEmpty(xs) ==> x in xs
  {
    if xs != [] {
      NonEmptyMembers(xs[1..]);
      assert xs == [xs[0]] + xs[1..];
    }
  }

  /** A piece without separators splits into itself. */
  lemma {:induction false} SplitNoSeparator(s: string, seps: set<char>)
    requires forall i :: 0 <= i < |s| ==> s[i] !in seps
    ensures Split(s, seps) == [s]
  {
    if s != [] {
      SplitNoSeparator(s[1..], seps);
      assert [s[0]] + s[1..] == s;
    }
  }

  /** Splitting at the first separator. */
  lemma {:induction false} SplitAt(a: string, c: char, b: string, seps: set<char>)
    requires c in seps
    requires forall i :: 0 <= i < |a| ==> a[i] !in seps
    ensures Split(a + [c] + b, seps) == [a] + Split(b, seps)
  {
    if a == [] {
      assert a + [c] + b == [c] + b;
      assert ([c] + b)[1..] == b;
    } else {
      assert (a + [c] + b)[1..] == a[1..] + [c] + b;
      SplitAt(a[1..], c, b, seps);
      assert [a[0]] + a[1..] == a;
    }
  }

  /** `string.Join(sep, xs)`. */
  function Join(sep: string, xs: seq<string>): (r: string)
    ensures xs == [] ==> r == ""
    ensures |xs| == 1 ==> r == xs[0]
  {
    if xs == [] then "" else if |xs| == 1 then xs[0] else xs[0] + sep + Join(sep, xs[1..])
  }

  /** The decimal digits. */
  predicate IsDigit(c: char) {
    '0' <= c <= '9'
  }

  predicate AllDigits(s: string) {
    forall i :: 0 <= i < |s| ==> IsDigit(s[i])
  }

  function DigitChar(d: nat): (c: char)
    requires d < 10
    ensures IsDigit(c) && c as int - '0' as int == d
  {
    ('0' as int + d) as char
  }

  /** The value of a string of decimal digits (leading zeros allowed; "" is 0). */
  function DigitsValue(s: string): (n: nat)
    requires AllDigits(s)
  {
    if s == [] then 0 else DigitsValue(s[..|s| - 1]) * 10 + (s[|s| - 1] as int - '0' as int)
  }

  /** `int.MaxValue`: `int.Parse` throws on a larger value. */
  const Int32Max := 0x7fff_ffff

  /** `int.Parse` of a run of ASCII digits: none where it throws on overflow. */
  function ParseInt(g: string): (r: Option<int>)
    requires AllDigits(g)
    ensures r.Some? <==> DigitsValue(g) <= Int32Max
    ensures r.Some? ==> r.value == DigitsValue(g)
  {
    if DigitsValue(g) <= Int32Max then Some(DigitsValue(g)) else None
  }

  /** The canonical decimal rendering of a natural number. */
  function NatToString(n: nat): (s: string)
    ensures s != [] && AllDigits(s)
    ensures |s| > 1 ==> s[0] != '0'
  {
    if n < 10 then [DigitChar(n)] else NatToString(n / 10) + [DigitChar(n % 10)]
  }

  /** `int.ToString()` in the invariant culture. */
  function IntToString(i: int): (s: string)
    ensures s != []
  {
    if i < 0 then "-" + NatToString(-i) else NatToString(i)
  }

  /** Parsing the rendering gives the number back. */
  lemma {:induction false} NatToStringRoundTrip(n: nat)
    ensures DigitsValue(NatToString(n)) == n
  {
    if n >= 10 {
      NatToStringRoundTrip(n / 10);
      var s := NatToString(n);
      assert s[..|s| - 1] == NatToString(n / 10);
    }
  }

  /** Distinct numbers render differently. */
  lemma {:induction false} NatToStringInjective(m: nat, n: nat)
    requires NatToString(m) == NatToString(n)
    ensures m == n
  {
    NatToStringRoundTrip(m);
    NatToStringRoundTrip(n);
  }
}
