/** The JavaScript string operations the handlers rely on: `trim`, `length`
    (counted in UTF-16 code units) and `toUpperCase` (ASCII letters only). */
module Text {

  /** The code points JavaScript's `trim` removes: the WhiteSpace and
      LineTerminator characters of the language. */
  predicate IsJsSpace(c: char) {
    || c == '\t' || c == '\n' || c == '\U{000B}' || c == '\U{000C}' || c == '\r' || c == ' '
    || c == '\U{00A0}' || c == '\U{1680}' || ('\U{2000}' <= c <= '\U{200A}')
    || c == '\U{2028}' || c == '\U{2029}' || c == '\U{202F}' || c == '\U{205F}'
    || c == '\U{3000}' || c == '\U{FEFF}'
  }

  predicate AllSpace(s: string) {
    forall i :: 0 <= i < |s| ==> IsJsSpace(s[i])
  }

  /** How many white-space characters `s` starts with. */
  function LeadingSpace(s: string): (n: nat)
    ensures n <= |s|
  {
    if s != [] && IsJsSpace(s[0]) then 1 + LeadingSpace(s[1..]) else 0
  }

  /** How many white-space characters `s` ends with. */
  function TrailingSpace(s: string): (n: nat)
    ensures n <= |s|
  {
    if s != [] && IsJsSpace(s[|s| - 1]) then 1 + TrailingSpace(s[..|s| - 1]) else 0
  }

  /** The leading white space is all white space, and what follows it is not. */
  lemma {:induction false} LeadingSpaceIsMaximal(s: string)
    ensures AllSpace(s[..LeadingSpace(s)])
    ensures LeadingSpace(s) == |s| || !IsJsSpace(s[LeadingSpace(s)])
  {
    if s != [] && IsJsSpace(s[0]) {
      LeadingSpaceIsMaximal(s[1..]);
      assert s[..LeadingSpace(s)] == [s[0]] + s[1..][..LeadingSpace(s[1..])];
    }
  }

  /** The trailing white space is all white space, and what precedes it is not. */
  lemma {:induction false} TrailingSpaceIsMaximal(s: string)
    ensures AllSpace(s[|s| - TrailingSpace(s)..])
    ensures TrailingSpace(s) == |s| || !IsJsSpace(s[|s| - TrailingSpace(s) - 1])
  {
    if s != [] && IsJsSpace(s[|s| - 1]) {
      var t := s[..|s| - 1];
      TrailingSpaceIsMaximal(t);
      var n, m := TrailingSpace(s), TrailingSpace(t);
      assert n == m + 1 && |s| - n == |t| - m;
      assert s[|s| - n..] == t[|t| - m..] + [s[|s| - 1]];
      assert n < |s| ==> s[|s| - n - 1] == t[|t| - m - 1];
    }
  }

  /** `r` is what remains of `s` once white space is cut from both ends: a
      middle piece of `s`, between two all-space pieces, that neither starts nor
      ends with white space. */
  ghost predicate IsTrimOf(r: string, s: string) {
    && (r == [] || (!IsJsSpace(r[0]) && !IsJsSpace(r[|r| - 1])))
    && exists i, j :: 0 <= i <= j <= |s| && r == s[i..j] && AllSpace(s[..i]) && AllSpace(s[j..])
  }

  /** JavaScript's `s.trim()`: `s` without its leading and trailing white space. */
  function Trim(s: string): (r: string)
    ensures |r| <= |s|
  {
    var t := s[LeadingSpace(s)..];
    t[..|t| - TrailingSpace(t)]
  }

  /** `Trim` meets its specification. */
  lemma TrimIsTrimOf(s: string)
    ensures IsTrimOf(Trim(s), s)
  {
    var i := LeadingSpace(s);
    var t := s[i..];
    var k := TrailingSpace(t);
    var r := Trim(s);
    LeadingSpaceIsMaximal(s);
    TrailingSpaceIsMaximal(t);
    assert r == s[i..i + |r|] && s[i + |r|..] == t[|t| - k..];
    if r != [] {
      assert r[0] == s[i] && r[|r| - 1] == t[|t| - k - 1];
    }
  }

  /** White space followed by a piece that does not start with it. */
  lemma {:induction false} LeadingSpaceOf(a: string, t: string)
    requires AllSpace(a)
    requires t == [] || !IsJsSpace(t[0])
    ensures LeadingSpace(a + t) == |a|
  {
    if a != [] {
      assert (a + t)[1..] == a[1..] + t;
      LeadingSpaceOf(a[1..], t);
    } else {
      assert a + t == t;
    }
  }

  /** A piece that does not end with white space, followed by white space. */
  lemma {:induction false} TrailingSpaceOf(t: string, b: string)
    requires AllSpace(b)
    requires t == [] || !IsJsSpace(t[|t| - 1])
    ensures TrailingSpace(t + b) == |b|
  {
    if b != [] {
      assert (t + b)[..|t + b| - 1] == t + b[..|b| - 1];
      TrailingSpaceOf(t, b[..|b| - 1]);
    } else {
      assert t + b == t;
    }
  }

  /** White space, a piece with no white space at its ends, and white space
      trim to that piece. */
  lemma TrimOfSplit(a: string, r: string, b: string)
    requires AllSpace(a) && AllSpace(b)
    requires r == [] || (!IsJsSpace(r[0]) && !IsJsSpace(r[|r| - 1]))
    ensures Trim(a + r + b) == r
  {
    var s := a + r + b;
    if r == [] {
      assert s == (a + b) + [];
      assert AllSpace(a + b);
      LeadingSpaceOf(a + b, []);
    } else {
      assert s == a + (r + b);
      LeadingSpaceOf(a, r + b);
      assert s[|a|..] == r + b;
      TrailingSpaceOf(r, b);
      assert (r + b)[..|r|] == r;
    }
  }

  /** Cutting `s` at two points and joining the three pieces gives `s` back. */
  lemma SplitsBack(s: string, i: nat, j: nat)
    requires i <= j <= |s|
    ensures s[..i] + s[i..j] + s[j..] == s
  {
  }

  /** `Trim` is the only function meeting its specification: whichever way `s`
      splits into white space, a piece with no white space at its ends, and
      white space, `Trim(s)` is that middle piece. */
  lemma TrimUnique(r: string, s: string)
    requires IsTrimOf(r, s)
    ensures Trim(s) == r
  {
    var i, j :| 0 <= i <= j <= |s| && r == s[i..j] && AllSpace(s[..i]) && AllSpace(s[j..]);
    SplitsBack(s, i, j);
    TrimOfSplit(s[..i], s[i..j], s[j..]);
  }

  /** Trimming twice is trimming once. */
  lemma TrimIdempotent(s: string)
    ensures Trim(Trim(s)) == Trim(s)
  {
    var r := Trim(s);
    TrimIsTrimOf(s);
    assert r == r[0..|r|] && r[..0] == [] && r[|r|..] == [];
    TrimUnique(r, r);
  }

  /** A string with no white space at either end is its own trim. */
  lemma TrimOfTrimmed(s: string)
    requires s == [] || (!IsJsSpace(s[0]) && !IsJsSpace(s[|s| - 1]))
    ensures Trim(s) == s
  {
    assert s == s[0..|s|] && s[..0] == [] && s[|s|..] == [];
    TrimUnique(s, s);
  }

  /** Code units a character takes in UTF-16: two above the basic multilingual plane. */
  function Utf16Units(c: char): nat {
    if c as int > 0xFFFF then 2 else 1
  }

  /** JavaScript's `s.length`, which counts UTF-16 code units rather than characters. */
  function Utf16Length(s: string): (n: nat)
    ensures |s| <= n <= 2 * |s|
    ensures s != [] ==> n >= Utf16Units(s[0])
  {
    if s == [] then 0 else Utf16Units(s[0]) + Utf16Length(s[1..])
  }

  /** A string is at least two code units long exactly when it has two
      characters, or one character outside the basic multilingual plane. */
  lemma AtLeastTwoUnits(s: string)
    ensures Utf16Length(s) >= 2 <==> |s| >= 2 || (|s| == 1 && s[0] as int > 0xFFFF)
  {
    if |s| == 1 {
      assert s[1..] == [];
    }
  }

  /** `toUpperCase` on one character, for the ASCII letters. */
  function UpperAscii(c: char): (u: char)
    ensures 'a' <= c <= 'z' ==> 'A' <= u <= 'Z' && u as int == c as int - 32
    ensures !('a' <= c <= 'z') ==> u == c
  {
    if 'a' <= c <= 'z' then (c as int - 32) as char else c
  }

  /** JavaScript's `s.toUpperCase()`, restricted to ASCII letters. */
  function ToUpper(s: string): (r: string)
    ensures |r| == |s|
    ensures forall i :: 0 <= i < |s| ==> r[i] == UpperAscii(s[i])
  {
    seq(|s|, i requires 0 <= i < |s| => UpperAscii(s[i]))
  }

  /** Upper-casing changes no character's white-space class, so it keeps a trimmed
      string trimmed, and a second upper-casing changes nothing. */
  lemma ToUpperKeepsTrim(s: string)
    ensures Trim(ToUpper(Trim(s))) == ToUpper(Trim(s))
    ensures ToUpper(ToUpper(s)) == ToUpper(s)
  {
    var t := Trim(s);
    var u := ToUpper(t);
    TrimIsTrimOf(s);
    assert u == [] || (!IsJsSpace(u[0]) && !IsJsSpace(u[|u| - 1]));
    TrimOfTrimmed(u);
  }
}
