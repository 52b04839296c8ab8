/**
 * The parts of the .NET base library that the core leans on, stated exactly where the
 * core's behaviour depends on them: 32-bit integers with unchecked wrap-around, the
 * decimal text of an `int`, `string.IsNullOrEmpty`, `string.IsNullOrWhiteSpace`,
 * `string.ToUpper` (ASCII letters only) and `Enumerable.Reverse`.
 */
module Primitives {
  import opened Wrappers

  const MIN_INT32: int := -0x8000_0000
  const MAX_INT32: int := 0x7FFF_FFFF
  const TWO_POW_32: int := 0x1_0000_0000

  /** C# `int`. */
  type Int32 = x: int | -0x8000_0000 <= x <= 0x7FFF_FFFF

  /** C# `long`. */
  type Int64 = x: int | -0x8000_0000_0000_0000 <= x <= 0x7FFF_FFFF_FFFF_FFFF

  /** The value unchecked C# `int` arithmetic yields for the exact result `x`. */
  function Wrap32(x: int): (r: Int32)
    ensures MIN_INT32 <= x <= MAX_INT32 ==> r == x
    ensures (x - r) % TWO_POW_32 == 0
  {
    (x - MIN_INT32) % TWO_POW_32 + MIN_INT32
  }

  /** `x - 1` wraps only for int.MinValue, which becomes int.MaxValue. */
  lemma Wrap32Decrement(x: Int32)
    ensures x == MIN_INT32 ==> Wrap32(x - 1) == MAX_INT32
    ensures MIN_INT32 < x ==> Wrap32(x - 1) == x - 1
  {
  }

  // ---------------------------------------------------------------------------
  // Decimal text of integers (`int.ToString()`, also used by string interpolation)
  // ---------------------------------------------------------------------------

  predicate IsDigitChar(c: char) { '0' <= c <= '9' }

  /** A character that can occur in the decimal text of an integer. */
  predicate IsNumeralChar(c: char) { IsDigitChar(c) || c == '-' }

  function DigitChar(d: int): (c: char)
    requires 0 <= d < 10
    ensures IsDigitChar(c) && c as int - '0' as int == d
  {
    ('0' as int + d) as char
  }

  /** Decimal digits of a natural number, most significant first, without leading zeros. */
  function NaturalString(n: nat): (s: string)
    ensures |s| > 0
    ensures forall i :: 0 <= i < |s| ==> IsDigitChar(s[i])
    ensures n > 0 ==> s[0] != '0'
  {
    if n < 10 then [DigitChar(n)] else NaturalString(n / 10) + [DigitChar(n % 10)]
  }

  /** The text `n.ToString()` gives: a leading '-' exactly for negative numbers. */
  function IntString(n: int): (s: string)
    ensures |s| > 0
    ensures forall i :: 0 <= i < |s| ==> IsNumeralChar(s[i])
    ensures (s[0] == '-') <==> n < 0
  {
    if n < 0 then "-" + NaturalString(-n) else NaturalString(n)
  }

  /** Reference reading of a run of decimal digits. */
  function DigitsValue(s: string): int {
    if s == [] then 0 else DigitsValue(s[..|s| - 1]) * 10 + (s[|s| - 1] as int - '0' as int)
  }

  /** Reference reading of an optionally negated run of decimal digits. */
  function NumeralValue(s: string): int {
    if |s| > 0 && s[0] == '-' then -DigitsValue(s[1..]) else DigitsValue(s)
  }

  lemma {:induction false} NaturalStringRoundTrip(n: nat)
    ensures DigitsValue(NaturalString(n)) == n
  {
    var s := NaturalString(n);
    if n >= 10 {
      NaturalStringRoundTrip(n / 10);
      assert s[..|s| - 1] == NaturalString(n / 10);
    }
  }

  /** Reading back the text of an integer gives the integer. */
  lemma IntStringRoundTrip(n: int)
    ensures NumeralValue(IntString(n)) == n
  {
    var s := IntString(n);
    if n < 0 {
      NaturalStringRoundTrip(-n);
      assert s[1..] == NaturalString(-n);
    } else {
      NaturalStringRoundTrip(n);
    }
  }

  /** Distinct integers have distinct texts. */
  lemma IntStringInjective(m: int, n: int)
    requires IntString(m) == IntString(n)
    ensures m == n
  {
    IntStringRoundTrip(m);
    IntStringRoundTrip(n);
  }

  // ---------------------------------------------------------------------------
  // string predicates and transformations
  // ---------------------------------------------------------------------------

  /**
   * The characters `char.IsWhiteSpace` accepts, one by one: the space separators (U+0020,
   * U+00A0, U+1680, U+2000..U+200A, U+202F, U+205F, U+3000), the line and paragraph
   * separators (U+2028, U+2029), U+0009..U+000D and U+0085.
   */
  const WHITE_SPACE_CHARS: set<char> := {
    ' ', '\U{A0}', '\U{1680}',
    '\U{2000}', '\U{2001}', '\U{2002}', '\U{2003}', '\U{2004}', '\U{2005}',
    '\U{2006}', '\U{2007}', '\U{2008}', '\U{2009}', '\U{200A}',
    '\U{202F}', '\U{205F}', '\U{3000}', '\U{2028}', '\U{2029}',
    '\t', '\n', '\U{0B}', '\U{0C}', '\r', '\U{85}'}

  /** `char.IsWhiteSpace`, by the ranges of the Unicode categories it covers. */
  predicate IsWhiteSpace(c: char): (r: bool)
    ensures r <==> c in WHITE_SPACE_CHARS
  {
    || c == ' ' || ('\t' <= c <= '\r') || c == '\U{85}' || c == '\U{A0}' || c == '\U{1680}'
    || ('\U{2000}' <= c <= '\U{200A}') || c == '\U{2028}' || c == '\U{2029}'
    || c == '\U{202F}' || c == '\U{205F}' || c == '\U{3000}'
  }

  /** `string.IsNullOrEmpty`: null, or the empty string. */
  predicate IsNullOrEmpty(s: Option<string>): (r: bool)
    ensures r <==> s == None || s == Some("")
  {
    s.None? || |s.value| == 0
  }

  /** `string.IsNullOrWhiteSpace`: null, empty, or made of white-space characters only. */
  predicate IsNullOrWhiteSpace(s: Option<string>): (r: bool)
    ensures IsNullOrEmpty(s) ==> r
    ensures s.Some? ==> (r <==> forall c | c in s.value :: IsWhiteSpace(c))
  {
    s.None? || forall i :: 0 <= i < |s.value| ==> IsWhiteSpace(s.value[i])
  }

  predicate IsUpperLetter(c: char) { 'A' <= c <= 'Z' }

  predicate IsLowerLetter(c: char) { 'a' <= c <= 'z' }

  /** Upper-case mapping of one character (ASCII letters only). */
  function UpperChar(c: char): (u: char)
    ensures IsLowerLetter(c) ==> IsUpperLetter(u) && u as int == c as int - 32
    ensures !IsLowerLetter(c) ==> u == c
  {
    if IsLowerLetter(c) then (c as int - 32) as char else c
  }

  /** `string.ToUpper`, character by character. */
  function ToUpper(s: string): (r: string)
    ensures |r| == |s|
    ensures forall i :: 0 <= i < |s| ==> r[i] == UpperChar(s[i])
  {
    seq(|s|, i requires 0 <= i < |s| => UpperChar(s[i]))
  }

  /** Upper-casing twice is upper-casing once. */
  lemma ToUpperIdempotent(s: string)
    ensures ToUpper(ToUpper(s)) == ToUpper(s)
  {
  }

  /** A string of capitals is its own upper-case form. */
  lemma ToUpperOfCapitals(s: string)
    requires forall i :: 0 <= i < |s| ==> IsUpperLetter(s[i])
    ensures ToUpper(s) == s
  {
  }

  /** `new string(s.ToCharArray().Reverse().ToArray())`. */
  function Reversed(s: string): (r: string)
    ensures |r| == |s|
  {
    if s == [] then [] else Reversed(s[1..]) + [s[0]]
  }

  /** The character at position `i` of the reverse is the one at `|s| - 1 - i`. */
  lemma {:induction false} ReversedIndex(s: string)
    ensures forall i :: 0 <= i < |s| ==> Reversed(s)[i] == s[|s| - 1 - i]
  {
    if s != [] {
      ReversedIndex(s[1..]);
      assert forall i :: 0 <= i < |s| - 1 ==> Reversed(s)[i] == Reversed(s[1..])[i];
    }
  }

  /** Reversing a concatenation reverses the order of the parts. */
  lemma ReversedConcat(a: string, b: string)
    ensures Reversed(a + b) == Reversed(b) + Reversed(a)
  {
    ReversedIndex(a + b);
    ReversedIndex(a);
    ReversedIndex(b);
  }

  /** Texts with the same reverse are equal. */
  lemma ReversedInjective(x: string, y: string)
    requires Reversed(x) == Reversed(y)
    ensures x == y
  {
    ReversedIndex(x);
    ReversedIndex(y);
    assert forall i :: 0 <= i < |x| ==> x[i] == Reversed(x)[|x| - 1 - i];
  }

  /** Reversing `s + [c]` puts `c` first. */
  lemma {:induction false} ReversedSnoc(s: string, c: char)
    ensures Reversed(s + [c]) == [c] + Reversed(s)
  {
    if s != [] {
      assert (s + [c])[1..] == s[1..] + [c];
      ReversedSnoc(s[1..], c);
    } else {
      assert (s + [c])[1..] == [];
    }
  }

  // ---------------------------------------------------------------------------
  // Unique decomposition of concatenations
  // ---------------------------------------------------------------------------

  /** Length of the longest prefix of `s` made of characters in the run class. */
  function RunLength(inRun: char -> bool, s: string): (n: nat)
    ensures n <= |s|
  {
    if s == [] || !inRun(s[0]) then 0 else 1 + RunLength(inRun, s[1..])
  }

  lemma {:induction false} RunLengthOfConcat(inRun: char -> bool, a: string, b: string)
    requires forall i :: 0 <= i < |a| ==> inRun(a[i])
    requires b == [] || !inRun(b[0])
    ensures RunLength(inRun, a + b) == |a|
  {
    if a == [] {
      assert a + b == b;
    } else {
      assert (a + b)[0] == a[0];
      assert (a + b)[1..] == a[1..] + b;
      RunLengthOfConcat(inRun, a[1..], b);
    }
  }

  /**
   * A run of class characters followed by text that does not start with one is split
   * in exactly one way.
   */
  lemma SplitAtRunEnd(inRun: char -> bool, a1: string, b1: string, a2: string, b2: string)
    requires forall i :: 0 <= i < |a1| ==> inRun(a1[i])
    requires forall i :: 0 <= i < |a2| ==> inRun(a2[i])
    requires b1 == [] || !inRun(b1[0])
    requires b2 == [] || !inRun(b2[0])
    requires a1 + b1 == a2 + b2
    ensures a1 == a2 && b1 == b2
  {
    RunLengthOfConcat(inRun, a1, b1);
    RunLengthOfConcat(inRun, a2, b2);
    var s := a1 + b1;
    assert a1 == s[..|a1|] && b1 == s[|a1|..];
    assert a2 == s[..|a2|] && b2 == s[|a2|..];
  }

  /** Equal strings with equal prefixes have equal remainders. */
  lemma DropCommonPrefix(p: string, x: string, y: string)
    requires p + x == p + y
    ensures x == y
  {
    assert x == (p + x)[|p|..];
    assert y == (p + y)[|p|..];
  }
}
