/**
 * Spreadsheet column letters: the bijective base-26 numeral system in which the digits
 * 'A'..'Z' stand for 1..26 and there is no zero digit (26 is "Z", 27 is "AA").
 * `LettersFromColumnID` and `ColumnIDFromLetters` specify the two static conversions of
 * SheetRange, including the effect of C#'s 32-bit wrap-around on them.
 */
module ColumnLetters {
  import opened Primitives

  /** The capital for digit value `d + 1`: 0 gives 'A', 25 gives 'Z' (the `aToZ` list). */
  function Letter(d: int): (c: char)
    requires 0 <= d < 26
    ensures IsUpperLetter(c) && c as int - 'A' as int == d
  {
    ('A' as int + d) as char
  }

  /** The digit value `(int)c - 'A' + 1` that GetColumnIDFromLetters adds for a character. */
  function DigitValue(c: char): int {
    c as int - 'A' as int + 1
  }

  predicate AllCapitals(s: string) {
    forall i :: 0 <= i < |s| ==> IsUpperLetter(s[i])
  }

  /** Column `n` in letters, most significant letter first; column 0 is the empty string. */
  function Letters(n: nat): (s: string)
    ensures (|s| > 0) <==> n >= 1
    ensures AllCapitals(s)
  {
    if n == 0 then "" else Letters((n - 1) / 26) + [Letter((n - 1) % 26)]
  }

  /** Exact value of a letter run read left to right, each digit worth `DigitValue`. */
  function LettersValue(s: string): int {
    if s == [] then 0 else LettersValue(s[..|s| - 1]) * 26 + DigitValue(s[|s| - 1])
  }

  /** The value accumulated when every `result *= 26` and `result += digit` wraps to 32 bits. */
  function WrappedValue(s: string): Int32 {
    if s == [] then 0
    else Wrap32(Wrap32(WrappedValue(s[..|s| - 1]) * 26) + DigitValue(s[|s| - 1]))
  }

  /**
   * What GetLettersFromColumnID returns. Positive ids give their letters and the other ids
   * give "", except int.MinValue: `columnID - 1` wraps to int.MaxValue, so the loop runs
   * and produces the letters of 2^31.
   */
  function LettersFromColumnID(columnID: Int32): (s: string)
    ensures AllCapitals(s)
    ensures (s != "") <==> (columnID >= 1 || columnID == MIN_INT32)
  {
    if columnID >= 1 then Letters(columnID)
    else if columnID == MIN_INT32 then Letters(-MIN_INT32)
    else ""
  }

  /**
   * What GetColumnIDFromLetters returns: the wrapped value of the upper-cased text, which
   * is the exact base-26 value for a run of ASCII letters whose value fits an int.
   */
  function ColumnIDFromLetters(letters: string): (id: Int32)
    ensures AllCapitals(ToUpper(letters)) && LettersValue(ToUpper(letters)) <= MAX_INT32
      ==> id == LettersValue(ToUpper(letters))
  {
    var upper := ToUpper(letters);
    WrappedValueExact(upper);
    WrappedValue(upper)
  }

  // ---------------------------------------------------------------------------
  // Bijective base 26
  // ---------------------------------------------------------------------------

  /** The letters of `n >= 1` are its quotient's letters followed by one more capital. */
  lemma LettersLast(n: nat)
    requires n >= 1
    ensures Letters(n)[..|Letters(n)| - 1] == Letters((n - 1) / 26)
    ensures Letters(n)[|Letters(n)| - 1] == Letter((n - 1) % 26)
  {
  }

  /** Reading the letters of a column gives the column back. */
  lemma {:induction false} LettersValueOfLetters(n: nat)
    ensures LettersValue(Letters(n)) == n
  {
    if n >= 1 {
      LettersLast(n);
      LettersValueOfLetters((n - 1) / 26);
    }
  }

  /** A run of capitals has a non-negative value that is at least its prefix's value. */
  lemma {:induction false} LettersValueMonotone(s: string)
    requires AllCapitals(s)
    ensures LettersValue(s) >= 0
    ensures s != [] ==> LettersValue(s) >= 1 && LettersValue(s) >= LettersValue(s[..|s| - 1])
  {
    if s != [] {
      LettersValueMonotone(s[..|s| - 1]);
    }
  }

  lemma DivMod26(q: int, r: int)
    requires 0 <= r < 26
    ensures (q * 26 + r) / 26 == q && (q * 26 + r) % 26 == r
  {
  }

  /** Every non-empty run of capitals is the letters of its value: the system is bijective. */
  lemma {:induction false} LettersOfLettersValue(s: string)
    requires AllCapitals(s)
    ensures LettersValue(s) >= 0 && Letters(LettersValue(s)) == s
  {
    LettersValueMonotone(s);
    if s != [] {
      var p, c := s[..|s| - 1], s[|s| - 1];
      assert AllCapitals(p);
      LettersValueMonotone(p);
      LettersOfLettersValue(p);
      var v := LettersValue(s);
      DivMod26(LettersValue(p), DigitValue(c) - 1);
      assert (v - 1) / 26 == LettersValue(p) && (v - 1) % 26 == DigitValue(c) - 1;
      assert Letter(DigitValue(c) - 1) == c;
      assert s == p + [c];
    }
  }

  /** As long as the run's value fits an int, no step of the accumulation wraps. */
  lemma {:induction false} WrappedValueExact(s: string)
    ensures AllCapitals(s) && LettersValue(s) <= MAX_INT32 ==> WrappedValue(s) == LettersValue(s)
  {
    if s != [] && AllCapitals(s) && LettersValue(s) <= MAX_INT32 {
      var p := s[..|s| - 1];
      assert AllCapitals(p);
      LettersValueMonotone(s);
      LettersValueMonotone(p);
      WrappedValueExact(p);
    }
  }

  /** The letters still to be produced while GetLettersFromColumnID's `block` is `b`. */
  function BlockLetters(b: int): string {
    if b >= 0 then Letters(b + 1) else ""
  }

  /** Before the loop, `block` is `columnID - 1` wrapped to 32 bits. */
  lemma BlockLettersStart(columnID: Int32)
    ensures LettersFromColumnID(columnID) == BlockLetters(Wrap32(columnID - 1))
  {
    Wrap32Decrement(columnID);
  }

  /**
   * One loop step appends the letter of `b % 26` to the reversed letters and continues
   * with `b / 26 - 1`, keeping "letters still to come, then the reversed letters so far".
   */
  lemma BlockLettersStep(b: int, reversedLetters: string)
    requires b >= 0
    ensures BlockLetters(b) + Reversed(reversedLetters)
      == BlockLetters(b / 26 - 1) + Reversed(reversedLetters + [Letter(b % 26)])
  {
    var d := Letter(b % 26);
    LettersLast(b + 1);
    assert Letters(b + 1) == Letters(b / 26) + [d];
    assert BlockLetters(b / 26 - 1) == Letters(b / 26);
    ReversedSnoc(reversedLetters, d);
    assert BlockLetters(b / 26 - 1) + ([d] + Reversed(reversedLetters))
      == (Letters(b / 26) + [d]) + Reversed(reversedLetters);
  }

  // ---------------------------------------------------------------------------
  // The two conversions
  // ---------------------------------------------------------------------------

  /** Converting a column id to letters and back gives the id, for every positive int. */
  lemma ColumnIDRoundTrip(columnID: Int32)
    requires columnID >= 1
    ensures ColumnIDFromLetters(LettersFromColumnID(columnID)) == columnID
  {
    var s := Letters(columnID);
    ToUpperOfCapitals(s);
    LettersValueOfLetters(columnID);
    WrappedValueExact(s);
  }

  /**
   * Converting a run of ASCII letters of either case to an id and back gives its
   * upper-case form, for every run whose value fits an int.
   */
  lemma LettersRoundTrip(letters: string)
    requires letters != []
    requires forall i :: 0 <= i < |letters| ==> IsUpperLetter(letters[i]) || IsLowerLetter(letters[i])
    requires LettersValue(ToUpper(letters)) <= MAX_INT32
    ensures ColumnIDFromLetters(letters) >= 1
    ensures LettersFromColumnID(ColumnIDFromLetters(letters)) == ToUpper(letters)
  {
    var u := ToUpper(letters);
    assert AllCapitals(u);
    WrappedValueExact(u);
    LettersValueMonotone(u);
    LettersOfLettersValue(u);
  }

  /** Distinct positive column ids have distinct letters. */
  lemma LettersInjective(m: Int32, n: Int32)
    requires m >= 1 && n >= 1
    requires LettersFromColumnID(m) == LettersFromColumnID(n)
    ensures m == n
  {
    ColumnIDRoundTrip(m);
    ColumnIDRoundTrip(n);
  }

  /** Reading letters ignores case: a lower-case run decodes like its upper-case form. */
  lemma ColumnIDIgnoresCase(letters: string)
    ensures ColumnIDFromLetters(letters) == ColumnIDFromLetters(ToUpper(letters))
  {
    ToUpperIdempotent(letters);
  }

  /** Sample columns, including the wrap-around of int.MinValue. */
  lemma LettersExamples()
    ensures LettersFromColumnID(1) == "A"
    ensures LettersFromColumnID(26) == "Z"
    ensures LettersFromColumnID(27) == "AA"
    ensures LettersFromColumnID(702) == "ZZ"
    ensures LettersFromColumnID(703) == "AAA"
    ensures LettersFromColumnID(18278) == "ZZZ"
    ensures LettersFromColumnID(0) == "" && LettersFromColumnID(-1) == ""
  {
    assert Letters(1) == "A";
    assert Letters(26) == "Z";
    assert Letters(27) == "AA";
    assert Letters(702) == "ZZ";
    assert Letters(703) == "AAA";
    assert Letters(18278) == "ZZZ";
  }

  /** int.MaxValue is column "FXSHRXW". */
  lemma LettersOfMaxInt32()
    ensures LettersFromColumnID(MAX_INT32) == "FXSHRXW"
  {
    LettersOfFXSHRX();
    var n: nat := 2147483647;
    assert (n - 1) / 26 == 82595524 && (n - 1) % 26 == 22;
    assert Letter(22) == 'W';
    assert Letters(n) == Letters(82595524) + [Letter(22)];
  }

  /** int.MinValue wraps around to the column after int.MaxValue, "FXSHRXX". */
  lemma LettersOfMinInt32()
    ensures LettersFromColumnID(MIN_INT32) == "FXSHRXX"
  {
    LettersOfFXSHRX();
    var n: nat := 2147483648;
    assert (n - 1) / 26 == 82595524 && (n - 1) % 26 == 23;
    assert Letter(23) == 'X';
    assert Letters(n) == Letters(82595524) + [Letter(23)];
  }

  lemma LettersOfFXSHRX()
    ensures Letters(82595524) == "FXSHRX"
  {
    assert Letters(6) == "F";
    assert Letters(180) == Letters(6) + "X";
    assert Letters(4699) == Letters(180) + "S";
    assert Letters(122182) == Letters(4699) + "H";
    assert Letters(3176750) == Letters(122182) + "R";
    assert Letters(82595524) == Letters(3176750) + "X";
  }
}
