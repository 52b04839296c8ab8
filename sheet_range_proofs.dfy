/**
 * What the renderings of a SheetRange determine, and what `Equals` and the hash inputs
 * of ranges built by the coordinate constructor amount to.
 */
module SheetRangeProofs {
  import opened Wrappers
  import opened Primitives
  import opened ColumnLetters
  import opened SheetRanges

  predicate AllNumeral(s: string) {
    forall i :: 0 <= i < |s| ==> IsNumeralChar(s[i])
  }

  /** The text of an integer is a non-empty run of numeral characters. */
  lemma IntStringShape(n: int)
    ensures IntString(n) != [] && AllNumeral(IntString(n))
    ensures '!' !in IntString(n) && ':' !in IntString(n)
  {
    var s := IntString(n);
    assert forall i :: 0 <= i < |s| ==> s[i] != '!' && s[i] != ':';
  }

  lemma LettersShape(columnID: Int32)
    ensures AllCapitals(LettersFromColumnID(columnID))
    ensures '!' !in LettersFromColumnID(columnID)
  {
    var s := LettersFromColumnID(columnID);
    assert forall i :: 0 <= i < |s| ==> s[i] != '!';
  }

  // ---------------------------------------------------------------------------
  // The tab prefix
  // ---------------------------------------------------------------------------

  /**
   * With bodies free of '!', the last '!' is where the tab name ends, so the tab name and
   * the body can be read back whatever the tab name contains.
   */
  lemma TabPrefixSplit(t1: string, b1: string, t2: string, b2: string)
    requires '!' !in b1 && '!' !in b2
    requires TabPrefix(t1) + b1 == TabPrefix(t2) + b2
    ensures t1 == t2 && b1 == b2
  {
    var p1, p2 := TabPrefix(t1), TabPrefix(t2);
    ReversedConcat(p1, b1);
    ReversedConcat(p2, b2);
    ReversedIndex(b1);
    ReversedIndex(b2);
    ReversedIndex(p1);
    ReversedIndex(p2);
    var notBang := (c: char) => c != '!';
    assert forall i :: 0 <= i < |b1| ==> notBang(Reversed(b1)[i]) by {
      forall i | 0 <= i < |b1| ensures notBang(Reversed(b1)[i]) {
        assert b1[|b1| - 1 - i] in b1;
      }
    }
    assert forall i :: 0 <= i < |b2| ==> notBang(Reversed(b2)[i]) by {
      forall i | 0 <= i < |b2| ensures notBang(Reversed(b2)[i]) {
        assert b2[|b2| - 1 - i] in b2;
      }
    }
    SplitAtRunEnd(notBang, Reversed(b1), Reversed(p1), Reversed(b2), Reversed(p2));
    ReversedInjective(b1, b2);
    ReversedInjective(p1, p2);
    if t1 != "" {
      assert |p2| == |p1| > 0;
      assert t1 == p1[..|p1| - 1] && t2 == p2[..|p2| - 1];
    }
  }

  // ---------------------------------------------------------------------------
  // R1C1 notation
  // ---------------------------------------------------------------------------

  /** `:R{endRow}C{endColumn}` when both ends are known, nothing otherwise. */
  function R1C1Tail(c: Coordinates): string {
    if HasBothEnds(c) then ":R" + (IntString(c.endRow.value) + ("C" + IntString(c.endColumn.value))) else ""
  }

  lemma R1C1BodyParts(c: Coordinates)
    ensures R1C1Body(c) == "R" + (IntString(c.startRow) + ("C" + (IntString(c.startColumn) + R1C1Tail(c))))
    ensures '!' !in R1C1Body(c)
  {
    IntStringShape(c.startRow);
    IntStringShape(c.startColumn);
    if HasBothEnds(c) {
      IntStringShape(c.endRow.value);
      IntStringShape(c.endColumn.value);
    }
  }

  /** Two numerals each followed by text that does not start with a numeral character. */
  lemma SplitNumeral(m: int, rest1: string, n: int, rest2: string)
    requires rest1 == [] || !IsNumeralChar(rest1[0])
    requires rest2 == [] || !IsNumeralChar(rest2[0])
    requires IntString(m) + rest1 == IntString(n) + rest2
    ensures m == n && rest1 == rest2
  {
    IntStringShape(m);
    IntStringShape(n);
    SplitAtRunEnd(IsNumeralChar, IntString(m), rest1, IntString(n), rest2);
    IntStringInjective(m, n);
  }

  /** The R1C1 body gives back the start cell, whether both ends are known, and then the end cell. */
  lemma R1C1BodyDetermines(c1: Coordinates, c2: Coordinates)
    requires R1C1Body(c1) == R1C1Body(c2)
    ensures c1.startRow == c2.startRow && c1.startColumn == c2.startColumn
    ensures HasBothEnds(c1) <==> HasBothEnds(c2)
    ensures HasBothEnds(c1) ==> c1.endRow == c2.endRow && c1.endColumn == c2.endColumn
  {
    R1C1BodyParts(c1);
    R1C1BodyParts(c2);
    var tail1, tail2 := R1C1Tail(c1), R1C1Tail(c2);
    DropCommonPrefix("R", IntString(c1.startRow) + ("C" + (IntString(c1.startColumn) + tail1)),
      IntString(c2.startRow) + ("C" + (IntString(c2.startColumn) + tail2)));
    SplitNumeral(c1.startRow, "C" + (IntString(c1.startColumn) + tail1),
      c2.startRow, "C" + (IntString(c2.startColumn) + tail2));
    DropCommonPrefix("C", IntString(c1.startColumn) + tail1, IntString(c2.startColumn) + tail2);
    SplitNumeral(c1.startColumn, tail1, c2.startColumn, tail2);
    assert (tail1 != "") <==> HasBothEnds(c1);
    assert (tail2 != "") <==> HasBothEnds(c2);
    if HasBothEnds(c1) {
      var end1 := IntString(c1.endRow.value) + ("C" + IntString(c1.endColumn.value));
      var end2 := IntString(c2.endRow.value) + ("C" + IntString(c2.endColumn.value));
      DropCommonPrefix(":R", end1, end2);
      SplitNumeral(c1.endRow.value, "C" + IntString(c1.endColumn.value),
        c2.endRow.value, "C" + IntString(c2.endColumn.value));
      DropCommonPrefix("C", IntString(c1.endColumn.value), IntString(c2.endColumn.value));
      IntStringInjective(c1.endColumn.value, c2.endColumn.value);
    }
  }

  /**
   * R1C1 notation determines the tab name and the start cell,
   * and the end cell exactly when both ends are known. A range with an end column but no
   * end row renders like a single cell.
   */
  lemma R1C1TextDetermines(c1: Coordinates, c2: Coordinates)
    requires R1C1Text(c1) == R1C1Text(c2)
    ensures c1.tabName == c2.tabName
    ensures c1.startRow == c2.startRow && c1.startColumn == c2.startColumn
    ensures HasBothEnds(c1) <==> HasBothEnds(c2)
    ensures HasBothEnds(c1) ==> c1 == c2
  {
    R1C1BodyParts(c1);
    R1C1BodyParts(c2);
    TabPrefixSplit(c1.tabName, R1C1Body(c1), c2.tabName, R1C1Body(c2));
    R1C1BodyDetermines(c1, c2);
  }

  // ---------------------------------------------------------------------------
  // A1 notation
  // ---------------------------------------------------------------------------

  lemma A1BodyParts(c: Coordinates)
    requires c.endColumn.Some?
    ensures A1Body(c) == LettersFromColumnID(c.startColumn)
      + (IntString(c.startRow) + (":" + (LettersFromColumnID(c.endColumn.value) + OptionalIntString(c.endRow))))
    ensures '!' !in A1Body(c)
  {
    IntStringShape(c.startRow);
    LettersShape(c.startColumn);
    LettersShape(c.endColumn.value);
    if c.endRow.Some? {
      IntStringShape(c.endRow.value);
    }
  }

  /** Two column letter runs each followed by text that does not start with a capital. */
  lemma SplitLetters(m: Int32, rest1: string, n: Int32, rest2: string)
    requires m >= 1 && n >= 1
    requires rest1 == [] || !IsUpperLetter(rest1[0])
    requires rest2 == [] || !IsUpperLetter(rest2[0])
    requires LettersFromColumnID(m) + rest1 == LettersFromColumnID(n) + rest2
    ensures m == n && rest1 == rest2
  {
    LettersShape(m);
    LettersShape(n);
    SplitAtRunEnd(IsUpperLetter, LettersFromColumnID(m), rest1, LettersFromColumnID(n), rest2);
    LettersInjective(m, n);
  }

  /** For positive columns the A1 body gives back every coordinate, the end row included. */
  lemma A1BodyDetermines(c1: Coordinates, c2: Coordinates)
    requires c1.endColumn.Some? && c2.endColumn.Some?
    requires c1.startColumn >= 1 && c1.endColumn.value >= 1
    requires c2.startColumn >= 1 && c2.endColumn.value >= 1
    requires A1Body(c1) == A1Body(c2)
    ensures c1.startColumn == c2.startColumn && c1.startRow == c2.startRow
    ensures c1.endColumn == c2.endColumn && c1.endRow == c2.endRow
  {
    A1BodyParts(c1);
    A1BodyParts(c2);
    var end1, end2 := OptionalIntString(c1.endRow), OptionalIntString(c2.endRow);
    var rest1 := LettersFromColumnID(c1.endColumn.value) + end1;
    var rest2 := LettersFromColumnID(c2.endColumn.value) + end2;
    IntStringShape(c1.startRow);
    IntStringShape(c2.startRow);
    SplitLetters(c1.startColumn, IntString(c1.startRow) + (":" + rest1),
      c2.startColumn, IntString(c2.startRow) + (":" + rest2));
    SplitNumeral(c1.startRow, ":" + rest1, c2.startRow, ":" + rest2);
    DropCommonPrefix(":", rest1, rest2);
    if c1.endRow.Some? { IntStringShape(c1.endRow.value); }
    if c2.endRow.Some? { IntStringShape(c2.endRow.value); }
    SplitLetters(c1.endColumn.value, end1, c2.endColumn.value, end2);
    assert (end1 != "") <==> c1.endRow.Some?;
    assert (end2 != "") <==> c2.endRow.Some?;
    if c1.endRow.Some? {
      IntStringInjective(c1.endRow.value, c2.endRow.value);
    }
  }

  /**
   * For positive columns, A1 notation (when there is one)
   * determines all five coordinates.
   */
  lemma A1TextDetermines(c1: Coordinates, c2: Coordinates)
    requires c1.startColumn >= 1 && c2.startColumn >= 1
    requires c1.endColumn.Some? ==> c1.endColumn.value >= 1
    requires c2.endColumn.Some? ==> c2.endColumn.value >= 1
    requires A1Text(c1).Some? && A1Text(c1) == A1Text(c2)
    ensures c1 == c2
  {
    A1BodyParts(c1);
    A1BodyParts(c2);
    TabPrefixSplit(c1.tabName, A1Body(c1), c2.tabName, A1Body(c2));
    A1BodyDetermines(c1, c2);
  }

  lemma IntStringOfTen()
    ensures IntString(10) == "10"
  {
    assert NaturalString(10) == NaturalString(1) + [DigitChar(0)];
  }

  /** A two-cell range on a named tab renders as "Sheet1!R2C2:R10C4". */
  lemma RangeOnTabR1C1Example()
    ensures R1C1Text(Coordinates("Sheet1", 2, 2, Some(4), Some(10))) == "Sheet1!R2C2:R10C4"
  {
    IntStringOfTen();
    assert IntString(2) == "2" && IntString(4) == "4";
    assert R1C1Body(Coordinates("Sheet1", 2, 2, Some(4), Some(10))) == "R2C2:R10C4";
    assert TabPrefix("Sheet1") + "R2C2:R10C4" == "Sheet1!R2C2:R10C4";
  }

  /** The same range in A1 notation is "Sheet1!B2:D10". */
  lemma RangeOnTabA1Example()
    ensures A1Text(Coordinates("Sheet1", 2, 2, Some(4), Some(10))) == Some("Sheet1!B2:D10")
  {
    var c := Coordinates("Sheet1", 2, 2, Some(4), Some(10));
    SmallColumnLetters();
    IntStringOfTen();
    assert IntString(2) == "2";
    // The steps below only spell out the literal concatenations for the solver.
    assert A1Body(c) == "B" + "2" + ":" + "D" + "10";
    assert A1Body(c) == "B2:D10";
    assert TabPrefix("Sheet1") == "Sheet1!";
    assert A1Text(c) == Some(TabPrefix("Sheet1") + A1Body(c));
    assert "Sheet1!" + "B2:D10" == "Sheet1!B2:D10";
  }

  lemma SmallColumnLetters()
    ensures LettersFromColumnID(1) == "A" && LettersFromColumnID(2) == "B" && LettersFromColumnID(4) == "D"
  {
    assert Letters(0) == "";
    assert Letter(0) == 'A' && Letter(1) == 'B' && Letter(3) == 'D';
    assert Letters(1) == Letters(0) + [Letter(0)];
    assert Letters(2) == Letters(0) + [Letter(1)];
    assert Letters(4) == Letters(0) + [Letter(3)];
  }

  /** A single cell without a tab: "R5C3" and no A1 notation. */
  lemma SingleCellExample()
    ensures R1C1Text(Coordinates("", 3, 5, None, None)) == "R5C3"
    ensures A1Text(Coordinates("", 3, 5, None, None)) == None
  {
    assert IntString(5) == "5" && IntString(3) == "3";
  }

  /** An end column without an end row: R1C1 shows one cell, A1 ends in the column letters. */
  lemma EndColumnOnlyExample()
    ensures R1C1Text(Coordinates("", 1, 1, Some(2), None)) == "R1C1"
    ensures A1Text(Coordinates("", 1, 1, Some(2), None)) == Some("A1:B")
  {
    assert IntString(1) == "1";
    SmallColumnLetters();
    assert A1Body(Coordinates("", 1, 1, Some(2), None)) == "A1:B";
    assert TabPrefix("") + "A1:B" == "A1:B";
  }

  // ---------------------------------------------------------------------------
  // Equals and GetHashCode
  // ---------------------------------------------------------------------------

  /** Equal ranges feed the same five values to the hash. */
  lemma EqualsImpliesSameHashInputs(a: SheetRange, b: SheetRange)
    requires a.Equals(b)
    ensures a.HashInputs() == b.HashInputs()
  {
  }

  /** For ranges built by the coordinate constructor, `Equals` compares the coordinates alone. */
  lemma ConsistentEqualsIffSameCoordinates(a: SheetRange, b: SheetRange)
    requires a.Consistent() && b.Consistent()
    ensures a.Equals(b) <==> a.Coords() == b.Coords()
  {
  }

  /** Two constructed ranges whose R1C1 notations span two cells are equal when the notations are. */
  lemma SameR1C1NotationEqual(a: SheetRange, b: SheetRange)
    requires a.Consistent() && b.Consistent()
    requires HasBothEnds(a.Coords())
    requires a.R1C1Notation == b.R1C1Notation
    ensures a.Equals(b)
  {
    R1C1TextDetermines(a.Coords(), b.Coords());
  }

  /** Two constructed ranges with positive columns are equal when their A1 notations are. */
  lemma SameA1NotationEqual(a: SheetRange, b: SheetRange)
    requires a.Consistent() && b.Consistent()
    requires a.StartColumn >= 1 && b.StartColumn >= 1
    requires a.EndColumn.Some? ==> a.EndColumn.value >= 1
    requires b.EndColumn.Some? ==> b.EndColumn.value >= 1
    requires a.A1Notation.Some? && a.A1Notation == b.A1Notation
    ensures a.Equals(b)
  {
    A1TextDetermines(a.Coords(), b.Coords());
  }

  // ---------------------------------------------------------------------------
  // The string constructor
  // ---------------------------------------------------------------------------

  /** When the R1C1 recogniser accepts, the A1 recogniser and converter play no part. */
  lemma R1C1TakesPrecedence(parser: RangeParser, other: RangeParser, rangeValue: string)
    requires parser.isValidR1C1Notation(rangeValue)
    requires other.isValidR1C1Notation == parser.isValidR1C1Notation
    requires other.convertFromR1C1Notation == parser.convertFromR1C1Notation
    ensures ParseRangeValue(other, rangeValue) == ParseRangeValue(parser, rangeValue)
  {
  }
}
