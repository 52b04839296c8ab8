/**
 * SheetRange: a range of a Google Sheets tab, held as its coordinates together with two
 * renderings computed when it is built, R1C1 notation ("Sheet1!R2C2:R10C4") and A1
 * notation ("Sheet1!B2:D10").
 */
module SheetRanges {
  import opened Wrappers
  import opened Primitives
  import opened ColumnLetters

  /** The stored coordinates of a range: 1-based columns and rows, the tab name after `?? ""`. */
  datatype Coordinates = Coordinates(
    tabName: string,
    startColumn: Int32,
    startRow: Int32,
    endColumn: Option<Int32>,
    endRow: Option<Int32>)

  /** The nine values a SheetRange holds, the ones `Equals` compares. */
  datatype RangeState = RangeState(
    a1Notation: Option<string>,
    r1c1Notation: string,
    canSupportA1Notation: bool,
    isSingleCellRange: bool,
    startColumn: Int32,
    startRow: Int32,
    endColumn: Option<Int32>,
    endRow: Option<Int32>,
    tabName: string)

  /** `{tab}!` in front of a rendering when the tab name is not null or empty. */
  function TabPrefix(tabName: string): string {
    if tabName == "" then "" else tabName + "!"
  }

  /** Interpolation of an `int?`: its digits, or nothing for null. */
  function OptionalIntString(n: Option<Int32>): string {
    match n
    case Some(v) => IntString(v)
    case None => ""
  }

  predicate HasBothEnds(c: Coordinates) {
    c.endRow.Some? && c.endColumn.Some?
  }

  /** `R{row}C{col}`, followed by `:R{endRow}C{endColumn}` only when both ends are known. */
  function R1C1Body(c: Coordinates): string {
    if HasBothEnds(c) then
      "R" + IntString(c.startRow) + "C" + IntString(c.startColumn)
        + ":R" + IntString(c.endRow.value) + "C" + IntString(c.endColumn.value)
    else "R" + IntString(c.startRow) + "C" + IntString(c.startColumn)
  }

  /** The R1C1 rendering. */
  function R1C1Text(c: Coordinates): string {
    TabPrefix(c.tabName) + R1C1Body(c)
  }

  /**
   * The A1 rendering, which exists only when the end column is known. A missing end row
   * interpolates as nothing, so the text then ends in the end column's letters.
   */
  function A1Text(c: Coordinates): Option<string> {
    if c.endColumn.Some? then Some(TabPrefix(c.tabName) + A1Body(c)) else None
  }

  /** `{startLetters}{startRow}:{endLetters}{endRow}`. */
  function A1Body(c: Coordinates): string
    requires c.endColumn.Some?
  {
    LettersFromColumnID(c.startColumn) + IntString(c.startRow) + ":"
      + LettersFromColumnID(c.endColumn.value) + OptionalIntString(c.endRow)
  }

  /** The state the coordinate constructor builds from its coordinates. */
  function Derived(c: Coordinates): RangeState {
    RangeState(A1Text(c), R1C1Text(c), c.endColumn.Some?, !HasBothEnds(c),
      c.startColumn, c.startRow, c.endColumn, c.endRow, c.tabName)
  }

  /** A string constructor failure: `ArgumentException("rangeValue: … is not a valid range!")`. */
  datatype RangeError = InvalidRange(rangeValue: string)

  /**
   * The recognisers and converters of SheetRangeParser, which is not part of this model:
   * they are left as arbitrary functions, and a converter's result is given as the nine
   * values of the range it returns.
   */
  datatype RangeParser = RangeParser(
    isValidR1C1Notation: string -> bool,
    convertFromR1C1Notation: string -> RangeState,
    isValidA1Notation: string -> bool,
    convertFromA1Notation: string -> RangeState)

  /** The string constructor's dispatch: R1C1 is tried first, then A1, otherwise it throws. */
  function ParseRangeValue(parser: RangeParser, rangeValue: string): (r: Result<RangeState, RangeError>)
    ensures r.Success? <==> parser.isValidR1C1Notation(rangeValue) || parser.isValidA1Notation(rangeValue)
    ensures parser.isValidR1C1Notation(rangeValue) ==> r == Success(parser.convertFromR1C1Notation(rangeValue))
    ensures !parser.isValidR1C1Notation(rangeValue) && parser.isValidA1Notation(rangeValue)
      ==> r == Success(parser.convertFromA1Notation(rangeValue))
    ensures r.Failure? ==> r.error == InvalidRange(rangeValue)
  {
    if parser.isValidR1C1Notation(rangeValue) then Success(parser.convertFromR1C1Notation(rangeValue))
    else if parser.isValidA1Notation(rangeValue) then Success(parser.convertFromA1Notation(rangeValue))
    else Failure(InvalidRange(rangeValue))
  }

  class SheetRange {
    var A1Notation: Option<string>
    var R1C1Notation: string
    var CanSupportA1Notation: bool
    var IsSingleCellRange: bool
    var StartColumn: Int32
    var StartRow: Int32
    var EndColumn: Option<Int32>
    var EndRow: Option<Int32>
    var TabName: string

    function State(): RangeState
      reads this
    {
      RangeState(A1Notation, R1C1Notation, CanSupportA1Notation, IsSingleCellRange,
        StartColumn, StartRow, EndColumn, EndRow, TabName)
    }

    function Coords(): Coordinates
      reads this
    {
      Coordinates(TabName, StartColumn, StartRow, EndColumn, EndRow)
    }

    /** The renderings and flags are the ones the coordinate constructor derives from the coordinates. */
    predicate Consistent()
      reads this
    {
      State() == Derived(Coords())
    }

    /** The coordinate constructor (row and column numbers are 1-based). */
    constructor (tabName: Option<string>, startColumn: Int32, startRow: Int32,
                 endColumn: Option<Int32>, endRow: Option<Int32>)
      ensures Coords() == Coordinates(tabName.GetOr(""), startColumn, startRow, endColumn, endRow)
      ensures R1C1Notation == R1C1Text(Coords())
      ensures A1Notation == A1Text(Coords())
      ensures CanSupportA1Notation == endColumn.Some?
      ensures IsSingleCellRange == (endRow.None? || endColumn.None?)
      ensures Consistent()
    {
      ghost var c := Coordinates(tabName.GetOr(""), startColumn, startRow, endColumn, endRow);
      var r1c1: string;
      var a1: Option<string> := None;
      var canSupportA1 := false;
      var isSingleCell := false;
      if endRow.Some? && endColumn.Some? {
        r1c1 := "R" + IntString(startRow) + "C" + IntString(startColumn)
          + ":R" + IntString(endRow.value) + "C" + IntString(endColumn.value);
      } else {
        r1c1 := "R" + IntString(startRow) + "C" + IntString(startColumn);
        isSingleCell := true;
      }
      assert r1c1 == R1C1Body(c);
      if !IsNullOrEmpty(tabName) {
        r1c1 := tabName.value + "!" + r1c1;
      } else {
        assert TabPrefix(c.tabName) + R1C1Body(c) == R1C1Body(c);
      }
      if endColumn.Some? {
        canSupportA1 := true;
        isSingleCell := !endRow.Some?;
        var startLetters := GetLettersFromColumnID(startColumn);
        var endLetters := GetLettersFromColumnID(endColumn.value);
        var a1Text := startLetters + IntString(startRow) + ":" + endLetters + OptionalIntString(endRow);
        assert a1Text == A1Body(c);
        if !IsNullOrEmpty(tabName) {
          a1Text := tabName.value + "!" + a1Text;
        } else {
          assert TabPrefix(c.tabName) + A1Body(c) == A1Body(c);
        }
        a1 := Some(a1Text);
      }
      R1C1Notation := r1c1;
      A1Notation := a1;
      CanSupportA1Notation := canSupportA1;
      IsSingleCellRange := isSingleCell;
      StartColumn := startColumn;
      StartRow := startRow;
      EndRow := endRow;
      EndColumn := endColumn;
      TabName := tabName.GetOr("");
    }

    /** The copy the string constructor makes of the range the parser returned. */
    constructor FromState(range: RangeState)
      ensures State() == range
    {
      TabName := range.tabName;
      StartRow := range.startRow;
      EndRow := range.endRow;
      StartColumn := range.startColumn;
      EndColumn := range.endColumn;
      A1Notation := range.a1Notation;
      R1C1Notation := range.r1c1Notation;
      CanSupportA1Notation := range.canSupportA1Notation;
      IsSingleCellRange := range.isSingleCellRange;
    }

    /** The string constructor: the parsed range, or the exception it throws. */
    static method FromRangeValue(parser: RangeParser, rangeValue: string)
      returns (r: Result<SheetRange, RangeError>)
      ensures r.Failure? <==> ParseRangeValue(parser, rangeValue).Failure?
      ensures r.Failure? ==> r.error == InvalidRange(rangeValue)
      ensures r.Success? ==> fresh(r.value) && r.value.State() == ParseRangeValue(parser, rangeValue).value
    {
      var range: RangeState;
      if parser.isValidR1C1Notation(rangeValue) {
        range := parser.convertFromR1C1Notation(rangeValue);
      } else if parser.isValidA1Notation(rangeValue) {
        range := parser.convertFromA1Notation(rangeValue);
      } else {
        return Failure(InvalidRange(rangeValue));
      }
      var copy := new SheetRange.FromState(range);
      return Success(copy);
    }

    /** Column id (1-based) to letters: a digit loop followed by a reverse. */
    static method GetLettersFromColumnID(columnID: Int32) returns (letters: string)
      ensures letters == LettersFromColumnID(columnID)
    {
      var block: int := Wrap32(columnID - 1);
      var reversedLetters := "";
      BlockLettersStart(columnID);
      while block >= 0
        invariant LettersFromColumnID(columnID) == BlockLetters(block) + Reversed(reversedLetters)
        decreases block
      {
        BlockLettersStep(block, reversedLetters);
        reversedLetters := reversedLetters + [Letter(block % 26)];
        block := block / 26 - 1;
      }
      letters := Reversed(reversedLetters);
    }

    /** Letters (either case) to a 1-based column id, accumulated left to right. */
    static method GetColumnIDFromLetters(letters: string) returns (result: Int32)
      ensures result == ColumnIDFromLetters(letters)
    {
      result := 0;
      var upper := ToUpper(letters);
      for i := 0 to |upper|
        invariant result == WrappedValue(upper[..i])
      {
        assert upper[..i + 1][..i] == upper[..i];
        var currentLetterNumber := upper[i] as int;
        result := Wrap32(result * 26);
        result := Wrap32(result + (currentLetterNumber - 'A' as int + 1));
      }
      assert upper[..|upper|] == upper;
    }

    /** The inputs of GetHashCode's `HashCode.Combine`, in its order: the coordinates alone. */
    function HashInputs(): (r: (Int32, Int32, Option<Int32>, Option<Int32>, string))
      reads this
    {
      (StartRow, StartColumn, EndColumn, EndRow, TabName)
    }

    /** Field-by-field comparison of all nine values. */
    function Equals(other: SheetRange): (r: bool)
      reads this, other
      ensures r <==> State() == other.State()
    {
      && A1Notation == other.A1Notation
      && CanSupportA1Notation == other.CanSupportA1Notation
      && EndColumn == other.EndColumn
      && EndRow == other.EndRow
      && IsSingleCellRange == other.IsSingleCellRange
      && R1C1Notation == other.R1C1Notation
      && StartColumn == other.StartColumn
      && StartRow == other.StartRow
      && TabName == other.TabName
    }
  }
}
