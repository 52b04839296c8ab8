# GoogleSheetsWrapper core, modelled in Dafny

GoogleSheetsWrapper maps the rows of a Google Sheets tab onto C# record objects. This
project models three parts of it and proves properties about them.

- **Sheet ranges** (`SheetRange`). A range holds its coordinates and two renderings computed
  when it is built: R1C1 notation (`Sheet1!R2C2:R10C4`) and A1 notation (`Sheet1!B2:D10`).
  It also converts between 1-based column ids and column letters, in bijective base 26.
- **Field attributes** (`SheetFieldAttribute`). An attribute gives a property its header,
  its column id, its field type and a number-format pattern. The pattern is an override
  when one is set, otherwise the field type's default.
- **Marshalling** (`SheetFieldAttributeUtils`). Three operations:
  - `PopulateRecord` copies the cells of a row into a record's attributed properties.
  - `GetCellDataForSheetField` turns a property value into the cell payload and format
    that are written back.
  - `GetAllSheetFieldAttributes` collects a type's attributed properties.

Modules, one per file:

- `Wrappers`: `Option`, `Result` and `Outcome`.
- `Primitives`: the .NET behaviour the core relies on. This is 32-bit wrap-around,
  `int` to text, `IsNullOrEmpty`, `IsNullOrWhiteSpace`, `ToUpper` and reversal, plus a
  unique-split lemma.
- `ColumnLetters`: the two column conversions as functions, with their round trips.
- `SheetRanges`: the `SheetRange` class, with its constructors, static methods and `Equals`.
- `SheetRangeProofs`: injectivity of the renderings, sample ranges and `Equals`/hash facts.
- `SheetFields`: the default-pattern table and the `SheetFieldAttribute` class.
- `FieldMarshaling`: `PopulateRecord`, `GetCellDataForSheetField` and
  `GetAllSheetFieldAttributes`.
- `MarshalingProofs`: frame, error, typing and read-then-write lemmas, plus the test
  record's schema.

Reflection is replaced by an explicit schema: a sequence of `PropertyEntry(name,
attribute)`. A record is a `Record` object whose `values` map property names to boxed
values. The library calls made during conversion are fields of a `Collaborators` value:
`CurrencyParsing`, `PhoneNumberParsing`, `DateTimeUtils`, `double`/`int`/`long.Parse`,
`Convert.ToBoolean` and `ToString` of non-string values. Nothing is assumed about them
beyond their result types. The parsers and the serial-number-to-date conversion can fail:
their `None` stands for an exception. The other collaborators are total (see "## Left out"). `SheetRangeParser` is
passed in the same way, as a `RangeParser`.

Where the code and its documentation differ, the model follows the code:

- `IsSingleCellRange` is true exactly when the end row or the end column is missing.
  With both present it is false, even when they equal the start.
- With an end column but no end row, the A1 rendering ends in the end column's letters,
  e.g. `A1:B`.
- `int.MinValue` as a column id does not give "": `columnID - 1` wraps to `int.MaxValue`,
  and the letters are `FXSHRXX`.
- The PhoneNumber and Currency default patterns keep their quotes: `(###)" "###"-"####`
  and `"$"#,##0.00`.
- A String property read from a null cell is set to null, not to "".
- Number and Integer properties are guarded against blank cells. Boolean properties are not.
- The offset `ColumnID - minColumnId` is computed in 32 bits. A negative offset passes
  the `row.Count > offset` guard, and the indexing then throws.

## Model

| member | source | states |
|---|---|---|
| Primitives.Wrap32 | src/GoogleSheetsWrapper/SheetRange.cs:154 | unchecked `int` arithmetic: the result lies in the 32-bit range, is congruent to the exact value modulo 2^32, and is the exact value when that fits |
| Primitives.Wrap32Decrement | src/GoogleSheetsWrapper/SheetRange.cs:154 | `columnID - 1` is exact except for int.MinValue, which becomes int.MaxValue |
| Primitives.IntString | src/GoogleSheetsWrapper/SheetRange.cs:74-78 | the interpolated text of an `int` is non-empty, made of digits and '-', and starts with '-' exactly for negative numbers |
| Primitives.ToUpper | src/GoogleSheetsWrapper/SheetRange.cs:179 | upper-casing keeps the length and maps each character on its own, under a culture that maps ASCII letters to ASCII capitals: lower-case ASCII letters to capitals, everything else unchanged |
| Primitives.IsWhiteSpace | src/GoogleSheetsWrapper/SheetFieldAttributeUtils.cs:42 | the white-space ranges accept exactly the 25 characters of .NET's `char.IsWhiteSpace`, listed one by one |
| Primitives.IsNullOrEmpty | src/GoogleSheetsWrapper/SheetRange.cs:82 | `string.IsNullOrEmpty` holds exactly for null and for "" |
| Primitives.IsNullOrWhiteSpace | src/GoogleSheetsWrapper/SheetFieldAttributeUtils.cs:42 | `string.IsNullOrWhiteSpace` holds for null and "", and for a string exactly when every character in it is white space |
| Primitives.Reversed | src/GoogleSheetsWrapper/SheetRange.cs:165 | reversing keeps the length |
| Primitives.ReversedIndex | src/GoogleSheetsWrapper/SheetRange.cs:165 | position i of the reverse holds the character at position length - 1 - i |
| ColumnLetters.Letters | src/GoogleSheetsWrapper/SheetRange.cs:152-168 | the letters of column n are made of capitals only, and are non-empty exactly when n >= 1 |
| ColumnLetters.LettersFromColumnID | src/GoogleSheetsWrapper/SheetRange.cs:152-168 | GetLettersFromColumnID yields only capitals; the result is non-empty exactly for positive ids and int.MinValue |
| ColumnLetters.ColumnIDFromLetters | src/GoogleSheetsWrapper/SheetRange.cs:175-191 | a text whose upper-case form is a run of capitals whose base-26 value fits an `int` reads as exactly that value |
| ColumnLetters.ColumnIDRoundTrip | src/GoogleSheetsWrapper/SheetRange.cs:152-191 | for every id >= 1, reading back the letters of the id gives the id |
| ColumnLetters.LettersRoundTrip | src/GoogleSheetsWrapper/SheetRange.cs:152-191 | a non-empty run of ASCII letters whose value fits an `int` reads as an id >= 1 whose letters are the run in upper case |
| ColumnLetters.LettersInjective | src/GoogleSheetsWrapper/SheetRange.cs:152-168 | distinct positive ids have distinct letters |
| ColumnLetters.ColumnIDIgnoresCase | src/GoogleSheetsWrapper/SheetRange.cs:179 | any text reads as the same id as its upper-case form |
| ColumnLetters.LettersExamples | src/GoogleSheetsWrapper/SheetRange.cs:152-168 | 1, 26, 27, 702, 703 and 18278 give A, Z, AA, ZZ, AAA and ZZZ; 0 and -1 give "" |
| ColumnLetters.LettersOfMaxInt32 | src/GoogleSheetsWrapper/SheetRange.cs:152-168 | int.MaxValue gives FXSHRXW |
| ColumnLetters.LettersOfMinInt32 | src/GoogleSheetsWrapper/SheetRange.cs:154-163 | int.MinValue wraps around and gives FXSHRXX |
| SheetRanges.ParseRangeValue | src/GoogleSheetsWrapper/SheetRange.cs:116-132 | the string constructor succeeds exactly when the text is valid R1C1 or A1; R1C1 is tried first; otherwise it throws, naming the text |
| SheetRanges.SheetRange.constructor | src/GoogleSheetsWrapper/SheetRange.cs:70-108 | the coordinates are stored as given, with a null tab becoming ""; the R1C1 and A1 renderings are computed; A1 is available exactly when there is an end column; the range is single-cell exactly when an end is missing |
| SheetRanges.SheetRange.FromState | src/GoogleSheetsWrapper/SheetRange.cs:136-144 | all nine values of the parsed range are copied |
| SheetRanges.SheetRange.FromRangeValue | src/GoogleSheetsWrapper/SheetRange.cs:114-145 | a new range holding the parsed range's nine values, or the invalid-range error exactly when neither notation is recognised |
| SheetRanges.SheetRange.Equals | src/GoogleSheetsWrapper/SheetRange.cs:208-220 | Equals holds exactly when all nine values agree |
| SheetRanges.SheetRange.GetLettersFromColumnID | src/GoogleSheetsWrapper/SheetRange.cs:152-168 | the digit loop followed by the reverse computes LettersFromColumnID, the letters of the id, int.MinValue's wrap included |
| SheetRanges.SheetRange.GetColumnIDFromLetters | src/GoogleSheetsWrapper/SheetRange.cs:175-191 | the accumulation loop computes ColumnIDFromLetters, the 32-bit wrapped value of the upper-cased text |
| SheetRangeProofs.R1C1TextDetermines | src/GoogleSheetsWrapper/SheetRange.cs:72-85 | for any tab names, equal R1C1 renderings have the same tab, start, and whether both ends are set, and then the same coordinates |
| SheetRangeProofs.A1TextDetermines | src/GoogleSheetsWrapper/SheetRange.cs:87-101 | for any tab names and positive columns, equal A1 renderings come from equal coordinates |
| SheetRangeProofs.RangeOnTabR1C1Example | src/GoogleSheetsWrapper/SheetRange.cs:72-85 | columns 2..4 and rows 2..10 on Sheet1 render as `Sheet1!R2C2:R10C4` |
| SheetRangeProofs.RangeOnTabA1Example | src/GoogleSheetsWrapper/SheetRange.cs:87-101 | the same range renders as `Sheet1!B2:D10` |
| SheetRangeProofs.SingleCellExample | src/GoogleSheetsWrapper/SheetRange.cs:72-101 | a single cell with no tab renders as `R5C3` and has no A1 rendering |
| SheetRangeProofs.EndColumnOnlyExample | src/GoogleSheetsWrapper/SheetRange.cs:72-101 | with an end column but no end row the R1C1 rendering is `R1C1` and the A1 rendering is `A1:B` |
| SheetRangeProofs.EqualsImpliesSameHashInputs | src/GoogleSheetsWrapper/SheetRange.cs:198-220 | equal ranges feed the same five values to the hash |
| SheetRangeProofs.ConsistentEqualsIffSameCoordinates | src/GoogleSheetsWrapper/SheetRange.cs:70-108 | two constructed ranges are equal exactly when their coordinates are |
| SheetRangeProofs.SameR1C1NotationEqual | src/GoogleSheetsWrapper/SheetRange.cs:72-85 | constructed two-ended ranges with the same R1C1 notation are equal, whatever their tab names |
| SheetRangeProofs.SameA1NotationEqual | src/GoogleSheetsWrapper/SheetRange.cs:87-101 | constructed ranges with positive columns and the same A1 notation are equal, whatever their tab names |
| SheetRangeProofs.R1C1TakesPrecedence | src/GoogleSheetsWrapper/SheetRange.cs:121-128 | once the text is valid R1C1, the A1 recogniser and converter make no difference |
| SheetFields.DefaultPatternsCoverSupportedTypes | src/GoogleSheetsWrapper/SheetFieldAttribute.cs:12-21 | the default table has an entry for exactly the seven handled field types |
| SheetFields.FieldSpec.NumberFormatPattern | src/GoogleSheetsWrapper/SheetFieldAttribute.cs:50-55 | the override when set; otherwise the type's default; a key-not-found error exactly when there is no override and the type is none of the seven |
| SheetFields.SheetFieldAttribute.constructor | src/GoogleSheetsWrapper/SheetFieldAttribute.cs:31-43 | an attribute starts with no override, so the pattern of a handled type is its default |
| SheetFields.SheetFieldAttribute.SetNumberFormatPattern | src/GoogleSheetsWrapper/SheetFieldAttribute.cs:54 | only the override changes; a value becomes the pattern, and null brings back the type default |
| SheetFields.SheetFieldAttribute.SetFieldType | src/GoogleSheetsWrapper/SheetFieldAttribute.cs:41 | the override is kept; without one the pattern becomes the new type's default, and with one it is unchanged |
| SheetFields.SheetFieldAttribute.SetDisplayName | src/GoogleSheetsWrapper/SheetFieldAttribute.cs:31 | only the display name changes; the pattern is unchanged |
| SheetFields.SheetFieldAttribute.SetColumnID | src/GoogleSheetsWrapper/SheetFieldAttribute.cs:36 | only the column id changes; the pattern is unchanged |
| FieldMarshaling.CellAssignment | src/GoogleSheetsWrapper/SheetFieldAttributeUtils.cs:36-94 | String takes the text verbatim, and a null cell gives null. Currency, DateTime, Number and Integer skip blank text. PhoneNumber skips exactly when its cleaned text is blank. For non-blank text, Currency, PhoneNumber, Number and Integer assign the parsed value or throw the conversion error when the parser fails; DateTime assigns the date converted from the parsed serial number, and throws when either step fails. Boolean assigns the converted boolean, or throws the conversion error when the conversion fails. An unhandled type throws. An assigned value is of its field type's kind |
| FieldMarshaling.PopulateProperty | src/GoogleSheetsWrapper/SheetFieldAttributeUtils.cs:30-95 | a property without an attribute, or whose offset is not below the row length, is untouched; the index error happens exactly when the offset is negative; otherwise the cell's assignment decides: its exception is thrown, a skip leaves the store unchanged, and a value is stored under the property's name and nowhere else |
| FieldMarshaling.Populate | src/GoogleSheetsWrapper/SheetFieldAttributeUtils.cs:28-96 | populating never removes a property's value and adds values only under the schema's property names |
| FieldMarshaling.PopulateStep | src/GoogleSheetsWrapper/SheetFieldAttributeUtils.cs:28-96 | populating from property i on is that property's step followed by the rest, and stops at its exception |
| FieldMarshaling.PopulateOne | src/GoogleSheetsWrapper/SheetFieldAttributeUtils.cs:30-95 | one pass of the loop body changes the record as PopulateProperty describes, and reports exactly its exception, leaving the record unchanged then |
| FieldMarshaling.PopulateRecord | src/GoogleSheetsWrapper/SheetFieldAttributeUtils.cs:24-97 | the loop leaves the record as `Populate` describes it, and reports the exception it stopped at |
| FieldMarshaling.GetCellDataForSheetField | src/GoogleSheetsWrapper/SheetFieldAttributeUtils.cs:108-238 | String gives "" for null or blank values and the text otherwise, with no format. Currency is tagged CURRENCY; Number, Integer, DateTime and PhoneNumber are tagged NUMBER; each carries the attribute's pattern, even for null. Currency, Number and PhoneNumber values are printed and re-parsed: a failed parse throws the conversion error, and otherwise the number is the parsed value, except that a phone value parsing to 0 leaves it absent. A DateTime value gives its serial number and an Integer its own value; a value of another kind throws the invalid-cast error. Boolean sets only BoolValue and gives an empty format, and a non-boolean throws the invalid-cast error. An unhandled type throws |
| FieldMarshaling.GetAllSheetFieldAttributes | src/GoogleSheetsWrapper/SheetFieldAttributeUtils.cs:268-285 | succeeds exactly when no attribute compares equal to an earlier one; the result then holds exactly the (attribute, property) pairs of attributed properties; otherwise a duplicate-key error |
| MarshalingProofs.PopulateLeavesUnreadProperties | src/GoogleSheetsWrapper/SheetFieldAttributeUtils.cs:28-32 | a property that is never read, because it has no attribute or lies beyond the row, keeps its value or stays unset |
| MarshalingProofs.PopulateConcat | src/GoogleSheetsWrapper/SheetFieldAttributeUtils.cs:28-96 | populating over a schema split in two is populating over each part in turn; an exception in the first part stops it |
| MarshalingProofs.NoIndexErrorFromMinColumn | src/GoogleSheetsWrapper/SheetFieldAttributeUtils.cs:32-34 | with every ColumnID from minColumnId to minColumnId + int.MaxValue, no index error occurs |
| MarshalingProofs.ColumnBelowMinThrows | src/GoogleSheetsWrapper/SheetFieldAttributeUtils.cs:32-34 | a ColumnID below minColumnId whose 32-bit difference does not wrap below int.MinValue throws IndexOutOfRange for that offset, even on an empty row, and changes nothing |
| MarshalingProofs.WrappedOffsetThrows | src/GoogleSheetsWrapper/SheetFieldAttributeUtils.cs:32-34 | ColumnID int.MaxValue with minColumnId -1 gives offset int.MinValue, which throws |
| MarshalingProofs.UnsupportedTypeThrows | src/GoogleSheetsWrapper/SheetFieldAttributeUtils.cs:91-94 | an unhandled type is skipped beyond the row's end, throws the index error for a negative offset, and throws the not-supported error otherwise |
| MarshalingProofs.PopulateKeepsFieldTypes | src/GoogleSheetsWrapper/SheetFieldAttributeUtils.cs:36-90 | with distinct property names, every attributed property keeps a value of its field type's kind |
| MarshalingProofs.StringRoundTrip | src/GoogleSheetsWrapper/SheetFieldAttributeUtils.cs:36-39 | a non-blank String cell is read verbatim and written back as the same text, with no format |
| MarshalingProofs.NullStringRoundTrip | src/GoogleSheetsWrapper/SheetFieldAttributeUtils.cs:36-39 | a null String cell is read as null and written back as "" |
| MarshalingProofs.BooleanRoundTrip | src/GoogleSheetsWrapper/SheetFieldAttributeUtils.cs:86-90 | a Boolean cell is written back as the boolean it was read as, with an empty format |
| MarshalingProofs.NumericRoundTrip | src/GoogleSheetsWrapper/SheetFieldAttributeUtils.cs:40-85 | if printing and re-parsing the value read from the cell gives that value back, a numeric value read from a cell is written back as the same number. A zero phone number is the exception and is written as absent. The value carries its tag and pattern |
| MarshalingProofs.DateTimeRoundTrip | src/GoogleSheetsWrapper/SheetFieldAttributeUtils.cs:57-69 | a DateTime cell whose text parses to a serial number that converts to a date is read as that date, and written back as the serial number that `ConvertToSerialNumber` gives for the date, tagged NUMBER |
| MarshalingProofs.ShortRowSetsOnlyName | src/GoogleSheetsWrapper.Tests/TestObjects/TestRecord.cs:10-38 | for the test record's schema, a one-cell row sets Name and nothing else |
| MarshalingProofs.BlankCellsAreSkipped | src/GoogleSheetsWrapper.Tests/TestObjects/TestRecord.cs:10-38 | for the test record's schema and the one sample row `Ann`, "", " ", null, tab (blank phone, Currency and Quantity cells, a null DateTime cell), and assuming the phone-code cleaner returns "" for "", only Name is set |

## Left out

- `SheetAppender` is not part of this model. It does network calls to the Sheets API,
  CSV reading and batching with sleeps.
- Reflection is replaced by an explicit schema: `GetProperties`, `GetCustomAttribute`,
  `GetColumnId` and `GetSheetFieldAttribute` over expression trees. `SetValue` with a
  value of the wrong type is not modelled; the schema's property types are taken to match.
- `SheetRangeParser`, `SheetFieldAttributeComparer`, `CurrencyParsing`,
  `PhoneNumberParsing` and `DateTimeUtils` are not part of this model. They are arbitrary
  functions, and nothing is claimed about the date serial conversion or phone cleaning.
- `SheetRanges.ParseRangeValue`: `SheetRangeParser`'s two converters are taken not to throw
  on a text their recogniser accepts. A converter exception, such as a row number too large
  for an `int`, is not modelled.
- `SheetRanges.SheetRange.FromRangeValue`: the same assumption about the converters; it
  fails only with the invalid-range error.
- `DateTimeUtils.ConvertToSerialNumber` and `ToString` of non-string values are taken
  to be total; their exceptions are not modelled.
- `PhoneNumberParsing.RemoveUSInterationalPhoneCode` is taken not to throw. Its `None`
  result stands for a null return, not an exception.
- Culture-dependent parsing is arbitrary too: `double.Parse`, `int.Parse`, `long.Parse`,
  `Convert.ToBoolean` and `ToString` of non-string values.
- The order of `GetProperties()` is not guaranteed by .NET. The schema's order stands for it,
  and that order decides which properties are already set when an exception stops
  `Populate` or `PopulateRecord`.
- Null arguments are ruled out by the model's types, so their `NullReferenceException`s
  are not modelled: `Equals(null)`, `GetColumnIDFromLetters(null)`, a null row in
  `PopulateRecord`.
- `double` is modelled as `real`. Floating-point rounding is not captured.
- `Primitives.IntString`: `int.ToString()` is modelled with an ASCII '-' sign. Cultures
  that use another negative sign are not modelled.
- `Primitives.ToUpper`: only ASCII letters are upper-cased. The culture-sensitive
  upper-casing of other characters is not modelled. The current culture is taken to map the
  ASCII letters to the ASCII capitals; under a Turkish or Azerbaijani culture 'i' becomes
  'İ' (U+0130), so `GetColumnIDFromLetters("i")` would be 240 rather than 9, and
  `ColumnLetters.LettersRoundTrip` would not hold for runs containing 'i'.
- `SheetRanges.SheetRange.GetColumnIDFromLetters`: Dafny strings are sequences of Unicode
  scalar values, not UTF-16 code units. A character outside the Basic Multilingual Plane is
  one step of the loop here, while C# takes two steps, one per surrogate.
- `HashCode.Combine` is not modelled. `SheetRange.HashInputs` gives the five values it
  combines, and equal ranges are proved to give the same five.
- `Equals(object)` with its unchecked cast, and `GetHashCode()` forwarding to
  `GetHashCode(this)`, are not modelled.
- `FieldMarshaling.GetAllSheetFieldAttributes`: the SortedDictionary's order is not
  modelled, because the comparer is not part of this model. The result is a sequence
  whose contents are the attributed pairs.
- `FieldMarshaling.GetAllSheetFieldAttributes`: the comparer is taken to be a total order
  consistent with its 0 result. `SortedDictionary.Add` compares only along its search path,
  so with an inconsistent comparer it could miss a duplicate that the model reports.
- `SheetRange`'s public setters are the class's plain fields. Assigning them directly,
  as the auto-properties allow, is not given separate methods.
- `DefaultFormatPatterns` is a protected settable property. The model fixes it to the
  initial table; a subclass replacing the table is not modelled.
