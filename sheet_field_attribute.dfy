/**
 * SheetFieldAttribute: the metadata of one record property that maps it to a sheet column
 * (header text, 1-based column id, field type) with an optional number-format pattern that
 * overrides the type's default.
 */
module SheetFields {
  import opened Wrappers
  import opened Primitives

  /** The seven field types the wrapper handles, and any other value of the enum. */
  datatype SheetFieldType =
    | String
    | Number
    | PhoneNumber
    | DateTime
    | Currency
    | Boolean
    | Integer
    | Unsupported(code: int)

  const SUPPORTED_TYPES: set<SheetFieldType> :=
    {String, Number, PhoneNumber, DateTime, Currency, Boolean, Integer}

  /** The default number-format pattern of each field type. */
  const DEFAULT_FORMAT_PATTERNS: map<SheetFieldType, string> := map[
    String := "",
    Number := "#,##0.00",
    PhoneNumber := "(###)\" \"###\"-\"####",
    DateTime := "M/d/yyyy H:mm:ss",
    Currency := "\"$\"#,##0.00",
    Boolean := "#",
    Integer := "0"]

  /** Indexing the default table with a type it lacks: `KeyNotFoundException`. */
  datatype LookupError = KeyNotFound(fieldType: SheetFieldType)

  /** Every supported type, and no other, has a default pattern. */
  lemma DefaultPatternsCoverSupportedTypes()
    ensures DEFAULT_FORMAT_PATTERNS.Keys == SUPPORTED_TYPES
    ensures forall t :: t in SUPPORTED_TYPES <==> !t.Unsupported?
  {
  }

  /** The values an attribute holds; `formatOverride` is the private `_numberFormatPattern`. */
  datatype FieldSpec = FieldSpec(
    displayName: string,
    columnID: Int32,
    fieldType: SheetFieldType,
    formatOverride: Option<string>)
  {
    /** The NumberFormatPattern getter: the override when it is set, otherwise the type's default. */
    function NumberFormatPattern(): (r: Result<string, LookupError>)
      ensures formatOverride.Some? ==> r == Success(formatOverride.value)
      ensures formatOverride.None? && fieldType in SUPPORTED_TYPES
        ==> r == Success(DEFAULT_FORMAT_PATTERNS[fieldType])
      ensures r.Failure? <==> formatOverride.None? && fieldType.Unsupported?
      ensures r.Failure? ==> r.error == KeyNotFound(fieldType)
    {
      if formatOverride.Some? then Success(formatOverride.value)
      else if fieldType in DEFAULT_FORMAT_PATTERNS then Success(DEFAULT_FORMAT_PATTERNS[fieldType])
      else Failure(KeyNotFound(fieldType))
    }
  }

  class SheetFieldAttribute {
    var DisplayName: string
    var ColumnID: Int32
    var FieldType: SheetFieldType
    var numberFormatPattern: Option<string>

    function Spec(): FieldSpec
      reads this
    {
      FieldSpec(DisplayName, ColumnID, FieldType, numberFormatPattern)
    }

    function NumberFormatPattern(): Result<string, LookupError>
      reads this
    {
      Spec().NumberFormatPattern()
    }

    /** `[SheetField(DisplayName = …, ColumnID = …, FieldType = …)]`: no override is set. */
    constructor (displayName: string, columnID: Int32, fieldType: SheetFieldType)
      ensures Spec() == FieldSpec(displayName, columnID, fieldType, None)
      ensures fieldType in SUPPORTED_TYPES ==> NumberFormatPattern() == Success(DEFAULT_FORMAT_PATTERNS[fieldType])
    {
      DisplayName := displayName;
      ColumnID := columnID;
      FieldType := fieldType;
      numberFormatPattern := None;
    }

    /** The NumberFormatPattern setter; null clears the override and brings back the type's default. */
    method SetNumberFormatPattern(value: Option<string>)
      modifies this
      ensures Spec() == old(Spec()).(formatOverride := value)
      ensures value.Some? ==> NumberFormatPattern() == Success(value.value)
      ensures value.None? && FieldType in SUPPORTED_TYPES
        ==> NumberFormatPattern() == Success(DEFAULT_FORMAT_PATTERNS[FieldType])
    {
      numberFormatPattern := value;
    }

    /** Changing the type keeps the override; without one the pattern follows the new type. */
    method SetFieldType(fieldType: SheetFieldType)
      modifies this
      ensures Spec() == old(Spec()).(fieldType := fieldType)
      ensures numberFormatPattern == old(numberFormatPattern)
      ensures old(numberFormatPattern).None? && fieldType in SUPPORTED_TYPES
        ==> NumberFormatPattern() == Success(DEFAULT_FORMAT_PATTERNS[fieldType])
      ensures old(numberFormatPattern).Some? ==> NumberFormatPattern() == old(NumberFormatPattern())
    {
      FieldType := fieldType;
    }

    method SetDisplayName(displayName: string)
      modifies this
      ensures Spec() == old(Spec()).(displayName := displayName)
      ensures NumberFormatPattern() == old(NumberFormatPattern())
    {
      DisplayName := displayName;
    }

    method SetColumnID(columnID: Int32)
      modifies this
      ensures Spec() == old(Spec()).(columnID := columnID)
      ensures NumberFormatPattern() == old(NumberFormatPattern())
    {
      ColumnID := columnID;
    }
  }
}
