/**
 * SheetFieldAttributeUtils: moving values between a sheet row and a record whose properties
 * carry SheetField attributes, in both directions, and collecting a type's attributes.
 *
 * Reflection is replaced by an explicit schema: a sequence of properties, each with its
 * name and its attribute, if it has one. The parsing and conversion libraries the code calls
 * are passed in as `Collaborators`; what a `None` result means is given field by field.
 */
module FieldMarshaling {
  import opened Wrappers
  import opened Primitives
  import opened SheetFields

  /** A `System.DateTime`, kept abstract. */
  datatype Timestamp = Timestamp(ticks: int)

  /** A boxed property value, as `PropertyInfo.GetValue` returns it and `SetValue` takes it. */
  datatype Value =
    | Null
    | Str(s: string)
    | Double(x: real)
    | Int(i: Int32)
    | Long(l: Int64)
    | DateValue(t: Timestamp)
    | Bool(b: bool)

  /**
   * The library calls made while converting. For the parsers, the serial-number-to-date
   * conversion and `Convert.ToBoolean`, `None` stands for an exception; for the phone-code
   * cleaner it stands for a null return. The serial-number conversion from a date and
   * `ToString` are total and return no `Option`.
   */
  datatype Collaborators = Collaborators(
    parseCurrencyString: string -> Option<real>,                 // CurrencyParsing.ParseCurrencyString
    removeUSInternationalPhoneCode: Option<string> -> Option<string>, // PhoneNumberParsing
    convertFromSerialNumber: real -> Option<Timestamp>,          // DateTimeUtils.ConvertFromSerialNumber
    convertToSerialNumber: Timestamp -> real,                    // DateTimeUtils.ConvertToSerialNumber
    parseDouble: string -> Option<real>,                         // double.Parse, current culture
    parseInt: string -> Option<Int32>,                           // int.Parse, current culture
    parseLong: string -> Option<Int64>,                          // long.Parse, current culture
    toBoolean: Option<string> -> Option<bool>,                   // Convert.ToBoolean, current culture
    toText: Value -> string)                                     // ToString() of a non-string value

  /** The exceptions the two conversions can end with. */
  datatype MarshalError =
    | UnsupportedFieldType(fieldType: SheetFieldType)          // ArgumentException "… not supported yet!"
    | IndexOutOfRange(index: int)                               // row[index] with a negative index
    | ConversionFailed(fieldType: SheetFieldType, text: Option<string>) // a parser threw on this text
    | InvalidCast(fieldType: SheetFieldType)                    // unboxing the property value failed
    | DuplicateKey(attribute: FieldSpec)                        // SortedDictionary.Add of an equal key

  /** One property of the record type: its name and its SheetField attribute, if any. */
  datatype PropertyEntry = PropertyEntry(name: string, attribute: Option<FieldSpec>)

  /** The record's property values, by property name. */
  type Store = map<string, Value>

  /** The kind of value a property of each field type holds. */
  predicate HasFieldType(v: Value, t: SheetFieldType) {
    match t
    case String => v.Str? || v.Null?
    case Number => v.Double?
    case Currency => v.Double?
    case PhoneNumber => v.Long?
    case DateTime => v.DateValue?
    case Integer => v.Int?
    case Boolean => v.Bool?
    case Unsupported(_) => false
  }

  //////////////////////////////////////////////////////////////////////////////
  // PopulateRecord: row -> record
  //////////////////////////////////////////////////////////////////////////////

  /**
   * What PopulateRecord does with the text of one cell for one attribute: the value it
   * assigns, `None` when it leaves the property as it is, or the exception.
   */
  function CellAssignment(attribute: FieldSpec, cell: Option<string>, lib: Collaborators)
    : (r: Result<Option<Value>, MarshalError>)
    ensures attribute.fieldType == String ==>
      r == Success(Some(if cell.Some? then Str(cell.value) else Null))
    ensures attribute.fieldType in {Currency, DateTime, Number, Integer} && IsNullOrWhiteSpace(cell)
      ==> r == Success(None)
    ensures attribute.fieldType == PhoneNumber ==>
      (r == Success(None) <==> IsNullOrWhiteSpace(lib.removeUSInternationalPhoneCode(cell)))
    ensures attribute.fieldType == Currency && !IsNullOrWhiteSpace(cell) ==>
      var parsed := lib.parseCurrencyString(cell.value);
      r == if parsed.Some? then Success(Some(Double(parsed.value))) else Failure(ConversionFailed(Currency, cell))
    ensures attribute.fieldType == Number && !IsNullOrWhiteSpace(cell) ==>
      var parsed := lib.parseDouble(cell.value);
      r == if parsed.Some? then Success(Some(Double(parsed.value))) else Failure(ConversionFailed(Number, cell))
    ensures attribute.fieldType == Integer && !IsNullOrWhiteSpace(cell) ==>
      var parsed := lib.parseInt(cell.value);
      r == if parsed.Some? then Success(Some(Int(parsed.value))) else Failure(ConversionFailed(Integer, cell))
    ensures attribute.fieldType == DateTime && !IsNullOrWhiteSpace(cell) ==>
      var serial := lib.parseDouble(cell.value);
      var date := if serial.Some? then lib.convertFromSerialNumber(serial.value) else None;
      r == if date.Some? then Success(Some(DateValue(date.value))) else Failure(ConversionFailed(DateTime, cell))
    ensures attribute.fieldType == PhoneNumber && !IsNullOrWhiteSpace(lib.removeUSInternationalPhoneCode(cell)) ==>
      var cleaned := lib.removeUSInternationalPhoneCode(cell);
      var parsed := lib.parseLong(cleaned.value);
      r == if parsed.Some? then Success(Some(Long(parsed.value))) else Failure(ConversionFailed(PhoneNumber, cleaned))
    ensures attribute.fieldType == Boolean ==>
      (r.Success? ==> r.value.Some?) &&
      (forall b :: r == Success(Some(Bool(b))) <==> lib.toBoolean(cell) == Some(b)) &&
      (lib.toBoolean(cell).None? ==> r == Failure(ConversionFailed(Boolean, cell)))
    ensures r == Failure(UnsupportedFieldType(attribute.fieldType)) <==> attribute.fieldType.Unsupported?
    ensures r.Success? && r.value.Some? ==> HasFieldType(r.value.value, attribute.fieldType)
  {
    match attribute.fieldType
    case String =>
      Success(Some(if cell.Some? then Str(cell.value) else Null))
    case Currency =>
      if IsNullOrWhiteSpace(cell) then Success(None)
      else (match lib.parseCurrencyString(cell.value)
        case None => Failure(ConversionFailed(Currency, cell))
        case Some(x) => Success(Some(Double(x))))
    case PhoneNumber =>
      var cleaned := lib.removeUSInternationalPhoneCode(cell);
      if IsNullOrWhiteSpace(cleaned) then Success(None)
      else (match lib.parseLong(cleaned.value)
        case None => Failure(ConversionFailed(PhoneNumber, cleaned))
        case Some(n) => Success(Some(Long(n))))
    case DateTime =>
      if IsNullOrWhiteSpace(cell) then Success(None)
      else (match lib.parseDouble(cell.value)
        case None => Failure(ConversionFailed(DateTime, cell))
        case Some(serial) =>
          match lib.convertFromSerialNumber(serial)
          case None => Failure(ConversionFailed(DateTime, cell))
          case Some(t) => Success(Some(DateValue(t))))
    case Number =>
      if IsNullOrWhiteSpace(cell) then Success(None)
      else (match lib.parseDouble(cell.value)
        case None => Failure(ConversionFailed(Number, cell))
        case Some(x) => Success(Some(Double(x))))
    case Integer =>
      if IsNullOrWhiteSpace(cell) then Success(None)
      else (match lib.parseInt(cell.value)
        case None => Failure(ConversionFailed(Integer, cell))
        case Some(i) => Success(Some(Int(i))))
    case Boolean =>
      (match lib.toBoolean(cell)
       case None => Failure(ConversionFailed(Boolean, cell))
       case Some(b) => Success(Some(Bool(b))))
    case Unsupported(_) =>
      Failure(UnsupportedFieldType(attribute.fieldType))
  }

  /** The row index PopulateRecord reads for an attribute: `ColumnID - minColumnId` in 32 bits. */
  function CellOffset(attribute: FieldSpec, minColumnId: Int32): Int32 {
    Wrap32(attribute.columnID - minColumnId)
  }

  /** PopulateRecord looks at a property exactly when it has an attribute whose offset passes `row.Count > offset`. */
  predicate ReadsCell(entry: PropertyEntry, row: seq<Option<string>>, minColumnId: Int32) {
    entry.attribute.Some? && |row| > CellOffset(entry.attribute.value, minColumnId)
  }

  /** One iteration of PopulateRecord's loop: the new store, or the exception. */
  function PopulateProperty(store: Store, entry: PropertyEntry, row: seq<Option<string>>,
                            minColumnId: Int32, lib: Collaborators): (r: Result<Store, MarshalError>)
    ensures !ReadsCell(entry, row, minColumnId) ==> r == Success(store)
    ensures r.Success? ==> r.value.Keys <= store.Keys + {entry.name}
    ensures r.Success? ==> forall p :: p in store && p != entry.name ==> p in r.value && r.value[p] == store[p]
    ensures r.Failure? && r.error.IndexOutOfRange? <==>
      ReadsCell(entry, row, minColumnId) && CellOffset(entry.attribute.value, minColumnId) < 0
    ensures ReadsCell(entry, row, minColumnId) && CellOffset(entry.attribute.value, minColumnId) >= 0 ==>
      var assignment := CellAssignment(entry.attribute.value, row[CellOffset(entry.attribute.value, minColumnId)], lib);
      (assignment.Failure? ==> r == Failure(assignment.error)) &&
      (assignment == Success(None) ==> r == Success(store)) &&
      (assignment.Success? && assignment.value.Some? ==> r == Success(store[entry.name := assignment.value.value]))
  {
    if !ReadsCell(entry, row, minColumnId) then Success(store)
    else
      var attribute := entry.attribute.value;
      var offset := CellOffset(attribute, minColumnId);
      if offset < 0 then Failure(IndexOutOfRange(offset))
      else match CellAssignment(attribute, row[offset], lib)
        case Failure(e) => Failure(e)
        case Success(None) => Success(store)
        case Success(Some(v)) => Success(store[entry.name := v])
  }

  /** The record after PopulateRecord, and the exception it stopped with, if any. */
  datatype Populated = Populated(store: Store, error: Option<MarshalError>)

  /** The names of the schema's properties. */
  function PropertyNames(properties: seq<PropertyEntry>): set<string> {
    set i | 0 <= i < |properties| :: properties[i].name
  }

  /**
   * PopulateRecord as a fold over the properties; an exception stops it with the
   * assignments made so far. No property is ever unset, and only the schema's properties
   * can be set.
   */
  function Populate(store: Store, properties: seq<PropertyEntry>, row: seq<Option<string>>,
                    minColumnId: Int32, lib: Collaborators): (r: Populated)
    ensures store.Keys <= r.store.Keys <= store.Keys + PropertyNames(properties)
    decreases |properties|
  {
    if properties == [] then Populated(store, None)
    else match PopulateProperty(store, properties[0], row, minColumnId, lib)
      case Failure(e) => Populated(store, Some(e))
      case Success(next) => Populate(next, properties[1..], row, minColumnId, lib)
  }

  /** One step of the fold: the first property's outcome decides how the rest goes. */
  lemma PopulateStep(store: Store, properties: seq<PropertyEntry>, i: nat,
                     row: seq<Option<string>>, minColumnId: Int32, lib: Collaborators)
    requires i < |properties|
    ensures Populate(store, properties[i..], row, minColumnId, lib) ==
      match PopulateProperty(store, properties[i], row, minColumnId, lib)
      case Failure(e) => Populated(store, Some(e))
      case Success(next) => Populate(next, properties[i + 1..], row, minColumnId, lib)
  {
    assert properties[i..][0] == properties[i] && properties[i..][1..] == properties[i + 1..];
  }

  /** A record object whose properties PopulateRecord sets. */
  class Record {
    var values: Store

    constructor (values: Store)
      ensures this.values == values
    {
      this.values := values;
    }
  }

  /** The body of PopulateRecord's loop for one property: the exception it throws, if any. */
  method PopulateOne(record: Record, property: PropertyEntry, row: seq<Option<string>>,
                     minColumnId: Int32, lib: Collaborators) returns (error: Option<MarshalError>)
    modifies record
    ensures var step := PopulateProperty(old(record.values), property, row, minColumnId, lib);
      && (error.Some? <==> step.Failure?)
      && (step.Failure? ==> error.value == step.error && record.values == old(record.values))
      && (step.Success? ==> record.values == step.value)
  {
    error := None;
    if property.attribute.Some? {
      var attribute := property.attribute.value;
      var offset := Wrap32(attribute.columnID - minColumnId);
      assert offset == CellOffset(attribute, minColumnId);
      if |row| > offset {
        if offset < 0 {
          return Some(IndexOutOfRange(offset));
        }
        var stringValue := row[offset];
        var assignment := CellAssignment(attribute, stringValue, lib);
        match assignment {
          case Failure(e) =>
            error := Some(e);
          case Success(None) =>
          case Success(Some(v)) =>
            record.values := record.values[property.name := v];
        }
      }
    }
  }

  /** PopulateRecord: sets the record's attributed properties from the row, property by property. */
  method PopulateRecord(record: Record, properties: seq<PropertyEntry>, row: seq<Option<string>>,
                        minColumnId: Int32, lib: Collaborators) returns (outcome: Outcome<MarshalError>)
    modifies record
    ensures record.values == Populate(old(record.values), properties, row, minColumnId, lib).store
    ensures outcome.Fail? <==> Populate(old(record.values), properties, row, minColumnId, lib).error.Some?
    ensures outcome.Fail? ==>
      outcome.error == Populate(old(record.values), properties, row, minColumnId, lib).error.value
  {
    var i := 0;
    while i < |properties|
      invariant 0 <= i <= |properties|
      invariant Populate(old(record.values), properties, row, minColumnId, lib)
             == Populate(record.values, properties[i..], row, minColumnId, lib)
    {
      PopulateStep(record.values, properties, i, row, minColumnId, lib);
      var error := PopulateOne(record, properties[i], row, minColumnId, lib);
      if error.Some? {
        return Fail(error.value);
      }
      i := i + 1;
    }
    outcome := Pass;
  }

  //////////////////////////////////////////////////////////////////////////////
  // GetCellDataForSheetField: record -> cell
  //////////////////////////////////////////////////////////////////////////////

  datatype ExtendedValue = ExtendedValue(
    stringValue: Option<string>,
    numberValue: Option<real>,
    boolValue: Option<bool>)

  datatype NumberFormat = NumberFormat(pattern: string, formatType: string)

  datatype CellFormat = CellFormat(numberFormat: Option<NumberFormat>)

  datatype CellData = CellData(userEnteredValue: ExtendedValue, userEnteredFormat: Option<CellFormat>)

  /** `value.ToString()` of a non-null value. */
  function Show(value: Value, lib: Collaborators): string
    requires !value.Null?
  {
    if value.Str? then value.s else lib.toText(value)
  }

  /** The number-format tag each numeric field type is written with. */
  function FormatTag(t: SheetFieldType): Option<string> {
    match t
    case Currency => Some("CURRENCY")
    case Number => Some("NUMBER")
    case Integer => Some("NUMBER")
    case DateTime => Some("NUMBER")
    case PhoneNumber => Some("NUMBER")
    case _ => None
  }

  /** A numeric cell: only `NumberValue` may be set, and the format carries the pattern and the tag. */
  function NumberCell(number: Option<real>, pattern: string, tag: string): CellData {
    CellData(ExtendedValue(None, number, None), Some(CellFormat(Some(NumberFormat(pattern, tag)))))
  }

  /** `double.Parse(value.ToString())` of a non-null value, `None` for null. */
  function ParsedNumber(value: Value, t: SheetFieldType, lib: Collaborators): Result<Option<real>, MarshalError> {
    if value.Null? then Success(None)
    else match lib.parseDouble(Show(value, lib))
      case None => Failure(ConversionFailed(t, Some(Show(value, lib))))
      case Some(x) => Success(Some(x))
  }

  /** GetCellDataForSheetField: the cell written for a property value under its attribute. */
  function GetCellDataForSheetField(value: Value, attribute: FieldSpec, lib: Collaborators)
    : (r: Result<CellData, MarshalError>)
    ensures r == Failure(UnsupportedFieldType(attribute.fieldType)) <==> attribute.fieldType.Unsupported?
    ensures attribute.fieldType == String ==>
      r.Success? &&
      r.value.userEnteredFormat.None? &&
      r.value.userEnteredValue.numberValue.None? && r.value.userEnteredValue.boolValue.None? &&
      r.value.userEnteredValue.stringValue ==
        Some(if value.Null? || IsNullOrWhiteSpace(Some(Show(value, lib))) then "" else Show(value, lib))
    ensures r.Success? && FormatTag(attribute.fieldType).Some? ==>
      r.value.userEnteredFormat ==
        Some(CellFormat(Some(NumberFormat(attribute.NumberFormatPattern().value, FormatTag(attribute.fieldType).value)))) &&
      r.value.userEnteredValue.stringValue.None? && r.value.userEnteredValue.boolValue.None?
    ensures value.Null? && FormatTag(attribute.fieldType).Some? ==>
      r.Success? && r.value.userEnteredValue.numberValue.None?
    ensures attribute.fieldType == PhoneNumber && r.Success? ==> r.value.userEnteredValue.numberValue != Some(0.0)
    ensures attribute.fieldType in {Currency, Number, PhoneNumber} && !value.Null? ==>
      var parsed := lib.parseDouble(Show(value, lib));
      (parsed.None? ==> r == Failure(ConversionFailed(attribute.fieldType, Some(Show(value, lib))))) &&
      (parsed.Some? ==> (r.Success? && r.value.userEnteredValue.numberValue ==
        if attribute.fieldType == PhoneNumber && parsed.value == 0.0 then None else parsed))
    ensures attribute.fieldType == DateTime && !value.Null? ==>
      (value.DateValue? ==> r.Success? && r.value.userEnteredValue.numberValue == Some(lib.convertToSerialNumber(value.t))) &&
      (!value.DateValue? ==> r == Failure(InvalidCast(DateTime)))
    ensures attribute.fieldType == Integer && !value.Null? ==>
      (value.Int? ==> r.Success? && r.value.userEnteredValue.numberValue == Some(value.i as real)) &&
      (!value.Int? ==> r == Failure(InvalidCast(Integer)))
    ensures attribute.fieldType == Boolean ==>
      (r.Success? <==> value.Null? || value.Bool?) &&
      (r.Success? ==> r.value == CellData(ExtendedValue(None, None, if value.Bool? then Some(value.b) else None),
                                          Some(CellFormat(None)))) &&
      (r.Failure? ==> r.error == InvalidCast(Boolean))
  {
    var t := attribute.fieldType;
    match t
    case String =>
      var text := if value.Null? || IsNullOrWhiteSpace(Some(Show(value, lib))) then "" else Show(value, lib);
      Success(CellData(ExtendedValue(Some(text), None, None), None))
    case Currency =>
      var number :- ParsedNumber(value, t, lib);
      Success(NumberCell(number, attribute.NumberFormatPattern().value, "CURRENCY"))
    case PhoneNumber =>
      var number :- ParsedNumber(value, t, lib);
      var nonZero := if number == Some(0.0) then None else number;
      Success(NumberCell(nonZero, attribute.NumberFormatPattern().value, "NUMBER"))
    case DateTime =>
      if value.Null? then Success(NumberCell(None, attribute.NumberFormatPattern().value, "NUMBER"))
      else if value.DateValue? then
        Success(NumberCell(Some(lib.convertToSerialNumber(value.t)), attribute.NumberFormatPattern().value, "NUMBER"))
      else Failure(InvalidCast(t))
    case Number =>
      var number :- ParsedNumber(value, t, lib);
      Success(NumberCell(number, attribute.NumberFormatPattern().value, "NUMBER"))
    case Integer =>
      if value.Null? then Success(NumberCell(None, attribute.NumberFormatPattern().value, "NUMBER"))
      else if value.Int? then Success(NumberCell(Some(value.i as real), attribute.NumberFormatPattern().value, "NUMBER"))
      else Failure(InvalidCast(t))
    case Boolean =>
      if value.Null? then Success(CellData(ExtendedValue(None, None, None), Some(CellFormat(None))))
      else if value.Bool? then Success(CellData(ExtendedValue(None, None, Some(value.b)), Some(CellFormat(None))))
      else Failure(InvalidCast(t))
    case Unsupported(_) =>
      Failure(UnsupportedFieldType(t))
  }

  //////////////////////////////////////////////////////////////////////////////
  // GetAllSheetFieldAttributes: the attributed properties of a type
  //////////////////////////////////////////////////////////////////////////////

  /** The (attribute, property name) pairs of the attributed properties. */
  function AttributedPairs(properties: seq<PropertyEntry>): set<(FieldSpec, string)> {
    set i | 0 <= i < |properties| && properties[i].attribute.Some? ::
      (properties[i].attribute.value, properties[i].name)
  }

  /** No attribute is equal, under the comparer, to an attribute of an earlier property. */
  predicate DistinctKeys(properties: seq<PropertyEntry>, compare: (FieldSpec, FieldSpec) -> int) {
    forall i, j :: 0 <= i < j < |properties| && properties[i].attribute.Some? && properties[j].attribute.Some?
      ==> compare(properties[j].attribute.value, properties[i].attribute.value) != 0
  }

  /**
   * GetAllSheetFieldAttributes: adds every attributed property to a dictionary keyed by its
   * attribute; `Add` throws on a key the comparer finds equal to one already present.
   */
  method GetAllSheetFieldAttributes(properties: seq<PropertyEntry>, compare: (FieldSpec, FieldSpec) -> int)
    returns (r: Result<seq<(FieldSpec, string)>, MarshalError>)
    ensures r.Success? <==> DistinctKeys(properties, compare)
    ensures r.Success? ==> forall e :: e in r.value <==> e in AttributedPairs(properties)
    ensures r.Failure? ==> r.error.DuplicateKey?
  {
    var result: seq<(FieldSpec, string)> := [];
    var i := 0;
    while i < |properties|
      invariant 0 <= i <= |properties|
      invariant DistinctKeys(properties[..i], compare)
      invariant forall e :: e in result <==> e in AttributedPairs(properties[..i])
    {
      var property := properties[i];
      assert properties[..i + 1] == properties[..i] + [property];
      if property.attribute.Some? {
        var attribute := property.attribute.value;
        if exists e :: e in result && compare(attribute, e.0) == 0 {
          var e :| e in result && compare(attribute, e.0) == 0;
          assert e in AttributedPairs(properties[..i]);
          ghost var k :| 0 <= k < i && properties[k].attribute.Some? && e == (properties[k].attribute.value, properties[k].name);
          assert !DistinctKeys(properties, compare) by {
            assert compare(properties[i].attribute.value, properties[k].attribute.value) == 0;
          }
          return Failure(DuplicateKey(attribute));
        }
        forall k | 0 <= k < i && properties[k].attribute.Some?
          ensures compare(attribute, properties[k].attribute.value) != 0
        {
          assert properties[..i][k] == properties[k];
          assert (properties[k].attribute.value, properties[k].name) in AttributedPairs(properties[..i]);
        }
        result := result + [(attribute, property.name)];
      }
      i := i + 1;
    }
    assert properties[..i] == properties;
    r := Success(result);
  }
}
