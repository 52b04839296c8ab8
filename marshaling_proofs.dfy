/** Properties of PopulateRecord and GetCellDataForSheetField that relate several calls. */
module MarshalingProofs {
  import opened Wrappers
  import opened Primitives
  import opened SheetFields
  import opened FieldMarshaling

  //////////////////////////////////////////////////////////////////////////////
  // What PopulateRecord changes
  //////////////////////////////////////////////////////////////////////////////

  /** A property PopulateRecord never reads keeps its value, or stays unset. */
  lemma {:induction false} PopulateLeavesUnreadProperties(store: Store, properties: seq<PropertyEntry>,
      row: seq<Option<string>>, minColumnId: Int32, lib: Collaborators, name: string)
    requires forall i :: 0 <= i < |properties| && properties[i].name == name ==> !ReadsCell(properties[i], row, minColumnId)
    ensures var after := Populate(store, properties, row, minColumnId, lib).store;
      (name in after <==> name in store) && (name in store ==> after[name] == store[name])
    decreases |properties|
  {
    if properties != [] {
      var step := PopulateProperty(store, properties[0], row, minColumnId, lib);
      if step.Success? {
        assert step.value.Keys <= store.Keys + {properties[0].name};
        if properties[0].name == name {
          assert step.value == store;
        }
        forall i | 0 <= i < |properties[1..]| && properties[1..][i].name == name
          ensures !ReadsCell(properties[1..][i], row, minColumnId)
        {
          assert properties[1..][i] == properties[i + 1];
        }
        PopulateLeavesUnreadProperties(step.value, properties[1..], row, minColumnId, lib, name);
      }
    }
  }

  /** Populating with a schema split in two is populating with each part in turn, unless the first part throws. */
  lemma {:induction false} PopulateConcat(store: Store, first: seq<PropertyEntry>, second: seq<PropertyEntry>,
      row: seq<Option<string>>, minColumnId: Int32, lib: Collaborators)
    ensures var mid := Populate(store, first, row, minColumnId, lib);
      Populate(store, first + second, row, minColumnId, lib) ==
        if mid.error.Some? then mid else Populate(mid.store, second, row, minColumnId, lib)
    decreases |first|
  {
    if first == [] {
      assert first + second == second;
    } else {
      assert (first + second)[0] == first[0];
      assert (first + second)[1..] == first[1..] + second;
      var step := PopulateProperty(store, first[0], row, minColumnId, lib);
      if step.Success? {
        PopulateConcat(step.value, first[1..], second, row, minColumnId, lib);
      }
    }
  }

  /** With every ColumnID at least minColumnId (and the difference within 32 bits), no index is negative. */
  lemma {:induction false} NoIndexErrorFromMinColumn(store: Store, properties: seq<PropertyEntry>,
      row: seq<Option<string>>, minColumnId: Int32, lib: Collaborators)
    requires forall i :: 0 <= i < |properties| && properties[i].attribute.Some? ==>
      minColumnId <= properties[i].attribute.value.columnID <= minColumnId + MAX_INT32
    ensures var result := Populate(store, properties, row, minColumnId, lib);
      result.error.None? || !result.error.value.IndexOutOfRange?
    decreases |properties|
  {
    if properties != [] {
      var entry := properties[0];
      if entry.attribute.Some? {
        assert 0 <= CellOffset(entry.attribute.value, minColumnId);
      }
      var step := PopulateProperty(store, entry, row, minColumnId, lib);
      if step.Success? {
        forall i | 0 <= i < |properties[1..]| && properties[1..][i].attribute.Some?
          ensures minColumnId <= properties[1..][i].attribute.value.columnID <= minColumnId + MAX_INT32
        {
          assert properties[1..][i] == properties[i + 1];
        }
        NoIndexErrorFromMinColumn(step.value, properties[1..], row, minColumnId, lib);
      }
    }
  }

  /**
   * A ColumnID below minColumnId whose 32-bit difference does not wrap below int.MinValue
   * throws, even on an empty row, and the record is left as it was.
   */
  lemma ColumnBelowMinThrows(store: Store, entry: PropertyEntry, row: seq<Option<string>>,
      minColumnId: Int32, lib: Collaborators)
    requires entry.attribute.Some?
    requires MIN_INT32 <= entry.attribute.value.columnID - minColumnId < 0
    ensures Populate(store, [entry], row, minColumnId, lib) ==
      Populated(store, Some(IndexOutOfRange(entry.attribute.value.columnID - minColumnId)))
  {
  }

  /** The offset is computed in 32 bits: ColumnID int.MaxValue with minColumnId -1 reads index int.MinValue and throws. */
  lemma WrappedOffsetThrows(store: Store, name: string, fieldType: SheetFieldType,
      row: seq<Option<string>>, lib: Collaborators)
    ensures var entry := PropertyEntry(name, Some(FieldSpec(name, MAX_INT32, fieldType, None)));
      Populate(store, [entry], row, -1, lib) == Populated(store, Some(IndexOutOfRange(MIN_INT32)))
  {
    assert Wrap32(MAX_INT32 - -1) == MIN_INT32;
  }

  /** A type outside the seven handled ones throws once its cell is reached, and is skipped beyond the row. */
  lemma UnsupportedTypeThrows(store: Store, entry: PropertyEntry, row: seq<Option<string>>,
      minColumnId: Int32, lib: Collaborators)
    requires entry.attribute.Some? && entry.attribute.value.fieldType.Unsupported?
    ensures var offset := CellOffset(entry.attribute.value, minColumnId);
      Populate(store, [entry], row, minColumnId, lib) ==
        if offset >= |row| then Populated(store, None)
        else if offset < 0 then Populated(store, Some(IndexOutOfRange(offset)))
        else Populated(store, Some(UnsupportedFieldType(entry.attribute.value.fieldType)))
  {
  }

  //////////////////////////////////////////////////////////////////////////////
  // PopulateRecord keeps every property's value of its field's kind
  //////////////////////////////////////////////////////////////////////////////

  predicate UniqueNames(properties: seq<PropertyEntry>) {
    forall i, j :: 0 <= i < j < |properties| ==> properties[i].name != properties[j].name
  }

  /** Every attributed property that is set holds a value of its field type's kind. */
  predicate WellTyped(store: Store, properties: seq<PropertyEntry>) {
    forall i :: 0 <= i < |properties| && properties[i].attribute.Some? && properties[i].name in store
      ==> HasFieldType(store[properties[i].name], properties[i].attribute.value.fieldType)
  }

  lemma PopulatePropertyWellTyped(store: Store, schema: seq<PropertyEntry>, k: nat,
      row: seq<Option<string>>, minColumnId: Int32, lib: Collaborators)
    requires k < |schema| && UniqueNames(schema) && WellTyped(store, schema)
    ensures var step := PopulateProperty(store, schema[k], row, minColumnId, lib);
      step.Success? ==> WellTyped(step.value, schema)
  {
    var step := PopulateProperty(store, schema[k], row, minColumnId, lib);
    if step.Success? && step.value != store {
      var attribute := schema[k].attribute.value;
      var assignment := CellAssignment(attribute, row[CellOffset(attribute, minColumnId)], lib);
      assert step.value == store[schema[k].name := assignment.value.value];
      forall i | 0 <= i < |schema| && schema[i].attribute.Some? && schema[i].name in step.value
        ensures HasFieldType(step.value[schema[i].name], schema[i].attribute.value.fieldType)
      {
        if i != k {
          assert schema[i].name != schema[k].name;
        }
      }
    }
  }

  lemma {:induction false} PopulateWellTypedFrom(store: Store, schema: seq<PropertyEntry>, k: nat,
      row: seq<Option<string>>, minColumnId: Int32, lib: Collaborators)
    requires k <= |schema| && UniqueNames(schema) && WellTyped(store, schema)
    ensures WellTyped(Populate(store, schema[k..], row, minColumnId, lib).store, schema)
    decreases |schema| - k
  {
    if k < |schema| {
      assert schema[k..][0] == schema[k] && schema[k..][1..] == schema[k + 1..];
      PopulatePropertyWellTyped(store, schema, k, row, minColumnId, lib);
      var step := PopulateProperty(store, schema[k], row, minColumnId, lib);
      if step.Success? {
        PopulateWellTypedFrom(step.value, schema, k + 1, row, minColumnId, lib);
      }
    }
  }

  /** PopulateRecord never stores a value of the wrong kind in a property with distinct names. */
  lemma PopulateKeepsFieldTypes(store: Store, properties: seq<PropertyEntry>,
      row: seq<Option<string>>, minColumnId: Int32, lib: Collaborators)
    requires UniqueNames(properties) && WellTyped(store, properties)
    ensures WellTyped(Populate(store, properties, row, minColumnId, lib).store, properties)
  {
    assert properties[0..] == properties;
    PopulateWellTypedFrom(store, properties, 0, row, minColumnId, lib);
  }

  //////////////////////////////////////////////////////////////////////////////
  // Reading a cell and writing it back
  //////////////////////////////////////////////////////////////////////////////

  /** The number a numeric value stands for. */
  function NumberOf(v: Value): Option<real> {
    match v
    case Double(x) => Some(x)
    case Int(i) => Some(i as real)
    case Long(l) => Some(l as real)
    case _ => None
  }

  /** A non-blank String cell is read verbatim and written back as the same text, with no format. */
  lemma StringRoundTrip(attribute: FieldSpec, text: string, lib: Collaborators)
    requires attribute.fieldType == String && !IsNullOrWhiteSpace(Some(text))
    ensures CellAssignment(attribute, Some(text), lib) == Success(Some(Str(text)))
    ensures GetCellDataForSheetField(Str(text), attribute, lib) ==
      Success(CellData(ExtendedValue(Some(text), None, None), None))
  {
  }

  /** A null String cell is read as null and written back as "". */
  lemma NullStringRoundTrip(attribute: FieldSpec, lib: Collaborators)
    requires attribute.fieldType == String
    ensures CellAssignment(attribute, None, lib) == Success(Some(Null))
    ensures GetCellDataForSheetField(Null, attribute, lib) ==
      Success(CellData(ExtendedValue(Some(""), None, None), None))
  {
  }

  /** A Boolean cell is written back as the boolean it was read as. */
  lemma BooleanRoundTrip(attribute: FieldSpec, cell: Option<string>, lib: Collaborators, b: bool)
    requires attribute.fieldType == Boolean && lib.toBoolean(cell) == Some(b)
    ensures CellAssignment(attribute, cell, lib) == Success(Some(Bool(b)))
    ensures GetCellDataForSheetField(Bool(b), attribute, lib) ==
      Success(CellData(ExtendedValue(None, None, Some(b)), Some(CellFormat(None))))
  {
  }

  /**
   * Whatever a numeric cell is read as is written back as the same number, zero phone
   * numbers aside, provided `double.Parse(v.ToString())` gives back the value read.
   */
  lemma NumericRoundTrip(attribute: FieldSpec, cell: Option<string>, lib: Collaborators)
    requires attribute.fieldType in {Number, Currency, Integer, PhoneNumber}
    requires CellAssignment(attribute, cell, lib).Success? && CellAssignment(attribute, cell, lib).value.Some?
    requires var v := CellAssignment(attribute, cell, lib).value.value;
      v.Int? || lib.parseDouble(Show(v, lib)) == NumberOf(v)
    ensures var v := CellAssignment(attribute, cell, lib).value.value;
      var written := GetCellDataForSheetField(v, attribute, lib);
      NumberOf(v).Some? && written.Success? &&
      written.value.userEnteredValue.numberValue ==
        (if attribute.fieldType == PhoneNumber && NumberOf(v) == Some(0.0) then None else NumberOf(v)) &&
      written.value.userEnteredFormat ==
        Some(CellFormat(Some(NumberFormat(attribute.NumberFormatPattern().value, FormatTag(attribute.fieldType).value))))
  {
    var v := CellAssignment(attribute, cell, lib).value.value;
    assert NumberOf(v).Some?;
    if !v.Int? {
      assert lib.parseDouble(Show(v, lib)) == NumberOf(v);
    }
  }

  /** A DateTime cell is written back through the serial-number conversion of the date it was read as. */
  lemma DateTimeRoundTrip(attribute: FieldSpec, text: string, lib: Collaborators, serial: real, date: Timestamp)
    requires attribute.fieldType == DateTime && !IsNullOrWhiteSpace(Some(text))
    requires lib.parseDouble(text) == Some(serial) && lib.convertFromSerialNumber(serial) == Some(date)
    ensures CellAssignment(attribute, Some(text), lib) == Success(Some(DateValue(date)))
    ensures GetCellDataForSheetField(DateValue(date), attribute, lib) ==
      Success(NumberCell(Some(lib.convertToSerialNumber(date)), attribute.NumberFormatPattern().value, "NUMBER"))
  {
  }

  //////////////////////////////////////////////////////////////////////////////
  // The test record's schema
  //////////////////////////////////////////////////////////////////////////////

  /** Name/1/String, PhoneNumber/2, PriceAmount/3/Currency, DateTime/4, Quantity/5/Number. */
  function TestRecordSchema(): seq<PropertyEntry> {
    [PropertyEntry("Name", Some(FieldSpec("Name", 1, String, None))),
     PropertyEntry("PhoneNumber", Some(FieldSpec("Number", 2, PhoneNumber, None))),
     PropertyEntry("PriceAmount", Some(FieldSpec("Price Amount", 3, Currency, None))),
     PropertyEntry("DateTime", Some(FieldSpec("Date", 4, DateTime, None))),
     PropertyEntry("Quantity", Some(FieldSpec("Quantity", 5, Number, None)))]
  }

  /** A one-cell row sets only Name; the other columns lie beyond the row. */
  lemma ShortRowSetsOnlyName(lib: Collaborators)
    ensures Populate(map[], TestRecordSchema(), [Some("Bob")], 1, lib) == Populated(map["Name" := Str("Bob")], None)
  {
    var schema := TestRecordSchema();
    var row := [Some("Bob")];
    var named := map["Name" := Str("Bob")];
    assert PopulateProperty(map[], schema[0], row, 1, lib) == Success(named);
    assert schema[1..][1..][1..][1..][1..] == [];
    assert Populate(named, schema[1..][1..][1..][1..], row, 1, lib) == Populated(named, None);
    assert Populate(named, schema[1..][1..][1..], row, 1, lib) == Populated(named, None);
    assert Populate(named, schema[1..][1..], row, 1, lib) == Populated(named, None);
  }

  /**
   * On one sample row, a blank phone cell, blank Currency and Quantity cells and a null
   * DateTime cell leave those properties unset, given a phone-code cleaner that keeps "".
   */
  lemma BlankCellsAreSkipped(lib: Collaborators)
    requires lib.removeUSInternationalPhoneCode(Some("")) == Some("")
    ensures Populate(map[], TestRecordSchema(), [Some("Ann"), Some(""), Some(" "), None, Some("\t")], 1, lib)
      == Populated(map["Name" := Str("Ann")], None)
  {
    var schema := TestRecordSchema();
    var row := [Some("Ann"), Some(""), Some(" "), None, Some("\t")];
    var named := map["Name" := Str("Ann")];
    assert PopulateProperty(map[], schema[0], row, 1, lib) == Success(named);
    assert PopulateProperty(named, schema[1], row, 1, lib) == Success(named) by {
      assert CellAssignment(schema[1].attribute.value, row[1], lib) == Success(None);
    }
    assert PopulateProperty(named, schema[2], row, 1, lib) == Success(named) by {
      assert IsWhiteSpace(' ');
      assert CellAssignment(schema[2].attribute.value, row[2], lib) == Success(None);
    }
    assert PopulateProperty(named, schema[3], row, 1, lib) == Success(named) by {
      assert CellAssignment(schema[3].attribute.value, row[3], lib) == Success(None);
    }
    assert PopulateProperty(named, schema[4], row, 1, lib) == Success(named) by {
      assert IsWhiteSpace('\t');
      assert CellAssignment(schema[4].attribute.value, row[4], lib) == Success(None);
    }
    assert schema[5..] == [];
    SkippedStep(named, schema, 4, row, lib);
    SkippedStep(named, schema, 3, row, lib);
    SkippedStep(named, schema, 2, row, lib);
    SkippedStep(named, schema, 1, row, lib);
    PopulateStep(map[], schema, 0, row, 1, lib);
    assert schema[0..] == schema;
  }

  /** A property whose cell is skipped leaves the rest of the fold as it was. */
  lemma SkippedStep(store: Store, properties: seq<PropertyEntry>, i: nat,
                    row: seq<Option<string>>, lib: Collaborators)
    requires i < |properties|
    requires PopulateProperty(store, properties[i], row, 1, lib) == Success(store)
    requires Populate(store, properties[i+1..], row, 1, lib) == Populated(store, None)
    ensures Populate(store, properties[i..], row, 1, lib) == Populated(store, None)
  {
    PopulateStep(store, properties, i, row, 1, lib);
  }
}
