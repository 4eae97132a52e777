/** One-hot encoding of the single-row project record (`pd.get_dummies`),
    the record the quotation form builds, and what encoding it means for
    each column name the trained model may ask for. */
module Encoding {
  import opened Common

  /** A cell of the one-row input table: numeric, or a text category. */
  datatype Cell = Number(x: real) | Text(s: string)

  /** A named field of the input record. */
  datatype Field = Field(name: string, cell: Cell)

  /** A named numeric column of an encoded table (its single row's value). */
  datatype Column = Column(name: string, value: real)

  /** The column names, in order. */
  function Names(cols: seq<Column>): (r: seq<string>)
    ensures |r| == |cols|
    ensures forall i :: 0 <= i < |cols| ==> r[i] == cols[i].name
  {
    seq(|cols|, i requires 0 <= i < |cols| => cols[i].name)
  }

  predicate Distinct(names: seq<string>) {
    forall i, j :: 0 <= i < j < |names| ==> names[i] != names[j]
  }

  // ---------------------------------------------------------------------
  // pd.get_dummies on a one-row table
  // ---------------------------------------------------------------------

  /** The name of the indicator column for category `value` of field `field`
      (`prefix_sep` is the default "_"). */
  function IndicatorName(field: string, value: string): string {
    field + "_" + value
  }

  /** What encoding makes of one field of a one-row table: a numeric field
      keeps its name and value; a text field becomes the single indicator
      column of the category it holds, set to 1 (`True`). */
  function EncodeField(f: Field): Column {
    match f.cell
    case Number(x) => Column(f.name, x)
    case Text(s) => Column(IndicatorName(f.name, s), 1.0)
  }

  function EncodeFields(row: seq<Field>): seq<Column> {
    if row == [] then [] else [EncodeField(row[0])] + EncodeFields(row[1..])
  }

  /** The numeric columns, kept in record order. */
  function NumericColumns(row: seq<Field>): seq<Column> {
    if row == [] then []
    else if row[0].cell.Number? then [EncodeField(row[0])] + NumericColumns(row[1..])
    else NumericColumns(row[1..])
  }

  /** The indicator columns, one per text field, in record order. */
  function IndicatorColumns(row: seq<Field>): seq<Column> {
    if row == [] then []
    else if row[0].cell.Text? then [EncodeField(row[0])] + IndicatorColumns(row[1..])
    else IndicatorColumns(row[1..])
  }

  /** `pd.get_dummies(df)` for a one-row `df`: the columns that are not
      encoded come first, followed by the indicator columns of each text
      column in turn. A single row observes one category per text column,
      so each text column yields exactly one indicator. */
  function GetDummies(row: seq<Field>): seq<Column> {
    NumericColumns(row) + IndicatorColumns(row)
  }

  /** get_dummies only reorders the per-field encodings: every field gives
      exactly one column and no column comes from nowhere. */
  lemma {:induction false} GetDummiesReordersFields(row: seq<Field>)
    ensures multiset(GetDummies(row)) == multiset(EncodeFields(row))
  {
    if row != [] {
      GetDummiesReordersFields(row[1..]);
      var c := EncodeField(row[0]);
      if row[0].cell.Number? {
        calc {
          multiset(GetDummies(row));
          multiset([c] + NumericColumns(row[1..]) + IndicatorColumns(row[1..]));
          { assert [c] + NumericColumns(row[1..]) + IndicatorColumns(row[1..]) == [c] + GetDummies(row[1..]); }
          multiset([c] + GetDummies(row[1..]));
        }
      } else {
        calc {
          multiset(GetDummies(row));
          multiset(NumericColumns(row[1..])) + multiset([c] + IndicatorColumns(row[1..]));
          multiset([c]) + multiset(GetDummies(row[1..]));
        }
      }
    }
  }

  // ---------------------------------------------------------------------
  // Looking a column up by name
  // ---------------------------------------------------------------------

  /** The value of the first column called `name`, if any. */
  function Lookup(cols: seq<Column>, name: string): Option<real> {
    if cols == [] then None
    else if cols[0].name == name then Some(cols[0].value)
    else Lookup(cols[1..], name)
  }

  /** The value a column ends up with after alignment: its encoded value when
      encoding produced it, and the fill value 0 otherwise. */
  function ValueOrZero(cols: seq<Column>, name: string): real {
    match Lookup(cols, name)
    case Some(v) => v
    case None => 0.0
  }

  lemma {:induction false} LookupAbsent(cols: seq<Column>, name: string)
    requires name !in Names(cols)
    ensures Lookup(cols, name) == None
  {
    if cols != [] {
      assert Names(cols[1..]) == Names(cols)[1..];
      LookupAbsent(cols[1..], name);
    }
  }

  lemma {:induction false} LookupPresent(cols: seq<Column>, i: nat)
    requires i < |cols| && Distinct(Names(cols))
    ensures Lookup(cols, cols[i].name) == Some(cols[i].value)
  {
    if i > 0 {
      assert Names(cols[1..]) == Names(cols)[1..];
      assert cols[0].name != cols[i].name by { assert Names(cols)[0] != Names(cols)[i]; }
      LookupPresent(cols[1..], i - 1);
    }
  }

  // ---------------------------------------------------------------------
  // The record built by the quotation form
  // ---------------------------------------------------------------------

  /** The values collected by the form. Counts are integers, lengths and
      areas are reals. */
  datatype ProjectInput = ProjectInput(
    state: string,
    buildingType: string,
    floorAreaM2: real,
    rooms: int,
    lightingPoints: int,
    socketPoints: int,
    switchPoints: int,
    cableLengthM: real,
    conduitLengthM: real,
    labourType: string)

  /** The one-row table of the handler, field by field in its own order. */
  function InputRow(p: ProjectInput): seq<Field> {
    [ Field("state", Text(p.state)),
      Field("building_type", Text(p.buildingType)),
      Field("floor_area_m2", Number(p.floorAreaM2)),
      Field("rooms", Number(p.rooms as real)),
      Field("lighting_points", Number(p.lightingPoints as real)),
      Field("socket_points", Number(p.socketPoints as real)),
      Field("switch_points", Number(p.switchPoints as real)),
      Field("cable_length_m", Number(p.cableLengthM)),
      Field("conduit_length_m", Number(p.conduitLengthM)),
      Field("labour_type", Text(p.labourType)) ]
  }

  /** The numeric fields of the record. */
  datatype NumericField =
    FloorArea | Rooms | LightingPoints | SocketPoints | SwitchPoints | CableLength | ConduitLength

  function NumericName(f: NumericField): string {
    match f
    case FloorArea => "floor_area_m2"
    case Rooms => "rooms"
    case LightingPoints => "lighting_points"
    case SocketPoints => "socket_points"
    case SwitchPoints => "switch_points"
    case CableLength => "cable_length_m"
    case ConduitLength => "conduit_length_m"
  }

  function NumericValue(p: ProjectInput, f: NumericField): real {
    match f
    case FloorArea => p.floorAreaM2
    case Rooms => p.rooms as real
    case LightingPoints => p.lightingPoints as real
    case SocketPoints => p.socketPoints as real
    case SwitchPoints => p.switchPoints as real
    case CableLength => p.cableLengthM
    case ConduitLength => p.conduitLengthM
  }

  /** The text (categorical) fields of the record. */
  datatype CategoricalField = State | BuildingType | LabourType

  function CategoricalName(f: CategoricalField): string {
    match f
    case State => "state"
    case BuildingType => "building_type"
    case LabourType => "labour_type"
  }

  function CategoricalValue(p: ProjectInput, f: CategoricalField): string {
    match f
    case State => p.state
    case BuildingType => p.buildingType
    case LabourType => p.labourType
  }

  /** The encoded record. */
  function Encoded(p: ProjectInput): seq<Column> {
    GetDummies(InputRow(p))
  }

  /** The value the aligned vector holds in column `c`. */
  function ColumnValue(p: ProjectInput, c: string): real {
    ValueOrZero(Encoded(p), c)
  }

  /** The encoded record, column by column: the seven numeric columns in
      record order, then the indicators of state, building type and labour
      type. */
  lemma EncodedList(p: ProjectInput)
    ensures Encoded(p) ==
      [ Column("floor_area_m2", p.floorAreaM2),
        Column("rooms", p.rooms as real),
        Column("lighting_points", p.lightingPoints as real),
        Column("socket_points", p.socketPoints as real),
        Column("switch_points", p.switchPoints as real),
        Column("cable_length_m", p.cableLengthM),
        Column("conduit_length_m", p.conduitLengthM),
        Column(IndicatorName("state", p.state), 1.0),
        Column(IndicatorName("building_type", p.buildingType), 1.0),
        Column(IndicatorName("labour_type", p.labourType), 1.0) ]
  {
    NumericPart(InputRow(p));
    IndicatorPart(InputRow(p));
  }

  lemma NumericPart(row: seq<Field>)
    requires |row| == 10 && row[0].cell.Text? && row[1].cell.Text? && row[9].cell.Text?
    requires forall k :: 2 <= k < 9 ==> row[k].cell.Number?
    ensures NumericColumns(row) == [EncodeField(row[2]), EncodeField(row[3]), EncodeField(row[4]),
      EncodeField(row[5]), EncodeField(row[6]), EncodeField(row[7]), EncodeField(row[8])]
  {
    assert row[2].cell.Number? && row[3].cell.Number? && row[4].cell.Number? && row[5].cell.Number?;
    assert row[6].cell.Number? && row[7].cell.Number? && row[8].cell.Number?;
    assert NumericColumns(row[9..]) == [] by { assert row[9..][1..] == []; }
    assert NumericColumns(row[8..]) == [EncodeField(row[8])] + NumericColumns(row[9..]);
    assert NumericColumns(row[7..]) == [EncodeField(row[7])] + NumericColumns(row[8..]);
    assert NumericColumns(row[6..]) == [EncodeField(row[6])] + NumericColumns(row[7..]);
    assert NumericColumns(row[5..]) == [EncodeField(row[5])] + NumericColumns(row[6..]);
    assert NumericColumns(row[4..]) == [EncodeField(row[4])] + NumericColumns(row[5..]);
    assert NumericColumns(row[3..]) == [EncodeField(row[3])] + NumericColumns(row[4..]);
    assert NumericColumns(row[2..]) == [EncodeField(row[2])] + NumericColumns(row[3..]);
    assert NumericColumns(row[1..]) == NumericColumns(row[2..]);
  }

  lemma IndicatorPart(row: seq<Field>)
    requires |row| == 10 && row[0].cell.Text? && row[1].cell.Text? && row[9].cell.Text?
    requires forall k :: 2 <= k < 9 ==> row[k].cell.Number?
    ensures IndicatorColumns(row) == [EncodeField(row[0]), EncodeField(row[1]), EncodeField(row[9])]
  {
    assert row[2].cell.Number? && row[3].cell.Number? && row[4].cell.Number? && row[5].cell.Number?;
    assert row[6].cell.Number? && row[7].cell.Number? && row[8].cell.Number?;
    assert IndicatorColumns(row[9..]) == [EncodeField(row[9])] by { assert row[9..][1..] == []; }
    assert IndicatorColumns(row[8..]) == IndicatorColumns(row[9..]);
    assert IndicatorColumns(row[7..]) == IndicatorColumns(row[8..]);
    assert IndicatorColumns(row[6..]) == IndicatorColumns(row[7..]);
    assert IndicatorColumns(row[5..]) == IndicatorColumns(row[6..]);
    assert IndicatorColumns(row[4..]) == IndicatorColumns(row[5..]);
    assert IndicatorColumns(row[3..]) == IndicatorColumns(row[4..]);
    assert IndicatorColumns(row[2..]) == IndicatorColumns(row[3..]);
    assert IndicatorColumns(row[1..]) == [EncodeField(row[1])] + IndicatorColumns(row[2..]);
  }

  lemma EncodedColumns(p: ProjectInput)
    ensures |Encoded(p)| == 10
    ensures Encoded(p)[0] == Column("floor_area_m2", p.floorAreaM2)
    ensures Encoded(p)[1] == Column("rooms", p.rooms as real)
    ensures Encoded(p)[2] == Column("lighting_points", p.lightingPoints as real)
    ensures Encoded(p)[3] == Column("socket_points", p.socketPoints as real)
    ensures Encoded(p)[4] == Column("switch_points", p.switchPoints as real)
    ensures Encoded(p)[5] == Column("cable_length_m", p.cableLengthM)
    ensures Encoded(p)[6] == Column("conduit_length_m", p.conduitLengthM)
    ensures Encoded(p)[7] == Column(IndicatorName("state", p.state), 1.0)
    ensures Encoded(p)[8] == Column(IndicatorName("building_type", p.buildingType), 1.0)
    ensures Encoded(p)[9] == Column(IndicatorName("labour_type", p.labourType), 1.0)
  {
    EncodedList(p);
  }

  /** No two columns of the encoded record share a name, whatever the
      categories hold: the indicator prefixes differ from each other and
      from every numeric column name. */
  lemma EncodedNamesDistinct(p: ProjectInput)
    ensures Distinct(Names(Encoded(p)))
  {
    EncodedColumns(p);
    var names := Names(Encoded(p));
    var s := IndicatorName("state", p.state);
    var b := IndicatorName("building_type", p.buildingType);
    var l := IndicatorName("labour_type", p.labourType);
    assert s[0] == 's' && s[1] == 't';
    assert b[0] == 'b';
    assert l[0] == 'l' && l[1] == 'a';
    forall i, j | 0 <= i < j < |names|
      ensures names[i] != names[j]
    {
      assert names[i][0] != names[j][0] || names[i][1] != names[j][1] || |names[i]| != |names[j]|
        || names[i][2] != names[j][2];
    }
  }

  /** Every numeric field reaches its same-named column unchanged. */
  lemma NumericPassThrough(p: ProjectInput, f: NumericField)
    ensures ColumnValue(p, NumericName(f)) == NumericValue(p, f)
  {
    EncodedColumns(p);
    EncodedNamesDistinct(p);
    var k := match f
      case FloorArea => 0 case Rooms => 1 case LightingPoints => 2 case SocketPoints => 3
      case SwitchPoints => 4 case CableLength => 5 case ConduitLength => 6;
    LookupPresent(Encoded(p), k);
  }

  /** One-hot exclusivity: among the columns named `<field>_...`, exactly the
      one naming the record's category holds 1 and every other holds 0. A
      category the column list does not name therefore leaves all of the
      field's indicators at 0, without an error. */
  lemma OneHotExclusive(p: ProjectInput, f: CategoricalField, c: string)
    requires StartsWith(c, CategoricalName(f) + "_")
    ensures ColumnValue(p, c) ==
      if c == IndicatorName(CategoricalName(f), CategoricalValue(p, f)) then 1.0 else 0.0
  {
    EncodedColumns(p);
    var e := Encoded(p);
    if c == IndicatorName(CategoricalName(f), CategoricalValue(p, f)) {
      EncodedNamesDistinct(p);
      LookupPresent(e, match f case State => 7 case BuildingType => 8 case LabourType => 9);
    } else {
      PrefixedNotEncoded(p, f, c);
      LookupAbsent(e, c);
    }
  }

  lemma PrefixedNotEncoded(p: ProjectInput, f: CategoricalField, c: string)
    requires StartsWith(c, CategoricalName(f) + "_")
    requires c != IndicatorName(CategoricalName(f), CategoricalValue(p, f))
    ensures c !in Names(Encoded(p))
  {
    EncodedColumns(p);
    var prefix := CategoricalName(f) + "_";
    assert c[0] == prefix[0] && c[1] == prefix[1] by { assert c[..|prefix|] == prefix; }
    var names := Names(Encoded(p));
    forall j | 0 <= j < |names| ensures names[j] != c {
      if j < 7 {
        assert names[j][0] != c[0] || names[j][1] != c[1];
      } else {
        assert names[j][0] != c[0] || names[j][1] != c[1] || names[j] == IndicatorName(CategoricalName(f), CategoricalValue(p, f));
      }
    }
  }

  /** A category no trained column names leaves every indicator column of
      its field at 0, and no error is raised. */
  lemma UnseenCategoryAllZero(p: ProjectInput, f: CategoricalField, featureColumns: seq<string>)
    requires IndicatorName(CategoricalName(f), CategoricalValue(p, f)) !in featureColumns
    ensures forall i :: 0 <= i < |featureColumns| && StartsWith(featureColumns[i], CategoricalName(f) + "_") ==>
      ColumnValue(p, featureColumns[i]) == 0.0
  {
    forall i | 0 <= i < |featureColumns| && StartsWith(featureColumns[i], CategoricalName(f) + "_")
      ensures ColumnValue(p, featureColumns[i]) == 0.0
    {
      OneHotExclusive(p, f, featureColumns[i]);
    }
  }

  /** Among a field's indicator columns, at most one distinct name holds 1. */
  lemma OneHotAtMostOne(p: ProjectInput, f: CategoricalField, c1: string, c2: string)
    requires StartsWith(c1, CategoricalName(f) + "_") && StartsWith(c2, CategoricalName(f) + "_")
    requires ColumnValue(p, c1) != 0.0 && ColumnValue(p, c2) != 0.0
    ensures c1 == c2
  {
    OneHotExclusive(p, f, c1);
    OneHotExclusive(p, f, c2);
  }

  /** A column that encoding did not produce holds the fill value 0, and
      encoding produces exactly the seven numeric columns and the three
      indicators of the record's categories. */
  lemma NotEncodedIsZero(p: ProjectInput, c: string)
    ensures c in Names(Encoded(p)) <==>
      (exists f :: c == NumericName(f)) ||
      (exists f :: c == IndicatorName(CategoricalName(f), CategoricalValue(p, f)))
    ensures c !in Names(Encoded(p)) ==> ColumnValue(p, c) == 0.0
  {
    EncodedColumns(p);
    var names := Names(Encoded(p));
    if c in names {
      var i :| 0 <= i < |names| && names[i] == c;
      var nf := [FloorArea, Rooms, LightingPoints, SocketPoints, SwitchPoints, CableLength, ConduitLength];
      if i < 7 {
        assert c == NumericName(nf[i]);
      } else if i == 7 {
        assert c == IndicatorName(CategoricalName(State), CategoricalValue(p, State));
      } else if i == 8 {
        assert c == IndicatorName(CategoricalName(BuildingType), CategoricalValue(p, BuildingType));
      } else {
        assert c == IndicatorName(CategoricalName(LabourType), CategoricalValue(p, LabourType));
      }
    } else {
      LookupAbsent(Encoded(p), c);
    }
    if (exists f :: c == NumericName(f)) {
      var f :| c == NumericName(f);
      match f
      case FloorArea => assert names[0] == c;
      case Rooms => assert names[1] == c;
      case LightingPoints => assert names[2] == c;
      case SocketPoints => assert names[3] == c;
      case SwitchPoints => assert names[4] == c;
      case CableLength => assert names[5] == c;
      case ConduitLength => assert names[6] == c;
    }
    if (exists f :: c == IndicatorName(CategoricalName(f), CategoricalValue(p, f))) {
      var f :| c == IndicatorName(CategoricalName(f), CategoricalValue(p, f));
      match f
      case State => assert names[7] == c;
      case BuildingType => assert names[8] == c;
      case LabourType => assert names[9] == c;
    }
  }
}
