/** Pivoting flat (identity, field, value) rows into one record per execution. */
module Metadata {
  import opened Common
  import opened Workloads
  import opened Placement

  /** The columns a stored field can have; the six identity columns cannot be fields. */
  datatype FieldName =
    | NoField
    | IdentityColumn(column: string)
    | ElapsedMs | TlsVersion | TlsGroup | GroupSource
    | HttpVersion | Endpoint | PayloadBytes | ConnectionReuse | Resumption
    | ConfiguredVus | ConfiguredIterations | MaxDuration | ConfiguredRate | ConfiguredPeakRate
    | DataSent | DataReceived
    | OtherField(name: string)

  datatype RecordKey = RecordKey(run: RunId, scenario: string, stack: string, profile: string, index: int, cell: string)

  /** A row of the query result; `None` and "" are absent columns. */
  datatype FlatRow = FlatRow(
    run: Option<RunId>, scenario: string, stack: string, profile: string, index: Option<int>, cell: string,
    field: FieldName, value: string)
  {
    predicate Complete() {
      run.Some? && scenario != "" && stack != "" && profile != "" && index.Some? && cell != ""
    }

    function Key(): RecordKey
      requires Complete()
    {
      RecordKey(run.value, scenario, stack, profile, index.value, cell)
    }

    predicate Usable() {
      Complete() && !field.NoField? && !field.IdentityColumn?
    }
  }

  function Flat(key: RecordKey, field: FieldName, value: string): FlatRow {
    FlatRow(Some(key.run), key.scenario, key.stack, key.profile, Some(key.index), key.cell, field, value)
  }

  /** One record: an execution and its fields. */
  datatype Row = Row(key: RecordKey, fields: map<FieldName, string>) {
    function Run(): RunId {
      key.run
    }

    function Execution(): (string, int) {
      (key.profile, key.index)
    }

    /** row.get(field, "") */
    function Get(field: FieldName): string {
      if field in fields then fields[field] else ""
    }
  }

  /** The field of the record that a row gives. */
  type FieldSlot = (Option<RunId>, string, string, string, Option<int>, string, FieldName)

  const FIELD_SLOT: FlatRow -> FieldSlot :=
    (row: FlatRow) => (row.run, row.scenario, row.stack, row.profile, row.index, row.cell, row.field)

  const USABLE: FlatRow -> bool := (row: FlatRow) => row.Usable()

  /** Every row is usable, none is there twice, and no field of a record is given twice. */
  ghost predicate Pivotable(rows: multiset<FlatRow>) {
    Consistent(rows, USABLE, FIELD_SLOT)
  }

  type Records = map<RecordKey, map<FieldName, string>>

  ghost predicate Has(rows: multiset<FlatRow>, row: FlatRow) {
    row in rows
  }

  /** The records hold exactly the triples of the rows. */
  ghost predicate RecordsOf(rows: multiset<FlatRow>, records: Records) {
    && (forall key, field, value :: Has(rows, Flat(key, field, value)) <==>
          key in records && field in records[key] && records[key][field] == value)
    && (forall key :: key in records ==> records[key] != map[])
  }

  /** The list of records: nothing of the input is lost, nothing is added, no record appears twice. */
  ghost predicate Pivot(rows: multiset<FlatRow>, records: seq<Row>) {
    && (forall i, j :: 0 <= i < j < |records| ==> records[i].key != records[j].key)
    && (forall i :: 0 <= i < |records| ==> records[i].fields != map[])
    && (forall key, field, value :: Has(rows, Flat(key, field, value)) <==>
          exists i :: 0 <= i < |records| && records[i].key == key &&
                      field in records[i].fields && records[i].fields[field] == value)
  }

  function AddField(records: Records, key: RecordKey, field: FieldName, value: string): Records {
    records[key := (if key in records then records[key] else map[])[field := value]]
  }

  lemma FlatOfRow(row: FlatRow)
    requires row.Complete()
    ensures row == Flat(row.Key(), row.field, row.value)
  {
  }

  predicate Given(records: Records, row: FlatRow)
    requires row.Complete()
  {
    row.Key() in records && row.field in records[row.Key()]
  }

  lemma GivenIsPlaced(rows: multiset<FlatRow>, records: Records, row: FlatRow)
    requires Pivotable(rows) && RecordsOf(rows, records) && row.Usable()
    ensures Given(records, row) <==> FIELD_SLOT(row) in Placed(rows, USABLE, FIELD_SLOT)
  {
    var placed := Placed(rows, USABLE, FIELD_SLOT);
    if FIELD_SLOT(row) in placed {
      var other := placed[FIELD_SLOT(row)];
      assert USABLE(other);
      FlatOfRow(other);
      assert Has(rows, Flat(other.Key(), other.field, other.value)) && other.Key() == row.Key();
    }
    if Given(records, row) {
      var other := Flat(row.Key(), row.field, records[row.Key()][row.field]);
      assert Has(rows, other) && FIELD_SLOT(other) == FIELD_SLOT(row);
    }
  }

  lemma NextPivotable(rows: multiset<FlatRow>, records: Records, row: FlatRow)
    requires Pivotable(rows) && RecordsOf(rows, records)
    ensures Pivotable(rows + multiset{row}) <==> row.Usable() && !Given(records, row)
  {
    Next(rows, USABLE, FIELD_SLOT, row);
    if row.Usable() {
      GivenIsPlaced(rows, records, row);
    }
  }

  lemma AddFieldKeeps(rows: multiset<FlatRow>, records: Records, row: FlatRow)
    requires RecordsOf(rows, records) && row.Usable() && !Given(records, row)
    ensures RecordsOf(rows + multiset{row}, AddField(records, row.Key(), row.field, row.value))
  {
    FlatOfRow(row);
    forall key, field, value
      ensures Has(rows + multiset{row}, Flat(key, field, value)) <==>
              Has(rows, Flat(key, field, value)) || Flat(key, field, value) == row
    {
    }
  }

  /** The records of the first `i` rows, with the order in which they were first seen. */
  ghost function ReadSoFar(rows: seq<FlatRow>, i: nat): iset<(Records, seq<RecordKey>)>
    requires i <= |rows|
  {
    iset read: (Records, seq<RecordKey>) | Pivotable(multiset(rows[..i])) && Reads(multiset(rows[..i]), read)
  }

  /** The records of the rows, each listed once. */
  ghost predicate Reads(rows: multiset<FlatRow>, read: (Records, seq<RecordKey>)) {
    RecordsOf(rows, read.0) && Distinct(read.1) && ToSet(read.1) == read.0.Keys
  }

  const NOTHING_READ: (Records, seq<RecordKey>) := (map[], [])

  lemma NothingRead(rows: seq<FlatRow>)
    ensures NOTHING_READ in ReadSoFar(rows, 0)
  {
    assert multiset(rows[..0]) == multiset{};
    var none: Records, nowhere: seq<RecordKey> := map[], [];
    assert NOTHING_READ.0 == none && NOTHING_READ.1 == nowhere && ToSet(nowhere) == none.Keys;
    assert Reads(multiset{}, NOTHING_READ);
  }

  lemma AllRead(rows: seq<FlatRow>, read: (Records, seq<RecordKey>))
    requires read in ReadSoFar(rows, |rows|)
    ensures Pivotable(multiset(rows)) && Reads(multiset(rows), read)
  {
    assert rows[..|rows|] == rows;
  }

  method ReadRecord(rows: seq<FlatRow>, i: nat, records: Records, order: seq<RecordKey>)
    returns (r: Result<(Records, seq<RecordKey>)>)
    requires i < |rows| && (records, order) in ReadSoFar(rows, i)
    ensures r.Ok? ==> r.value in ReadSoFar(rows, i + 1)
    ensures r.Rejected? ==> !Pivotable(multiset(rows))
  {
    var row := rows[i];
    PrefixNext(rows, i);
    NextPivotable(multiset(rows[..i]), records, row);
    if !row.Usable() || Given(records, row) {
      if Pivotable(multiset(rows)) {
        ConsistentPart(multiset(rows[..i + 1]), multiset(rows), USABLE, FIELD_SLOT);
      }
      return Rejected("Incomplete identity, missing _field or duplicate field");
    }
    AddFieldKeeps(multiset(rows[..i]), records, row);
    r := Ok((AddField(records, row.Key(), row.field, row.value),
             if row.Key() in records then order else order + [row.Key()]));
    assert row.Key() !in records ==> row.Key() !in ToSet(order);
  }

  method ReadRecords(rows: seq<FlatRow>) returns (r: Result<(Records, seq<RecordKey>)>)
    ensures r.Ok? <==> Pivotable(multiset(rows))
    ensures r.Ok? ==> Reads(multiset(rows), r.value)
  {
    r := Ok(NOTHING_READ);
    NothingRead(rows);
    var i := 0;
    while i < |rows| && r.Ok?
      invariant 0 <= i <= |rows|
      invariant r.Ok? ==> r.value in ReadSoFar(rows, i)
      invariant r.Rejected? ==> !Pivotable(multiset(rows))
    {
      r := ReadRecord(rows, i, r.value.0, r.value.1);
      i := i + 1;
    }
    if r.Ok? {
      AllRead(rows, r.value);
    }
  }

  /** parse_scenario_metadata_rows, with list(records.values()) at the end. */
  method ParseScenarioMetadataRows(rows: seq<FlatRow>) returns (r: Result<seq<Row>>)
    ensures r.Ok? <==> Pivotable(multiset(rows))
    ensures r.Ok? ==> Pivot(multiset(rows), r.value)
  {
    var read := ReadRecords(rows);
    if read.Rejected? {
      return Rejected(read.reason);
    }
    var (records, order) := read.value;
    assert forall i :: 0 <= i < |order| ==> order[i] in ToSet(order);
    var listed := seq(|order|, i requires 0 <= i < |order| => Row(order[i], records[order[i]]));
    forall key | key in records
      ensures exists i :: 0 <= i < |listed| && listed[i].key == key
    {
      assert key in ToSet(order);
      var i :| 0 <= i < |order| && order[i] == key;
      assert listed[i].key == key;
    }
    r := Ok(listed);
  }

  lemma PivotContains(rows: multiset<FlatRow>, a: seq<Row>, b: seq<Row>, row: Row)
    requires Pivot(rows, a) && Pivot(rows, b) && row in a
    ensures row in b
  {
    var i :| 0 <= i < |a| && a[i] == row;
    var field :| field in row.fields;
    assert Has(rows, Flat(row.key, field, row.fields[field]));
    var j :| 0 <= j < |b| && b[j].key == row.key && field in b[j].fields && b[j].fields[field] == row.fields[field];
    SameFields(rows, row, b[j], a, b);
  }

  lemma SameFields(rows: multiset<FlatRow>, row: Row, other: Row, a: seq<Row>, b: seq<Row>)
    requires Pivot(rows, a) && Pivot(rows, b) && row in a && other in b && row.key == other.key
    ensures row.fields == other.fields
  {
    forall f | f in row.fields
      ensures f in other.fields && other.fields[f] == row.fields[f]
    {
      assert Has(rows, Flat(row.key, f, row.fields[f]));
    }
    forall f | f in other.fields
      ensures f in row.fields
    {
      assert Has(rows, Flat(row.key, f, other.fields[f]));
    }
  }

  /** The records do not depend on the order of the rows. */
  lemma PivotIsUnique(rows: multiset<FlatRow>, a: seq<Row>, b: seq<Row>)
    requires Pivot(rows, a) && Pivot(rows, b)
    ensures multiset(a) == multiset(b)
  {
    DistinctIffNoRepeats(a);
    DistinctIffNoRepeats(b);
    forall row
      ensures multiset(a)[row] == multiset(b)[row]
    {
      if row in a {
        PivotContains(rows, a, b, row);
      }
      if row in b {
        PivotContains(rows, b, a, row);
      }
      assert row in a <==> multiset(a)[row] > 0;
      assert row in b <==> multiset(b)[row] > 0;
    }
  }

  // ------------------------------------------------------------- what is accepted, column by column

  /** All six identity columns are there, and a field that is none of them. */
  predicate HasColumns(row: FlatRow) {
    && row.run.Some? && row.scenario != "" && row.stack != "" && row.profile != "" && row.index.Some? && row.cell != ""
    && row.field != NoField && !row.field.IdentityColumn?
  }

  /** Two rows give the same field of the same record. */
  predicate SameField(a: FlatRow, b: FlatRow) {
    && a.run == b.run && a.scenario == b.scenario && a.stack == b.stack && a.profile == b.profile
    && a.index == b.index && a.cell == b.cell && a.field == b.field
  }

  /** The pivot accepts exactly complete rows of which no two give the same field. */
  lemma PivotableIsRead(rows: multiset<FlatRow>)
    ensures Pivotable(rows) <==>
            && (forall row :: row in rows ==> HasColumns(row) && rows[row] == 1)
            && (forall a, b :: a in rows && b in rows && SameField(a, b) ==> a == b)
  {
    assert forall row :: USABLE(row) <==> HasColumns(row);
    assert forall a, b :: FIELD_SLOT(a) == FIELD_SLOT(b) <==> SameField(a, b);
  }
}
