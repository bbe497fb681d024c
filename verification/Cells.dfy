/**
  build_summary_cells: the rows of the supplied runs, checked one by one and placed in cells.

  What the builder accepts and what it returns are stated over multisets of run ids and rows: that
  is all they depend on, whatever order the database and the command line chose.
 */
module Cells {
  import opened Common
  import opened Workloads
  import opened Metadata
  import opened Placement

  // ------------------------------------------------------------- vocabulary

  type Compatibility = seq<(FieldName, string)>

  datatype CellKey = CellKey(version: string, group: string, family: Family, profile: Profile,
      compatibility: Compatibility)

  /** Where in its cell an execution goes. */
  datatype SlotId = SlotId(scenario: string, stack: Stack, repeat: nat)

  datatype Slot = Slot(cell: CellKey, id: SlotId)

  datatype Counters = Counters(requests: nat, sent: nat, received: nat)

  datatype Execution = Execution(
    run: RunId, scenario: string, scenarioTag: string, stack: Stack, stackTag: string,
    family: Family, profile: Profile, profileTag: string, repeat: nat, index: int, elapsed: string,
    counters: Option<Counters>)

  type Executions = map<SlotId, Execution>
  type CellMap = map<CellKey, Executions>

  const COMMON_COMPATIBILITY: seq<FieldName> :=
    [HttpVersion, Endpoint, PayloadBytes, ConnectionReuse, Resumption, ConfiguredVus, MaxDuration, ConfiguredRate,
        ConfiguredPeakRate]

  const REQUIRED: seq<FieldName> := [ElapsedMs, HttpVersion, Endpoint, PayloadBytes, ConnectionReuse, Resumption]
  const REQUIRED_RACE: seq<FieldName> := [ConfiguredVus, ConfiguredIterations, MaxDuration]

  predicate SupportedVersion(version: string) {
    version == "1.2" || version == "1.3"
  }

  predicate SupportedGroup(group: string) {
    group == "P-256" || group == "X25519"
  }

  predicate VerifiedSource(source: string) {
    source == "openssl-preflight"
  }

  predicate HasAll(row: Row, fields: seq<FieldName>) {
    forall f :: f in fields ==> row.Get(f) != ""
  }

  function ScenarioSuffix(stack: Stack): string {
    "-" + StackPrefix(stack)
  }

  /** The per-row checks. */
  predicate RowOk(row: Row) {
    && VerifiedSource(row.Get(GroupSource))
    && SupportedVersion(row.Get(TlsVersion)) && SupportedGroup(row.Get(TlsGroup))
    && HasAll(row, REQUIRED) && (row.Run().family == Race ==> HasAll(row, REQUIRED_RACE))
    && StackIdentity(row.key.stack).Some?
    && EndsWith(row.key.scenario, ScenarioSuffix(StackIdentity(row.key.stack).value))
    && ProfileSlot(row.Run().family, row.key.profile, row.key.index).Some?
  }

  function CompatibilityFields(family: Family): seq<FieldName> {
    COMMON_COMPATIBILITY + (if family == Race then [ConfiguredIterations] else [])
  }

  function CompatibilityOf(row: Row): Compatibility {
    var fields := CompatibilityFields(row.Run().family);
    seq(|fields|, i requires 0 <= i < |fields| => (fields[i], row.Get(fields[i])))
  }

  // The three values below are used for rows that pass `RowOk`; elsewhere they are arbitrary.

  function StackOf(row: Row): Stack {
    match StackIdentity(row.key.stack)
    case Some(stack) => stack
    case None => Go
  }

  function ScenarioOf(row: Row): string {
    RemoveSuffix(row.key.scenario, ScenarioSuffix(StackOf(row)))
  }

  function ProfileOf(row: Row): (Profile, nat) {
    match ProfileSlot(row.Run().family, row.key.profile, row.key.index)
    case Some(slot) => slot
    case None => (Linear, 0)
  }

  function SlotOf(row: Row): Slot {
    var (profile, repeat) := ProfileOf(row);
    Slot(CellKey(row.Get(TlsVersion), row.Get(TlsGroup), row.Run().family, profile, CompatibilityOf(row)),
         SlotId(ScenarioOf(row), StackOf(row), repeat))
  }

  function ExecutionOf(row: Row): Execution {
    var (profile, repeat) := ProfileOf(row);
    Execution(row.Run(), ScenarioOf(row), row.key.scenario, StackOf(row), row.key.stack,
              row.Run().family, profile, row.key.profile, repeat, row.key.index, row.Get(ElapsedMs), None)
  }

  /** Rows of one family share a cell exactly when TLS configuration, profile and every compatible setting are equal. */
  lemma SameCellIffSameSettings(a: Row, b: Row)
    requires a.Run().family == b.Run().family
    ensures SlotOf(a).cell == SlotOf(b).cell <==>
            (a.Get(TlsVersion) == b.Get(TlsVersion) && a.Get(TlsGroup) == b.Get(TlsGroup) &&
                ProfileOf(a).0 == ProfileOf(b).0 &&
             forall f :: f in CompatibilityFields(a.Run().family) ==> a.Get(f) == b.Get(f))
  {
    var fields := CompatibilityFields(a.Run().family);
    if CompatibilityOf(a) == CompatibilityOf(b) {
      forall f | f in fields
        ensures a.Get(f) == b.Get(f)
      {
        var i :| 0 <= i < |fields| && fields[i] == f;
        assert CompatibilityOf(a)[i] == CompatibilityOf(b)[i];
      }
    }
  }

  // ------------------------------------------------------------- what is accepted

  ghost predicate IsSupply(supply: multiset<Row>, ids: multiset<RunId>, rows: multiset<Row>) {
    forall row :: supply[row] == if row.Run() in ids then rows[row] else 0
  }

  lemma {:induction false} SomeSupply(ids: multiset<RunId>, rows: multiset<Row>)
    ensures exists supply :: IsSupply(supply, ids, rows)
    decreases |rows|
  {
    if rows == multiset{} {
      assert IsSupply(multiset{}, ids, rows);
    } else {
      var row :| row in rows;
      var rest := rows - multiset{row};
      SomeSupply(ids, rest);
      var supply :| IsSupply(supply, ids, rest);
      assert IsSupply(if row.Run() in ids then supply + multiset{row} else supply, ids, rows);
    }
  }

  /** The rows of the supplied runs. */
  ghost function Supplied(ids: multiset<RunId>, rows: multiset<Row>): (supplied: multiset<Row>)
    ensures IsSupply(supplied, ids, rows)
  {
    SomeSupply(ids, rows);
    var supply :| IsSupply(supply, ids, rows);
    supply
  }

  /** How a row is checked, where it goes and what is kept of it. */
  datatype Rules = Rules(ok: Row -> bool, slot: Row -> Slot, execution: Row -> Execution)

  const RULES := Rules(RowOk, SlotOf, ExecutionOf)

  function Reported(rows: multiset<Row>, run: RunId): set<(string, int)> {
    set row | row in rows && row.Run() == run :: row.Execution()
  }

  /**
    Each run is supplied once and reports exactly its family's executions; its rows are well-formed,
    each is there once, and no two of them claim one slot.
   */
  ghost predicate Acceptable(rules: Rules, ids: multiset<RunId>, rows: multiset<Row>) {
    && (forall id :: id in ids ==> ids[id] == 1)
    && (forall id {:trigger Reported(rows, id)} :: id in ids ==> Reported(rows, id) == ExpectedExecutions(id.family))
    && Consistent(Supplied(ids, rows), rules.ok, rules.slot)
  }

  /** The collections of run ids that are acceptable with these rows. */
  ghost function Accepting(rules: Rules, rows: multiset<Row>): iset<multiset<RunId>> {
    iset ids: multiset<RunId> | Acceptable(rules, ids, rows)
  }

  type Table = map<Slot, Execution>

  /** The execution in every slot that some row claims. */
  ghost function TableOf(rules: Rules, rows: multiset<Row>): Table
    requires Consistent(rows, rules.ok, rules.slot)
  {
    Image(Placed(rows, rules.ok, rules.slot), rules.execution)
  }

  /** The cells hold exactly the executions of the table, and there is no empty cell. */
  ghost predicate Tabulates(cells: CellMap, table: Table) {
    && (forall key {:trigger cells[key]} :: key in cells ==> cells[key] != map[])
    && (forall key, id {:trigger Slot(key, id)} :: Slot(key, id) in table <==> key in cells && id in cells[key])
    && (forall key, id {:trigger Slot(key, id)} :: Slot(key, id) in table ==> cells[key][id] == table[Slot(key, id)])
  }

  lemma CellOnce(a: CellMap, b: CellMap, table: Table, key: CellKey)
    requires Tabulates(a, table) && Tabulates(b, table) && key in a
    ensures key in b && a[key] == b[key]
  {
    var id :| id in a[key];
    assert Slot(key, id) in table;
    forall id
      ensures (id in a[key] <==> id in b[key]) && (id in a[key] ==> a[key][id] == b[key][id])
    {
      assert Slot(key, id) in table <==> id in a[key];
    }
  }

  lemma TabulatesOnce(a: CellMap, b: CellMap, table: Table)
    requires Tabulates(a, table) && Tabulates(b, table)
    ensures a == b
  {
    forall key | key in a {
      CellOnce(a, b, table, key);
    }
    forall key | key in b {
      CellOnce(b, a, table, key);
    }
  }

  ghost function InCell(table: Table, key: CellKey): Executions {
    var ids := set slot | slot in table && slot.cell == key :: slot.id;
    map id | id in ids && Slot(key, id) in table :: table[Slot(key, id)]
  }

  /** The cells that hold a table. */
  ghost function CellsOf(table: Table): CellMap {
    var keys := set slot | slot in table :: slot.cell;
    map key | key in keys :: InCell(table, key)
  }

  lemma InCellHolds(table: Table, key: CellKey, id: SlotId)
    ensures id in InCell(table, key) <==> Slot(key, id) in table
    ensures id in InCell(table, key) ==> InCell(table, key)[id] == table[Slot(key, id)]
  {
    if slot :| slot in table && slot.cell == key && slot.id == id {
      assert slot == Slot(key, id);
    }
    assert Slot(key, id) in table ==> Slot(key, id).id in InCell(table, key);
  }

  lemma CellsOfTabulates(table: Table)
    ensures Tabulates(CellsOf(table), table)
  {
    forall key, id
      ensures Slot(key, id) in table <==> key in CellsOf(table) && id in CellsOf(table)[key]
      ensures Slot(key, id) in table ==> CellsOf(table)[key][id] == table[Slot(key, id)]
    {
      InCellHolds(table, key, id);
      assert Slot(key, id) in table ==> Slot(key, id).cell in CellsOf(table);
    }
    forall key | key in CellsOf(table)
      ensures CellsOf(table)[key] != map[]
    {
      var slot :| slot in table && slot.cell == key;
      InCellHolds(table, key, slot.id);
      assert slot == Slot(key, slot.id);
    }
  }

  function AddExecution(cells: CellMap, slot: Slot, execution: Execution): CellMap {
    cells[slot.cell := (if slot.cell in cells then cells[slot.cell] else map[])[slot.id := execution]]
  }

  predicate Occupied(cells: CellMap, slot: Slot) {
    slot.cell in cells && slot.id in cells[slot.cell]
  }

  lemma AddExecutionTabulates(cells: CellMap, table: Table, slot: Slot, execution: Execution)
    requires Tabulates(cells, table)
    ensures Tabulates(AddExecution(cells, slot, execution), table[slot := execution])
  {
    var added := AddExecution(cells, slot, execution);
    assert slot.id in added[slot.cell];
    forall key, id
      ensures Slot(key, id) in table[slot := execution] <==> key in added && id in added[key]
      ensures Slot(key, id) in table[slot := execution] ==> added[key][id] == table[slot := execution][Slot(key, id)]
    {
      assert Slot(key, id) in table <==> key in cells && id in cells[key];
    }
  }

  // ------------------------------------------------------------- adding one row

  lemma NextRow(rules: Rules, rows: multiset<Row>, cells: CellMap, row: Row)
    requires Consistent(rows, rules.ok, rules.slot) && Tabulates(cells, TableOf(rules, rows))
    ensures Consistent(rows + multiset{row}, rules.ok, rules.slot) <==>
        rules.ok(row) && !Occupied(cells, rules.slot(row))
    ensures Consistent(rows + multiset{row}, rules.ok, rules.slot) ==>
              Tabulates(AddExecution(cells, rules.slot(row), rules.execution(row)),
                  TableOf(rules, rows + multiset{row}))
  {
    Next(rows, rules.ok, rules.slot, row);
    OccupiedIsPlaced(cells, TableOf(rules, rows), rules.slot(row));
    if Consistent(rows + multiset{row}, rules.ok, rules.slot) {
      PlacedNext(rows, rules.ok, rules.slot, row);
      ImageNext(Placed(rows, rules.ok, rules.slot), rules.execution, rules.slot(row), row);
      AddExecutionTabulates(cells, TableOf(rules, rows), rules.slot(row), rules.execution(row));
    }
  }

  lemma OccupiedIsPlaced(cells: CellMap, table: Table, slot: Slot)
    requires Tabulates(cells, table)
    ensures Occupied(cells, slot) <==> slot in table
  {
    assert slot == Slot(slot.cell, slot.id);
  }

  // ------------------------------------------------------------- the builder

  /** The dict of cells with its insertion order, and the scenarios in order of appearance. */
  datatype Summary = Summary(scenarioOrder: seq<string>, order: seq<CellKey>, cells: CellMap)

  function ScenariosIn(cells: CellMap): set<string> {
    set key, id | key in cells && id in cells[key] :: id.scenario
  }

  /** The order lists name each cell and each scenario once. */
  ghost predicate Ordered(summary: Summary) {
    && Distinct(summary.order) && ToSet(summary.order) == summary.cells.Keys
    && Distinct(summary.scenarioOrder) && ToSet(summary.scenarioOrder) == ScenariosIn(summary.cells)
  }

  ghost predicate Built(rules: Rules, summary: Summary, rows: multiset<Row>) {
    && Consistent(rows, rules.ok, rules.slot)
    && Tabulates(summary.cells, TableOf(rules, rows))
    && Ordered(summary)
  }

  /** The summaries that these rows can build: they differ in their order lists only. */
  ghost function Summaries(rules: Rules, rows: multiset<Row>): iset<Summary> {
    iset summary: Summary | Built(rules, summary, rows)
  }

  function AppendNew<T(==,!new)>(s: seq<T>, x: T): (r: seq<T>)
    ensures Distinct(s) ==> Distinct(r)
    ensures ToSet(r) == ToSet(s) + {x} && forall y :: y in r <==> y in s || y == x
  {
    if x in s then s else s + [x]
  }

  function Insert(summary: Summary, slot: Slot, execution: Execution): Summary {
    Summary(AppendNew(summary.scenarioOrder, slot.id.scenario),
            AppendNew(summary.order, slot.cell),
            AddExecution(summary.cells, slot, execution))
  }

  lemma InsertOrdered(summary: Summary, slot: Slot, execution: Execution)
    requires Ordered(summary)
    ensures Ordered(Insert(summary, slot, execution))
  {
    var added := AddExecution(summary.cells, slot, execution);
    forall scenario
      ensures scenario in ScenariosIn(added) <==> scenario in ScenariosIn(summary.cells) || scenario == slot.id.scenario
    {
      if key, id :| key in summary.cells && id in summary.cells[key] && id.scenario == scenario {
        assert id in added[key];
      }
      assert slot.id in added[slot.cell];
    }
  }

  method PlaceRow(rules: Rules, summary: Summary, row: Row, ghost done: multiset<Row>) returns (r: Result<Summary>)
    requires summary in Summaries(rules, done)
    ensures r.Ok? <==> Consistent(done + multiset{row}, rules.ok, rules.slot)
    ensures r.Ok? ==> r.value in Summaries(rules, done + multiset{row})
  {
    NextRow(rules, done, summary.cells, row);
    if !rules.ok(row) {
      return Rejected("lacks or has unsupported scenario comparison metadata");
    }
    if Occupied(summary.cells, rules.slot(row)) {
      return Rejected("Duplicate scenario summary execution");
    }
    InsertOrdered(summary, rules.slot(row), rules.execution(row));
    r := Ok(Insert(summary, rules.slot(row), rules.execution(row)));
  }

  method PlaceRun(
    rules: Rules, summary: Summary, selected: seq<Row>, ghost done: multiset<Row>)
    returns (r: Result<Summary>)
    requires summary in Summaries(rules, done)
    ensures r.Ok? <==> Consistent(done + multiset(selected), rules.ok, rules.slot)
    ensures r.Ok? ==> r.value in Summaries(rules, done + multiset(selected))
  {
    r := Ok(summary);
    assert done + multiset(selected[..0]) == done;
    var i := 0;
    while i < |selected| && r.Ok?
      invariant 0 <= i <= |selected|
      invariant r.Ok? <==> Consistent(done + multiset(selected[..i]), rules.ok, rules.slot)
      invariant r.Ok? ==> r.value in Summaries(rules, done + multiset(selected[..i]))
    {
      RowsNext(done, selected, i);
      r := PlaceRow(rules, r.value, selected[i], done + multiset(selected[..i]));
      i := i + 1;
    }
    PlacedPrefix(rules, done, selected, i);
  }

  lemma RowsNext(done: multiset<Row>, selected: seq<Row>, i: nat)
    requires i < |selected|
    ensures done + multiset(selected[..i]) + multiset{selected[i]} == done + multiset(selected[..i + 1])
  {
    PrefixNext(selected, i);
  }

  lemma PlacedPrefix(rules: Rules, done: multiset<Row>, selected: seq<Row>, i: nat)
    requires i <= |selected|
    ensures i == |selected| ==> selected[..i] == selected
    ensures !Consistent(done + multiset(selected[..i]), rules.ok, rules.slot) ==>
              !Consistent(done + multiset(selected), rules.ok, rules.slot)
  {
    assert selected == selected[..i] + selected[i..];
    if !Consistent(done + multiset(selected[..i]), rules.ok, rules.slot) {
      RefusedPart(rules, done + multiset(selected[..i]), done + multiset(selected));
    }
  }

  lemma RefusedPart(rules: Rules, part: multiset<Row>, whole: multiset<Row>)
    requires part <= whole && !Consistent(part, rules.ok, rules.slot)
    ensures !Consistent(whole, rules.ok, rules.slot)
  {
    if Consistent(whole, rules.ok, rules.slot) {
      ConsistentPart(part, whole, rules.ok, rules.slot);
    }
  }

  function OfRun(rows: seq<Row>, id: RunId): seq<Row> {
    if rows == [] then [] else
    OfRun(rows[..|rows| - 1], id) + (if rows[|rows| - 1].Run() == id then [rows[|rows| - 1]] else [])
  }

  lemma {:induction false} OfRunRows(rows: seq<Row>, id: RunId)
    ensures forall row :: multiset(OfRun(rows, id))[row] == if row.Run() == id then multiset(rows)[row] else 0
  {
    if rows == [] {
    } else {
      OfRunRows(rows[..|rows| - 1], id);
      assert rows == rows[..|rows| - 1] + [rows[|rows| - 1]];
    }
  }

  lemma OfRunReports(rows: seq<Row>, id: RunId)
    ensures (set row | row in OfRun(rows, id) :: row.Execution()) == Reported(multiset(rows), id)
  {
    OfRunRows(rows, id);
    forall row
      ensures row in OfRun(rows, id) <==> row in multiset(rows) && row.Run() == id
    {
      assert row in OfRun(rows, id) <==> multiset(OfRun(rows, id))[row] > 0;
    }
  }

  ghost predicate Grouped(byRun: map<RunId, seq<Row>>, rows: seq<Row>) {
    forall id :: OfRun(rows, id) == if id in byRun then byRun[id] else []
  }

  /** by_run.setdefault(row["wtt_run_id"], []).append(row) */
  method GroupByRun(rows: seq<Row>) returns (byRun: map<RunId, seq<Row>>)
    ensures Grouped(byRun, rows)
  {
    byRun := map[];
    for i := 0 to |rows|
      invariant Grouped(byRun, rows[..i])
    {
      var row := rows[i];
      assert rows[..i + 1][..i] == rows[..i];
      byRun := byRun[row.Run() := (if row.Run() in byRun then byRun[row.Run()] else []) + [row]];
    }
    assert rows[..|rows|] == rows;
  }

  lemma SuppliedPlus(ids: multiset<RunId>, id: RunId, rows: seq<Row>)
    requires id !in ids
    ensures Supplied(ids, multiset(rows)) + multiset(OfRun(rows, id)) == Supplied(ids + multiset{id}, multiset(rows))
  {
    forall row {
      SuppliedPlusAt(ids, id, rows, row);
    }
  }

  lemma SuppliedPlusAt(ids: multiset<RunId>, id: RunId, rows: seq<Row>, row: Row)
    requires id !in ids
    ensures Supplied(ids, multiset(rows))[row] + multiset(OfRun(rows, id))[row] ==
        Supplied(ids + multiset{id}, multiset(rows))[row]
  {
    OfRunRows(rows, id);
    assert row.Run() in ids + multiset{id} <==> row.Run() in ids || row.Run() == id;
  }

  lemma SuppliedMore(few: multiset<RunId>, many: multiset<RunId>, rows: multiset<Row>)
    requires few <= many
    ensures Supplied(few, rows) <= Supplied(many, rows)
  {
    assert forall id :: id in few ==> few[id] <= many[id];
  }

  lemma SuppliedNext(ids: seq<RunId>, rows: seq<Row>, i: nat)
    requires i < |ids| && ids[i] !in ids[..i]
    ensures Supplied(multiset(ids[..i]), multiset(rows)) + multiset(OfRun(rows, ids[i])) ==
            Supplied(multiset(ids[..i + 1]), multiset(rows))
    ensures Supplied(multiset(ids[..i + 1]), multiset(rows)) <= Supplied(multiset(ids), multiset(rows))
  {
    PrefixNext(ids, i);
    SuppliedPlus(multiset(ids[..i]), ids[i], rows);
    SuppliedMore(multiset(ids[..i + 1]), multiset(ids), multiset(rows));
  }

  /** A run id supplied a second time runs into its own rows. */
  lemma SecondTimeRefused(rules: Rules, ids: seq<RunId>, rows: seq<Row>, i: nat)
    requires i < |ids| && ids[i] in ids[..i] && OfRun(rows, ids[i]) != []
    ensures !Consistent(Supplied(multiset(ids[..i]), multiset(rows)) + multiset(OfRun(rows, ids[i])), rules.ok,
        rules.slot)
  {
    OfRunRows(rows, ids[i]);
    var row := OfRun(rows, ids[i])[0];
    var both := Supplied(multiset(ids[..i]), multiset(rows)) + multiset(OfRun(rows, ids[i]));
    assert row in multiset(OfRun(rows, ids[i])) && row in both && both[row] >= 2;
  }

  method SelectRun(byRun: map<RunId, seq<Row>>, id: RunId, ghost rows: seq<Row>) returns (r: Result<seq<Row>>)
    requires Grouped(byRun, rows)
    ensures r.Ok? <==> Reported(multiset(rows), id) == ExpectedExecutions(id.family)
    ensures r.Ok? ==> r.value == OfRun(rows, id) != []
  {
    OfRunReports(rows, id);
    FirstExecution(id.family);
    if id !in byRun || byRun[id] == [] {
      return Rejected("No summary metadata for supplied Run ID");
    }
    if (set row | row in byRun[id] :: row.Execution()) != ExpectedExecutions(id.family) {
      return Rejected("does not contain the expected executions");
    }
    r := Ok(byRun[id]);
  }

  /** The first `i` runs are distinct and complete, and their rows are in the summary. */
  ghost predicate RunsBuilt(rules: Rules, summary: Summary, ids: seq<RunId>, rows: seq<Row>, i: nat)
    requires i <= |ids|
  {
    && Distinct(ids[..i])
    && (forall id :: id in ids[..i] ==> Reported(multiset(rows), id) == ExpectedExecutions(id.family))
    && summary in Summaries(rules, Supplied(multiset(ids[..i]), multiset(rows)))
  }

  ghost function Prefixes(rules: Rules, ids: seq<RunId>, rows: seq<Row>, i: nat): iset<Summary>
    requires i <= |ids|
  {
    iset summary: Summary | RunsBuilt(rules, summary, ids, rows, i)
  }

  method BuildRun(
    rules: Rules, byRun: map<RunId, seq<Row>>, summary: Summary, ids: seq<RunId>, ghost rows: seq<Row>, i: nat)
    returns (r: Result<Summary>)
    requires i < |ids| && Grouped(byRun, rows) && summary in Prefixes(rules, ids, rows, i)
    ensures r.Ok? ==> r.value in Prefixes(rules, ids, rows, i + 1)
    ensures r.Rejected? ==> multiset(ids) !in Accepting(rules, multiset(rows))
  {
    var selected := SelectRun(byRun, ids[i], rows);
    PrefixNext(ids, i);
    if selected.Rejected? {
      assert ids[i] in multiset(ids);
      return Rejected(selected.reason);
    }
    RunPlaced(rules, ids, rows, i);
    r := PlaceRun(rules, summary, selected.value, Supplied(multiset(ids[..i]), multiset(rows)));
  }

  /** The loop over the run ids. */
  method BuildRuns(
    rules: Rules, byRun: map<RunId, seq<Row>>, ids: seq<RunId>, ghost rows: seq<Row>)
    returns (r: Result<Summary>)
    requires Grouped(byRun, rows)
    ensures r.Ok? ==> r.value in Prefixes(rules, ids, rows, |ids|)
    ensures r.Rejected? ==> multiset(ids) !in Accepting(rules, multiset(rows))
  {
    r := Ok(Summary([], [], map[]));
    NothingBuilt(rules, ids, rows);
    var i := 0;
    while i < |ids| && r.Ok?
      invariant 0 <= i <= |ids|
      invariant r.Ok? ==> r.value in Prefixes(rules, ids, rows, i)
      invariant r.Rejected? ==> multiset(ids) !in Accepting(rules, multiset(rows))
    {
      r := BuildRun(rules, byRun, r.value, ids, rows, i);
      i := i + 1;
    }
  }

  /**
    Accepts exactly the acceptable inputs, and returns their cells; both depend on the run ids and
    rows only as multisets. Only the insertion orders in the result depend on the input order.
   */
  method BuildCells(rules: Rules, ids: seq<RunId>, rows: seq<Row>) returns (r: Result<Summary>)
    ensures r.Ok? <==> Acceptable(rules, multiset(ids), multiset(rows))
    ensures r.Ok? ==> r.value in Summaries(rules, Supplied(multiset(ids), multiset(rows)))
  {
    var byRun := GroupByRun(rows);
    r := BuildRuns(rules, byRun, ids, rows);
    if r.Ok? {
      AllRunsBuilt(rules, r.value, ids, rows);
    }
  }

  lemma AllRunsBuilt(rules: Rules, summary: Summary, ids: seq<RunId>, rows: seq<Row>)
    requires summary in Prefixes(rules, ids, rows, |ids|)
    ensures Acceptable(rules, multiset(ids), multiset(rows))
    ensures summary in Summaries(rules, Supplied(multiset(ids), multiset(rows)))
  {
    assert ids[..|ids|] == ids;
    DistinctIffNoRepeats(ids);
    assert forall id :: id in multiset(ids) ==> id in ids && multiset(ids)[id] == 1;
  }

  lemma NothingBuilt(rules: Rules, ids: seq<RunId>, rows: seq<Row>)
    ensures Summary([], [], map[]) in Prefixes(rules, ids, rows, 0)
  {
    assert Supplied(multiset(ids[..0]), multiset(rows)) == multiset{};
    EmptySummary(rules);
  }

  lemma EmptySummary(rules: Rules)
    ensures Summary([], [], map[]) in Summaries(rules, multiset{})
  {
    assert Tabulates(map[], TableOf(rules, multiset{}));
  }

  lemma RunPlaced(rules: Rules, ids: seq<RunId>, rows: seq<Row>, i: nat)
    requires i < |ids| && OfRun(rows, ids[i]) != [] && Distinct(ids[..i])
    ensures var done := Supplied(multiset(ids[..i]), multiset(rows)) + multiset(OfRun(rows, ids[i]));
      if Consistent(done, rules.ok, rules.slot) then
          Distinct(ids[..i + 1]) && done == Supplied(multiset(ids[..i + 1]), multiset(rows))
      else !Acceptable(rules, multiset(ids), multiset(rows))
  {
    var done := Supplied(multiset(ids[..i]), multiset(rows)) + multiset(OfRun(rows, ids[i]));
    if ids[i] in ids[..i] {
      SecondTimeRefused(rules, ids, rows, i);
      RepeatCountsTwice(ids, i);
    } else {
      SuppliedNext(ids, rows, i);
      DistinctNext(ids, i);
      if !Consistent(done, rules.ok, rules.slot) {
        RefusedPart(rules, done, Supplied(multiset(ids), multiset(rows)));
      }
    }
  }

  /** build_summary_cells. */
  method BuildSummaryCells(ids: seq<RunId>, rows: seq<Row>) returns (r: Result<Summary>)
    ensures r.Ok? <==> Acceptable(RULES, multiset(ids), multiset(rows))
    ensures r.Ok? ==> r.value in Summaries(RULES, Supplied(multiset(ids), multiset(rows)))
  {
    r := BuildCells(RULES, ids, rows);
  }

  // ------------------------------------------------------------- rows, slots and executions

  ghost function CellsFrom(rules: Rules, ids: multiset<RunId>, rows: multiset<Row>): CellMap
    requires Acceptable(rules, ids, rows)
  {
    CellsOf(TableOf(rules, Supplied(ids, rows)))
  }

  lemma BuiltCells(rules: Rules, ids: multiset<RunId>, rows: multiset<Row>, summary: Summary)
    requires Acceptable(rules, ids, rows) && summary in Summaries(rules, Supplied(ids, rows))
    ensures summary.cells == CellsFrom(rules, ids, rows) && Ordered(summary)
  {
    var table := TableOf(rules, Supplied(ids, rows));
    CellsOfTabulates(table);
    TabulatesOnce(summary.cells, CellsOf(table), table);
  }

  lemma OccupiedByRow(rules: Rules, ids: multiset<RunId>, rows: multiset<Row>, slot: Slot)
    requires Acceptable(rules, ids, rows)
    ensures var cells, placed := CellsFrom(rules, ids, rows), Placed(Supplied(ids, rows), rules.ok, rules.slot);
      && (Occupied(cells, slot) <==> slot in placed)
      && (Occupied(cells, slot) ==> cells[slot.cell][slot.id] == rules.execution(placed[slot]))
  {
    var table := TableOf(rules, Supplied(ids, rows));
    CellsOfTabulates(table);
    OccupiedIsPlaced(CellsOf(table), table, slot);
    assert slot == Slot(slot.cell, slot.id);
  }

  lemma SupplyOk(rules: Rules, ids: multiset<RunId>, rows: multiset<Row>, row: Row)
    requires Acceptable(rules, ids, rows) && row in rows && row.Run() in ids
    ensures row in Supplied(ids, rows) && rules.ok(row)
  {
  }

  lemma RowPlaced(rules: Rules, ids: multiset<RunId>, rows: multiset<Row>, row: Row)
    requires Acceptable(rules, ids, rows) && row in rows && row.Run() in ids
    ensures var placed := Placed(Supplied(ids, rows), rules.ok, rules.slot);
      rows[row] == 1 && rules.slot(row) in placed && placed[rules.slot(row)] == row
  {
    assert row in Supplied(ids, rows);
  }

  lemma RowOccupies(rules: Rules, ids: multiset<RunId>, rows: multiset<Row>, row: Row)
    requires Acceptable(rules, ids, rows) && row in rows && row.Run() in ids
    ensures var cells, slot := CellsFrom(rules, ids, rows), rules.slot(row);
      rows[row] == 1 && Occupied(cells, slot) && cells[slot.cell][slot.id] == rules.execution(row)
  {
    RowPlaced(rules, ids, rows, row);
    OccupiedByRow(rules, ids, rows, rules.slot(row));
  }
}
