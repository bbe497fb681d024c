/**
  What build_tls_comparison accepts, stated on the rows of the supplied runs, and what it returns.
  The central fact is `OneRowPerExecution`: the partial checks together make the pair
  (run id, execution index) a key, although no single check says so.
 */
module TlsBuilder {
  import opened Workloads
  import opened Metadata
  import opened Placement
  import opened Cells
  import opened ScenarioGroups
  import opened TlsComparison

  // ------------------------------------------------------------- rules for rows

  /** What the rules say about a row that passes its checks. */
  ghost predicate LawfulRow(rules: Rules, row: Row) {
    var e, slot := rules.execution(row), rules.slot(row);
    && e.run == row.Run() && e.index == row.key.index && e.profileTag == row.key.profile
    && e.scenarioTag == row.key.scenario && e.stackTag == row.key.stack
    && e.scenario == slot.id.scenario && e.stack == slot.id.stack && e.repeat == slot.id.repeat < 3
  }

  /** Rows of the same run and execution index with the same tags belong to the same slot of their profile. */
  ghost predicate LawfulRows(rules: Rules, a: Row, b: Row) {
    RecordKeyOf(a) == RecordKeyOf(b) && a.key.scenario == b.key.scenario && a.key.stack == b.key.stack ==>
      NameOf(rules.slot(a).cell) == NameOf(rules.slot(b).cell) && rules.slot(a).id == rules.slot(b).id
  }

  ghost predicate Lawful(rules: Rules) {
    && (forall row {:trigger LawfulRow(rules, row)} :: rules.ok(row) ==> LawfulRow(rules, row))
    && (forall a, b {:trigger LawfulRows(rules, a, b)} :: rules.ok(a) && rules.ok(b) ==> LawfulRows(rules, a, b))
  }

  /** Rows that pass their checks have one of the four TLS configurations. */
  ghost predicate Supporting(rules: Rules) {
    forall row {:trigger rules.slot(row).cell} :: rules.ok(row) ==> IsConfiguration(KeyOf(rules.slot(row).cell))
  }

  lemma RulesAreSupporting()
    ensures Supporting(RULES)
  {
    forall row {:trigger RULES.slot(row).cell} | RULES.ok(row)
      ensures IsConfiguration(KeyOf(RULES.slot(row).cell))
    {
      RowOkIsSupported(row);
    }
  }

  lemma RowOkIsSupported(row: Row)
    requires RowOk(row)
    ensures IsConfiguration(KeyOf(SlotOf(row).cell))
  {
    var i := (if row.Get(TlsVersion) == "1.2" then 0 else 2) + (if row.Get(TlsGroup) == "P-256" then 0 else 1);
    assert TLS_CONFIGURATIONS[i] == KeyOf(SlotOf(row).cell);
  }

  lemma RowOkIsLawful(row: Row)
    requires RowOk(row)
    ensures LawfulRow(RULES, row)
  {
    var (profile, repeat) := ProfileOf(row);
    SlotsAreExecutions(row.Run().family, row.key.profile, row.key.index, profile, repeat);
  }

  lemma RowsOkAreLawful(a: Row, b: Row)
    requires RowOk(a) && RowOk(b)
    ensures LawfulRows(RULES, a, b)
  {
    var (profile, repeat) := ProfileOf(a);
    SlotsAreExecutions(a.Run().family, a.key.profile, a.key.index, profile, repeat);
    var (profile', repeat') := ProfileOf(b);
    SlotsAreExecutions(b.Run().family, b.key.profile, b.key.index, profile', repeat');
  }

  lemma RulesAreLawful()
    ensures Lawful(RULES)
  {
    forall row | RULES.ok(row)
      ensures LawfulRow(RULES, row)
    {
      RowOkIsLawful(row);
    }
    forall a, b | RULES.ok(a) && RULES.ok(b)
      ensures LawfulRows(RULES, a, b)
    {
      RowsOkAreLawful(a, b);
    }
  }

  // ------------------------------------------------------------- what is accepted

  /**
    A run has one scenario tag, one stack tag and one TLS configuration; a profile has one set of
    settings; a (scenario, stack) of a profile has one stack tag.
   */
  ghost predicate Agree(rules: Rules, a: Row, b: Row) {
    var x, y := rules.slot(a), rules.slot(b);
    && (a.Run() == b.Run() ==>
          a.key.scenario == b.key.scenario && a.key.stack == b.key.stack && KeyOf(x.cell) == KeyOf(y.cell))
    && (NameOf(x.cell) == NameOf(y.cell) ==> x.cell.compatibility == y.cell.compatibility)
    && (NameOf(x.cell) == NameOf(y.cell) && x.id.scenario == y.id.scenario && x.id.stack == y.id.stack ==>
          a.key.stack == b.key.stack)
  }

  ghost predicate RowsAgree(rules: Rules, rows: multiset<Row>) {
    forall a, b {:trigger Agree(rules, a, b)} :: a in rows && b in rows ==> Agree(rules, a, b)
  }

  /** Every (scenario, stack) of a cell has its three Profile Runs. */
  ghost predicate AllRepeats(slots: set<Slot>) {
    && (forall slot :: slot in slots ==> slot.id.repeat < 3)
    && (forall slot, repeat: nat {:trigger Repeated(slot, repeat)} :: slot in slots && repeat < 3 ==>
        Repeated(slot, repeat) in slots)
  }

  function Repeated(slot: Slot, repeat: nat): Slot {
    Slot(slot.cell, SlotId(slot.id.scenario, slot.id.stack, repeat))
  }

  ghost predicate TlsAcceptable(rules: Rules, ids: multiset<RunId>, rows: multiset<Row>) {
    && Acceptable(rules, ids, rows)
    && RowsAgree(rules, Supplied(ids, rows))
    && AllRepeats(Placed(Supplied(ids, rows), rules.ok, rules.slot).Keys)
  }

  /** The measurements a row has to carry. */
  predicate Measured(rules: Rules, num: Number, row: Row) {
    && PositiveElapsed(rules.execution(row), num)
    && (NameOf(rules.slot(row).cell) == BYTE_CHART ==> CountersOf(row, num).Some?)
  }

  function WithCounters(rules: Rules, num: Number, row: Row): Execution {
    var e := rules.execution(row);
    if NameOf(rules.slot(row).cell) == BYTE_CHART then e.(counters := CountersOf(row, num)) else e
  }

  /** The rules of the TLS comparison: rows also carry measurements, executions their row's counters. */
  function Measuring(rules: Rules, num: Number): Rules {
    Rules(row => rules.ok(row) && Measured(rules, num, row), rules.slot, row => WithCounters(rules, num, row))
  }

  lemma MeasuringIsLawful(rules: Rules, num: Number)
    requires Lawful(rules)
    ensures Lawful(Measuring(rules, num))
  {
    var measuring := Measuring(rules, num);
    forall row | measuring.ok(row)
      ensures LawfulRow(measuring, row)
    {
      assert LawfulRow(rules, row);
    }
    forall a, b | measuring.ok(a) && measuring.ok(b)
      ensures LawfulRows(measuring, a, b)
    {
      assert LawfulRows(rules, a, b);
    }
  }

  // ------------------------------------------------------------- (run id, execution index) is a key

  /** No two rows of the supplied runs share a run id and an execution index. */
  lemma OneRowPerExecution(rules: Rules, ids: multiset<RunId>, rows: multiset<Row>, a: Row, b: Row)
    requires Lawful(rules) && Acceptable(rules, ids, rows) && RowsAgree(rules, Supplied(ids, rows))
    requires a in rows && b in rows && a.Run() in ids && RecordKeyOf(a) == RecordKeyOf(b)
    ensures a == b
  {
    SupplyOk(rules, ids, rows, a);
    SupplyOk(rules, ids, rows, b);
    assert Agree(rules, a, b);
    assert LawfulRows(rules, a, b);
    assert rules.slot(a) == rules.slot(b);
  }

  /** The byte counters of an execution are read from the row that made it, not from another one. */
  lemma RecordIsOwnRow(rules: Rules, ids: multiset<RunId>, rows: seq<Row>, records: RowIndex, row: Row)
    requires Lawful(rules) && Acceptable(rules, ids, multiset(rows)) && RowsAgree(rules, Supplied(ids, multiset(rows)))
    requires IndexesRows(records, rows) && row in rows && row.Run() in ids
    ensures RecordKeyOf(row) in records && records[RecordKeyOf(row)] == row
  {
    var last := records[RecordKeyOf(row)];
    assert IsLast(last, RecordKeyOf(row), rows);
    assert last in multiset(rows);
    OneRowPerExecution(rules, ids, multiset(rows), last, row);
  }

  // ------------------------------------------------------------- rows and the entries of cells

  function EntryOf(rules: Rules, row: Row): Entry {
    Entry(rules.slot(row).cell, rules.execution(row))
  }

  lemma RowHasEntry(rules: Rules, ids: multiset<RunId>, rows: multiset<Row>, row: Row)
    requires Acceptable(rules, ids, rows) && row in Supplied(ids, rows)
    ensures EntryOf(rules, row) in EntriesIn(CellsFrom(rules, ids, rows))
    ensures rules.slot(row).cell in CellsFrom(rules, ids, rows)
  {
    RowOccupies(rules, ids, rows, row);
  }

  lemma PlaceHasRow(rules: Rules, ids: multiset<RunId>, rows: multiset<Row>, slot: Slot) returns (row: Row)
    requires Acceptable(rules, ids, rows) && Occupied(CellsFrom(rules, ids, rows), slot)
    ensures row in Supplied(ids, rows) && rules.slot(row) == slot
    ensures CellsFrom(rules, ids, rows)[slot.cell][slot.id] == rules.execution(row)
  {
    OccupiedByRow(rules, ids, rows, slot);
    row := Placed(Supplied(ids, rows), rules.ok, rules.slot)[slot];
  }

  lemma EntryHasRow(rules: Rules, ids: multiset<RunId>, rows: multiset<Row>, x: Entry) returns (row: Row)
    requires Acceptable(rules, ids, rows) && x in EntriesIn(CellsFrom(rules, ids, rows))
    ensures row in Supplied(ids, rows) && x == EntryOf(rules, row)
  {
    var cells := CellsFrom(rules, ids, rows);
    var key, id :| key in cells && id in cells[key] && x == Entry(key, cells[key][id]);
    row := PlaceHasRow(rules, ids, rows, Slot(key, id));
  }

  lemma CellHasRow(rules: Rules, ids: multiset<RunId>, rows: multiset<Row>, key: CellKey) returns (row: Row)
    requires Acceptable(rules, ids, rows) && key in CellsFrom(rules, ids, rows)
    ensures row in Supplied(ids, rows) && rules.slot(row).cell == key
  {
    var cells := CellsFrom(rules, ids, rows);
    CellsOfTabulates(TableOf(rules, Supplied(ids, rows)));
    var id :| id in cells[key];
    row := PlaceHasRow(rules, ids, rows, Slot(key, id));
  }

  lemma LawfulEntry(rules: Rules, ids: multiset<RunId>, rows: multiset<Row>, row: Row)
    requires Lawful(rules) && Acceptable(rules, ids, rows) && row in Supplied(ids, rows)
    ensures LawfulRow(rules, row)
  {
    assert rules.ok(row);
  }

  lemma EntriesAgreeMeansRowsAgree(rules: Rules, ids: multiset<RunId>, rows: multiset<Row>, a: Row, b: Row)
    requires Lawful(rules) && Acceptable(rules, ids, rows) && a in Supplied(ids, rows) && b in Supplied(ids, rows)
    requires ProfilesAgree(CellsFrom(rules, ids, rows).Keys) && EntriesAgree(EntriesIn(CellsFrom(rules, ids, rows)))
    ensures Agree(rules, a, b)
  {
    RowHasEntry(rules, ids, rows, a);
    RowHasEntry(rules, ids, rows, b);
    LawfulEntry(rules, ids, rows, a);
    LawfulEntry(rules, ids, rows, b);
    var x, y := EntryOf(rules, a), EntryOf(rules, b);
    assert EntryRun(x) == EntryRun(y) ==> RunIdentity(x) == RunIdentity(y);
    assert EntryPair(x) == EntryPair(y) ==> EntryStackTag(x) == EntryStackTag(y);
  }

  ghost predicate EntryAgree(x: Entry, y: Entry) {
    && (EntryRun(x) == EntryRun(y) ==> RunIdentity(x) == RunIdentity(y))
    && (EntryPair(x) == EntryPair(y) ==> EntryStackTag(x) == EntryStackTag(y))
  }

  lemma RowsAgreeMeansEntriesAgree(rules: Rules, ids: multiset<RunId>, rows: multiset<Row>, x: Entry, y: Entry)
    requires Lawful(rules) && Acceptable(rules, ids, rows) && RowsAgree(rules, Supplied(ids, rows))
    requires x in EntriesIn(CellsFrom(rules, ids, rows)) && y in EntriesIn(CellsFrom(rules, ids, rows))
    ensures EntryAgree(x, y)
  {
    var a := EntryHasRow(rules, ids, rows, x);
    var b := EntryHasRow(rules, ids, rows, y);
    LawfulEntry(rules, ids, rows, a);
    LawfulEntry(rules, ids, rows, b);
    assert Agree(rules, a, b);
  }

  lemma RowsAgreeMeansProfilesAgree(
    rules: Rules, ids: multiset<RunId>, rows: multiset<Row>, key: CellKey, other: CellKey)
    requires Acceptable(rules, ids, rows) && RowsAgree(rules, Supplied(ids, rows))
    requires key in CellsFrom(rules, ids, rows) && other in CellsFrom(rules, ids, rows) && NameOf(key) == NameOf(other)
    ensures key.compatibility == other.compatibility
  {
    var a := CellHasRow(rules, ids, rows, key);
    var b := CellHasRow(rules, ids, rows, other);
    assert Agree(rules, a, b);
  }

  lemma ChecksGiveRowsAgree(rules: Rules, ids: multiset<RunId>, rows: multiset<Row>)
    requires Lawful(rules) && Acceptable(rules, ids, rows)
    requires ProfilesAgree(CellsFrom(rules, ids, rows).Keys) && EntriesAgree(EntriesIn(CellsFrom(rules, ids, rows)))
    ensures RowsAgree(rules, Supplied(ids, rows))
  {
    forall a, b | a in Supplied(ids, rows) && b in Supplied(ids, rows)
      ensures Agree(rules, a, b)
    {
      EntriesAgreeMeansRowsAgree(rules, ids, rows, a, b);
    }
  }

  lemma PairwiseAgree(entries: set<Entry>)
    requires forall x, y :: x in entries && y in entries ==> EntryAgree(x, y)
    ensures EntriesAgree(entries)
  {
    assert forall x, y :: x in entries && y in entries && EntryRun(x) == EntryRun(y) ==> EntryAgree(x, y);
    assert forall x, y :: x in entries && y in entries && EntryPair(x) == EntryPair(y) ==> EntryAgree(x, y);
  }

  lemma RowsAgreeGivesChecks(rules: Rules, ids: multiset<RunId>, rows: multiset<Row>)
    requires Lawful(rules) && Acceptable(rules, ids, rows) && RowsAgree(rules, Supplied(ids, rows))
    ensures ProfilesAgree(CellsFrom(rules, ids, rows).Keys) && EntriesAgree(EntriesIn(CellsFrom(rules, ids, rows)))
  {
    var cells := CellsFrom(rules, ids, rows);
    forall x, y | x in EntriesIn(cells) && y in EntriesIn(cells)
      ensures EntryAgree(x, y)
    {
      RowsAgreeMeansEntriesAgree(rules, ids, rows, x, y);
    }
    PairwiseAgree(EntriesIn(cells));
    forall key, other | key in cells && other in cells && NameOf(key) == NameOf(other)
      ensures key.compatibility == other.compatibility
    {
      RowsAgreeMeansProfilesAgree(rules, ids, rows, key, other);
    }
  }

  /** The builder's checks over cells and entries say exactly that the rows agree. */
  lemma ChecksMeanRowsAgree(rules: Rules, ids: multiset<RunId>, rows: multiset<Row>)
    requires Lawful(rules) && Acceptable(rules, ids, rows)
    ensures var cells := CellsFrom(rules, ids, rows);
      ProfilesAgree(cells.Keys) && EntriesAgree(EntriesIn(cells)) <==> RowsAgree(rules, Supplied(ids, rows))
  {
    var cells := CellsFrom(rules, ids, rows);
    if ProfilesAgree(cells.Keys) && EntriesAgree(EntriesIn(cells)) {
      ChecksGiveRowsAgree(rules, ids, rows);
    }
    if RowsAgree(rules, Supplied(ids, rows)) {
      RowsAgreeGivesChecks(rules, ids, rows);
    }
  }

  lemma RepeatsAt(cells: CellMap, table: Table, slot: Slot)
    requires Tabulates(cells, table) && slot in table
    ensures Occupied(cells, slot)
    ensures RepeatsIn(cells[slot.cell], slot.id.scenario, slot.id.stack) == {0, 1, 2} <==>
            (forall repeat: nat :: Repeated(slot, repeat) in table <==> repeat < 3)
  {
    OccupiedIsPlaced(cells, table, slot);
    var executions := cells[slot.cell];
    forall repeat: nat
      ensures repeat in RepeatsIn(executions, slot.id.scenario, slot.id.stack) <==> Repeated(slot, repeat) in table
    {
      OccupiedIsPlaced(cells, table, Repeated(slot, repeat));
      if repeat in RepeatsIn(executions, slot.id.scenario, slot.id.stack) {
        var id :| id in executions && id.scenario == slot.id.scenario && id.stack == slot.id.stack &&
            id.repeat == repeat;
        assert id == Repeated(slot, repeat).id;
      }
      assert Repeated(slot, repeat).id in executions ==>
          repeat in RepeatsIn(executions, slot.id.scenario, slot.id.stack);
    }
  }

  ghost predicate CellsComplete(cells: CellMap) {
    forall key {:trigger Complete(cells[key])} :: key in cells ==> Complete(cells[key])
  }

  lemma CompleteGivesRepeats(cells: CellMap, table: Table, slot: Slot, repeat: nat)
    requires Tabulates(cells, table) && slot in table && CellsComplete(cells)
    ensures slot.id.repeat < 3 && (repeat < 3 ==> Repeated(slot, repeat) in table)
  {
    RepeatsAt(cells, table, slot);
    assert Complete(cells[slot.cell]);
    assert Repeated(slot, slot.id.repeat) == slot;
  }

  lemma RepeatsGiveComplete(cells: CellMap, table: Table, key: CellKey)
    requires Tabulates(cells, table) && key in cells && AllRepeats(table.Keys)
    ensures Complete(cells[key])
  {
    forall id | id in cells[key]
      ensures RepeatsIn(cells[key], id.scenario, id.stack) == {0, 1, 2}
    {
      var slot := Slot(key, id);
      assert slot in table;
      RepeatsAt(cells, table, slot);
    }
  }

  lemma CompleteGivesAllRepeats(cells: CellMap, table: Table)
    requires Tabulates(cells, table) && CellsComplete(cells)
    ensures AllRepeats(table.Keys)
  {
    forall slot, repeat: nat | slot in table.Keys
      ensures slot.id.repeat < 3 && (repeat < 3 ==> Repeated(slot, repeat) in table.Keys)
    {
      CompleteGivesRepeats(cells, table, slot, repeat);
    }
    forall slot | slot in table.Keys
      ensures slot.id.repeat < 3
    {
      CompleteGivesRepeats(cells, table, slot, 0);
    }
  }

  lemma CompleteMeansAllRepeats(cells: CellMap, table: Table)
    requires Tabulates(cells, table)
    ensures CellsComplete(cells) <==> AllRepeats(table.Keys)
  {
    if CellsComplete(cells) {
      CompleteGivesAllRepeats(cells, table);
    }
    if AllRepeats(table.Keys) {
      forall key | key in cells {
        RepeatsGiveComplete(cells, table, key);
      }
    }
  }

  // ------------------------------------------------------------- records, counters and the rows themselves

  ghost predicate AllMeasured(rules: Rules, num: Number, rows: multiset<Row>) {
    forall row :: row in rows ==> Measured(rules, num, row)
  }

  /** With one row per execution, checks and counters of an entry are those of its own row. */
  lemma EntryIsOwnRow(rules: Rules, num: Number, ids: multiset<RunId>, rows: seq<Row>, records: RowIndex, row: Row)
    requires Lawful(rules) && Acceptable(rules, ids, multiset(rows)) && RowsAgree(rules, Supplied(ids, multiset(rows)))
    requires IndexesRows(records, rows) && row in Supplied(ids, multiset(rows))
    ensures EntryOk(records, num, EntryOf(rules, row)) <==> Measured(rules, num, row)
    ensures Fill(records, num, EntryOf(rules, row)) == WithCounters(rules, num, row)
  {
    LawfulEntry(rules, ids, multiset(rows), row);
    RecordIsOwnRow(rules, ids, rows, records, row);
  }

  lemma AllOkMeansMeasured(rules: Rules, num: Number, ids: multiset<RunId>, rows: seq<Row>, records: RowIndex)
    requires Lawful(rules) && Acceptable(rules, ids, multiset(rows)) && RowsAgree(rules, Supplied(ids, multiset(rows)))
    requires IndexesRows(records, rows)
    ensures AllOk(records, num, EntriesIn(CellsFrom(rules, ids, multiset(rows)))) <==>
            AllMeasured(rules, num, Supplied(ids, multiset(rows)))
  {
    var entries := EntriesIn(CellsFrom(rules, ids, multiset(rows)));
    if AllOk(records, num, entries) {
      forall row | row in Supplied(ids, multiset(rows))
        ensures Measured(rules, num, row)
      {
        RowHasEntry(rules, ids, multiset(rows), row);
        EntryIsOwnRow(rules, num, ids, rows, records, row);
      }
    }
    if AllMeasured(rules, num, Supplied(ids, multiset(rows))) {
      forall x | x in entries
        ensures EntryOk(records, num, x)
      {
        var row := EntryHasRow(rules, ids, multiset(rows), x);
        EntryIsOwnRow(rules, num, ids, rows, records, row);
      }
    }
  }

  lemma MeasuringConsistent(rules: Rules, num: Number, rows: multiset<Row>)
    ensures Consistent(rows, Measuring(rules, num).ok, rules.slot) <==>
            Consistent(rows, rules.ok, rules.slot) && AllMeasured(rules, num, rows)
  {
    var measuring := Measuring(rules, num);
    assert forall row :: measuring.ok(row) <==> rules.ok(row) && Measured(rules, num, row);
  }

  lemma SamePlaces(rows: multiset<Row>, ok: Row -> bool, ok': Row -> bool, slot: Row -> Slot)
    requires Consistent(rows, ok, slot) && Consistent(rows, ok', slot)
    ensures Placed(rows, ok, slot) == Placed(rows, ok', slot)
  {
  }

  /** The cells with counters filled in from the index are the cells of the measuring rules. */
  lemma FilledAreMeasured(rules: Rules, num: Number, ids: multiset<RunId>, rows: seq<Row>, records: RowIndex)
    requires Lawful(rules) && Acceptable(rules, ids, multiset(rows)) && RowsAgree(rules, Supplied(ids, multiset(rows)))
    requires IndexesRows(records, rows) && Acceptable(Measuring(rules, num), ids, multiset(rows))
    ensures Filled(records, num, CellsFrom(rules, ids, multiset(rows))) ==
        CellsFrom(Measuring(rules, num), ids, multiset(rows))
  {
    var all := multiset(rows);
    var cells, measured := CellsFrom(rules, ids, all), CellsFrom(Measuring(rules, num), ids, all);
    var table := TableOf(Measuring(rules, num), Supplied(ids, all));
    var filled := Filled(records, num, cells);
    forall key, id
      ensures Slot(key, id) in table <==> key in filled && id in filled[key]
      ensures Slot(key, id) in table ==> filled[key][id] == table[Slot(key, id)]
    {
      FilledAt(rules, num, ids, rows, records, Slot(key, id));
    }
    CellsOfTabulates(TableOf(rules, Supplied(ids, all)));
    forall key | key in filled
      ensures filled[key] != map[]
    {
      var id :| id in cells[key];
      assert id in filled[key];
    }
    CellsOfTabulates(table);
    TabulatesOnce(filled, measured, table);
  }

  lemma FilledSlot(cells: CellMap, records: RowIndex, num: Number, slot: Slot)
    ensures var filled := Filled(records, num, cells);
      && (Occupied(filled, slot) <==> Occupied(cells, slot))
      && (Occupied(cells, slot) ==>
            filled[slot.cell][slot.id] == Fill(records, num, Entry(slot.cell, cells[slot.cell][slot.id])))
  {
  }

  lemma MeasuredSlot(rules: Rules, num: Number, rows: multiset<Row>, slot: Slot)
    requires Consistent(rows, rules.ok, rules.slot) && Consistent(rows, Measuring(rules, num).ok, rules.slot)
    ensures var placed, table := Placed(rows, rules.ok, rules.slot), TableOf(Measuring(rules, num), rows);
      && (slot in table <==> slot in placed)
      && (slot in placed ==> table[slot] == WithCounters(rules, num, placed[slot]))
  {
    SamePlaces(rows, rules.ok, Measuring(rules, num).ok, rules.slot);
  }

  lemma OwnSlot(rules: Rules, num: Number, ids: multiset<RunId>, rows: seq<Row>, records: RowIndex, slot: Slot)
    requires Lawful(rules) && Acceptable(rules, ids, multiset(rows)) && RowsAgree(rules, Supplied(ids, multiset(rows)))
    requires IndexesRows(records, rows)
    ensures var cells, placed := CellsFrom(rules, ids, multiset(rows)),
        Placed(Supplied(ids, multiset(rows)), rules.ok, rules.slot);
      && (Occupied(cells, slot) <==> slot in placed)
      && (Occupied(cells, slot) ==>
            Fill(records, num, Entry(slot.cell, cells[slot.cell][slot.id])) == WithCounters(rules, num, placed[slot]))
  {
    OccupiedByRow(rules, ids, multiset(rows), slot);
    var placed := Placed(Supplied(ids, multiset(rows)), rules.ok, rules.slot);
    if slot in placed {
      EntryIsOwnRow(rules, num, ids, rows, records, placed[slot]);
    }
  }

  lemma FilledAt(rules: Rules, num: Number, ids: multiset<RunId>, rows: seq<Row>, records: RowIndex, slot: Slot)
    requires Lawful(rules) && Acceptable(rules, ids, multiset(rows)) && RowsAgree(rules, Supplied(ids, multiset(rows)))
    requires IndexesRows(records, rows) && Acceptable(Measuring(rules, num), ids, multiset(rows))
    ensures var filled := Filled(records, num, CellsFrom(rules, ids, multiset(rows)));
      var table := TableOf(Measuring(rules, num), Supplied(ids, multiset(rows)));
      && (slot in table <==> Occupied(filled, slot))
      && (slot in table ==> filled[slot.cell][slot.id] == table[slot])
  {
    OwnSlot(rules, num, ids, rows, records, slot);
    FilledSlot(CellsFrom(rules, ids, multiset(rows)), records, num, slot);
    MeasuredSlot(rules, num, Supplied(ids, multiset(rows)), slot);
  }

  ghost predicate AllThere(rules: Rules, rows: multiset<Row>)
    requires Consistent(rows, rules.ok, rules.slot)
  {
    AllRepeats(Placed(rows, rules.ok, rules.slot).Keys)
  }

  lemma CompleteMeansAllThere(rules: Rules, ids: multiset<RunId>, rows: multiset<Row>)
    requires Acceptable(rules, ids, rows)
    ensures var cells := CellsFrom(rules, ids, rows);
      CellsComplete(cells) <==> AllThere(rules, Supplied(ids, rows))
  {
    var table := TableOf(rules, Supplied(ids, rows));
    CellsOfTabulates(table);
    CompleteMeansAllRepeats(CellsOf(table), table);
    TableSlots(rules, Supplied(ids, rows));
  }

  lemma TableSlots(rules: Rules, rows: multiset<Row>)
    requires Consistent(rows, rules.ok, rules.slot)
    ensures TableOf(rules, rows).Keys == Placed(rows, rules.ok, rules.slot).Keys
  {
  }

  lemma AcceptableWhenMeasured(rules: Rules, num: Number, ids: multiset<RunId>, rows: multiset<Row>)
    requires Acceptable(rules, ids, rows)
    ensures TlsAcceptable(Measuring(rules, num), ids, rows) <==>
            AllMeasured(rules, num, Supplied(ids, rows)) && RowsAgree(rules, Supplied(ids, rows)) &&
                AllThere(rules, Supplied(ids, rows))
  {
    MeasuringConsistent(rules, num, Supplied(ids, rows));
    MeasuringAgrees(rules, num, Supplied(ids, rows));
    if AllMeasured(rules, num, Supplied(ids, rows)) {
      SamePlaces(Supplied(ids, rows), rules.ok, Measuring(rules, num).ok, rules.slot);
    }
  }

  /** The checks of the builder accept exactly the acceptable comparisons. */
  lemma ComparableMeansAcceptable(rules: Rules, num: Number, ids: multiset<RunId>, rows: seq<Row>, records: RowIndex)
    requires Lawful(rules) && Acceptable(rules, ids, multiset(rows)) && IndexesRows(records, rows)
    ensures Comparable(CellsFrom(rules, ids, multiset(rows)), records, num) <==>
            TlsAcceptable(Measuring(rules, num), ids, multiset(rows))
  {
    AcceptableWhenMeasured(rules, num, ids, multiset(rows));
    ChecksMeanRowsAgree(rules, ids, multiset(rows));
    CompleteMeansAllThere(rules, ids, multiset(rows));
    if RowsAgree(rules, Supplied(ids, multiset(rows))) {
      AllOkMeansMeasured(rules, num, ids, rows, records);
    }
  }

  lemma MeasuringAgrees(rules: Rules, num: Number, rows: multiset<Row>)
    ensures RowsAgree(Measuring(rules, num), rows) <==> RowsAgree(rules, rows)
  {
    assert forall a, b :: Agree(Measuring(rules, num), a, b) <==> Agree(rules, a, b);
  }
}
