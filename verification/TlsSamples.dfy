/**
  What an accepted TLS comparison guarantees the exporter: every profile can be turned into rows, the
  sample filters of different rows select disjoint samples, and byte totals come from a row's own runs.
 */
module TlsSamples {
  import opened Common
  import opened Workloads
  import opened Metadata
  import opened Cells
  import opened ScenarioGroups
  import opened TlsComparison
  import opened TlsBuilder
  import opened TlsCells
  import opened TlsExport

  // ------------------------------------------------------------- accepted means exportable

  /** The row behind an execution, with everything the rules say about it. */
  lemma ExecutionRow(
    rules: Rules, num: Number, ids: multiset<RunId>, rows: multiset<Row>, slot: Slot)
    returns (row: Row)
    requires Lawful(rules) && Acceptable(Measuring(rules, num), ids, rows)
    requires Occupied(CellsFrom(Measuring(rules, num), ids, rows), slot)
    ensures row in Supplied(ids, rows) && rules.slot(row) == slot && Measured(rules, num, row)
    ensures CellsFrom(Measuring(rules, num), ids, rows)[slot.cell][slot.id] == WithCounters(rules, num, row)
    ensures LawfulRow(Measuring(rules, num), row)
  {
    var measuring := Measuring(rules, num);
    row := PlaceHasRow(measuring, ids, rows, slot);
    assert measuring.ok(row);
    MeasuringIsLawful(rules, num);
  }

  lemma AcceptedComplete(rules: Rules, ids: multiset<RunId>, rows: multiset<Row>, key: CellKey)
    requires TlsAcceptable(rules, ids, rows) && key in CellsFrom(rules, ids, rows)
    ensures Complete(CellsFrom(rules, ids, rows)[key]) && CellsFrom(rules, ids, rows)[key] != map[]
  {
    CompleteMeansAllThere(rules, ids, rows);
    assert CellsComplete(CellsFrom(rules, ids, rows));
    CellsOfTabulates(TableOf(rules, Supplied(ids, rows)));
  }

  lemma AcceptedExecution(
    rules: Rules, num: Number, ids: multiset<RunId>, rows: multiset<Row>, key: CellKey, id: SlotId)
    requires Lawful(rules) && Acceptable(Measuring(rules, num), ids, rows)
    requires Occupied(CellsFrom(Measuring(rules, num), ids, rows), Slot(key, id))
    ensures var e := CellsFrom(Measuring(rules, num), ids, rows)[key][id];
      e.repeat == id.repeat && PositiveElapsed(e, num) && (NameOf(key) == BYTE_CHART ==> HasCounters(e))
  {
    var row := ExecutionRow(rules, num, ids, rows, Slot(key, id));
  }

  lemma AcceptedRunnable(rules: Rules, num: Number, ids: multiset<RunId>, rows: multiset<Row>, key: CellKey)
    requires Lawful(rules) && TlsAcceptable(Measuring(rules, num), ids, rows)
    requires key in CellsFrom(Measuring(rules, num), ids, rows)
    ensures Runnable(CellsFrom(Measuring(rules, num), ids, rows)[key], num)
    ensures NameOf(key) == BYTE_CHART ==> Counted(CellsFrom(Measuring(rules, num), ids, rows)[key])
  {
    var executions: Executions := CellsFrom(Measuring(rules, num), ids, rows)[key];
    AcceptedComplete(Measuring(rules, num), ids, rows, key);
    forall id | id in executions
      ensures executions[id].repeat == id.repeat && PositiveElapsed(executions[id], num)
      ensures NameOf(key) == BYTE_CHART ==> HasCounters(executions[id])
    {
      AcceptedExecution(rules, num, ids, rows, key, id);
    }
  }

  ghost predicate AllRunnable(cells: CellMap, num: Number) {
    forall key :: key in cells ==> Runnable(cells[key], num) && (NameOf(key) == BYTE_CHART ==> Counted(cells[key]))
  }

  lemma AcceptedAllRunnable(rules: Rules, num: Number, ids: multiset<RunId>, rows: multiset<Row>)
    requires Lawful(rules) && TlsAcceptable(Measuring(rules, num), ids, rows)
    ensures AllRunnable(CellsFrom(Measuring(rules, num), ids, rows), num)
  {
    forall key | key in CellsFrom(Measuring(rules, num), ids, rows) {
      AcceptedRunnable(rules, num, ids, rows, key);
    }
  }

  lemma FitsIsExportable(cells: CellMap, num: Number, cell: TlsCell)
    requires AllRunnable(cells, num) && TlsCellFits(cells, cell)
    ensures Exportable(cell, num)
  {
    forall c | c in cell.configurations
      ensures IsConfiguration(c) && Runnable(cell.configurations[c], num)
      ensures cell.name == BYTE_CHART ==> Counted(cell.configurations[c])
    {
      assert Holds(cells, cell, c);
    }
  }

  /** Every cell of an accepted comparison can be exported. */
  lemma AcceptedIsExportable(
    rules: Rules, num: Number, ids: multiset<RunId>, rows: multiset<Row>, order: seq<string>, result: seq<TlsCell>,
    cell: TlsCell)
    requires Lawful(rules) && TlsAcceptable(Measuring(rules, num), ids, rows)
    requires Compares(CellsFrom(Measuring(rules, num), ids, rows), order, result) && cell in result
    ensures Exportable(cell, num)
  {
    AcceptedAllRunnable(rules, num, ids, rows);
    FitsIsExportable(CellsFrom(Measuring(rules, num), ids, rows), num, cell);
  }

  lemma ComparedIsExportable(rules: Rules, num: Number, ids: multiset<RunId>, rows: multiset<Row>, built: seq<TlsCell>)
    requires Lawful(rules) && TlsAcceptable(Measuring(rules, num), ids, rows)
    requires ComparedIn(CellsFrom(Measuring(rules, num), ids, rows), built)
    ensures forall cell :: cell in built ==> Exportable(cell, num)
  {
    var cells := CellsFrom(Measuring(rules, num), ids, rows);
    var order: seq<string> :| ScenarioList(cells, order) && Compares(cells, order, built);
    forall cell | cell in built
      ensures Exportable(cell, num)
    {
      AcceptedIsExportable(rules, num, ids, rows, order, built, cell);
    }
  }

  // ------------------------------------------------------------- disjoint samples

  /** The tags of a stored sample that the filters look at. */
  datatype Sample = Sample(run: RunId, scenario: string, stack: string, profile: string, index: int)

  predicate IsSampleOf(e: Execution, s: Sample) {
    s == Sample(e.run, e.scenarioTag, e.stackTag, e.profileTag, e.index)
  }

  /** supplied_execution_filter: one clause for each execution, joined by `or`. */
  predicate Selected(executions: seq<Execution>, s: Sample) {
    exists e :: e in executions && IsSampleOf(e, s)
  }

  ghost predicate SameExecution(cells: CellMap, slot: Slot, other: Slot)
    requires Occupied(cells, slot) && Occupied(cells, other)
  {
    var a, b := cells[slot.cell][slot.id], cells[other.cell][other.id];
    a.run == b.run && a.index == b.index
  }

  /** No two executions share a run id and an execution index. */
  ghost predicate ExecutionsKeyed(cells: CellMap) {
    forall slot, other :: Occupied(cells, slot) && Occupied(cells, other) && SameExecution(cells, slot, other) ==>
        slot == other
  }

  lemma SameExecutionSameSlot(
    rules: Rules, num: Number, ids: multiset<RunId>, rows: multiset<Row>, slot: Slot, other: Slot)
    requires Lawful(rules) && TlsAcceptable(Measuring(rules, num), ids, rows)
    requires Occupied(CellsFrom(Measuring(rules, num), ids, rows), slot)
    requires Occupied(CellsFrom(Measuring(rules, num), ids, rows), other)
    requires SameExecution(CellsFrom(Measuring(rules, num), ids, rows), slot, other)
    ensures slot == other
  {
    var a := ExecutionRow(rules, num, ids, rows, slot);
    var b := ExecutionRow(rules, num, ids, rows, other);
    MeasuringIsLawful(rules, num);
    OneRowPerExecution(Measuring(rules, num), ids, rows, a, b);
  }

  /** On acceptance, run id and execution index identify an execution in the whole comparison. */
  lemma AcceptedExecutionsKeyed(rules: Rules, num: Number, ids: multiset<RunId>, rows: multiset<Row>)
    requires Lawful(rules) && TlsAcceptable(Measuring(rules, num), ids, rows)
    ensures ExecutionsKeyed(CellsFrom(Measuring(rules, num), ids, rows))
  {
    var cells := CellsFrom(Measuring(rules, num), ids, rows);
    forall slot, other | Occupied(cells, slot) && Occupied(cells, other) && SameExecution(cells, slot, other)
      ensures slot == other
    {
      SameExecutionSameSlot(rules, num, ids, rows, slot, other);
    }
  }

  /** A row of the charts: a profile, a pair, a configuration, and the executions pooled for it. */
  datatype PooledRow = PooledRow(cell: TlsCell, pair: Pair, configuration: GroupKey, runs: seq<Execution>)

  ghost predicate IsRow(result: seq<TlsCell>, row: PooledRow) {
    row.cell in result && RowExecutions(row.cell, row.pair, row.configuration, row.runs)
  }

  ghost predicate Pools(cells: CellMap, row: PooledRow, slot: Slot, s: Sample) {
    && slot.cell == SourceKey(row.cell.name, row.cell.compatibility, row.configuration)
    && (slot.id.scenario, slot.id.stack) == row.pair
    && Occupied(cells, slot) && IsSampleOf(cells[slot.cell][slot.id], s)
  }

  /** A sample that a row selects belongs to an execution of its cell and pair. */
  lemma PooledExecution(cells: CellMap, row: PooledRow, s: Sample) returns (slot: Slot)
    requires TlsCellFits(cells, row.cell) && RowExecutions(row.cell, row.pair, row.configuration, row.runs)
    requires Selected(row.runs, s)
    ensures Pools(cells, row, slot, s)
  {
    var e :| e in row.runs && IsSampleOf(e, s);
    assert Holds(cells, row.cell, row.configuration);
    var k :| 0 <= k < |row.runs| && row.runs[k] == e;
    slot := Slot(SourceKey(row.cell.name, row.cell.compatibility, row.configuration),
        SlotId(row.pair.0, row.pair.1, k));
  }

  lemma SameNameSameCell(result: seq<TlsCell>, a: TlsCell, b: TlsCell)
    requires Ranked(result, TlsRank) && a in result && b in result && a.name == b.name
    ensures a == b
  {
    var i :| 0 <= i < |result| && result[i] == a;
    var j :| 0 <= j < |result| && result[j] == b;
    assert TlsRank(result[i]) == TlsRank(result[j]);
    assert i == j;
  }

  lemma SharedSampleSharedSlot(cells: CellMap, row: PooledRow, other: PooledRow, s: Sample)
    requires ExecutionsKeyed(cells) && TlsCellFits(cells, row.cell) && TlsCellFits(cells, other.cell)
    requires RowExecutions(row.cell, row.pair, row.configuration, row.runs) && Selected(row.runs, s)
    requires RowExecutions(other.cell, other.pair, other.configuration, other.runs) && Selected(other.runs, s)
    ensures row.cell.name == other.cell.name && row.pair == other.pair && row.configuration == other.configuration
  {
    var slot := PooledExecution(cells, row, s);
    var slot' := PooledExecution(cells, other, s);
    assert SameExecution(cells, slot, slot');
    assert KeyOf(slot.cell) == row.configuration && KeyOf(slot'.cell) == other.configuration;
    assert NameOf(slot.cell) == row.cell.name && NameOf(slot'.cell) == other.cell.name;
  }

  /** A sample is pooled into at most one row of the whole comparison. */
  lemma RowsSelectDisjointSamples(
    rules: Rules, num: Number, ids: multiset<RunId>, rows: multiset<Row>, order: seq<string>, result: seq<TlsCell>,
    row: PooledRow, other: PooledRow, s: Sample)
    requires Lawful(rules) && TlsAcceptable(Measuring(rules, num), ids, rows)
    requires Compares(CellsFrom(Measuring(rules, num), ids, rows), order, result)
    requires IsRow(result, row) && IsRow(result, other) && Selected(row.runs, s) && Selected(other.runs, s)
    ensures row.cell == other.cell && row.pair == other.pair && row.configuration == other.configuration
  {
    AcceptedExecutionsKeyed(rules, num, ids, rows);
    SharedSampleSharedSlot(CellsFrom(Measuring(rules, num), ids, rows), row, other, s);
    SameNameSameCell(result, row.cell, other.cell);
  }

  function SampleOf(row: Row): Sample {
    Sample(row.Run(), row.key.scenario, row.key.stack, row.key.profile, row.key.index)
  }

  lemma RunsInOrder(executions: Executions, id: SlotId) returns (runs: seq<Execution>)
    requires Complete(executions) && id in executions
    ensures forall k: nat :: k < 3 ==> SlotId(id.scenario, id.stack, k) in executions
    ensures runs == ThreeRuns(executions, id.scenario, id.stack) && executions[id] in runs
  {
    forall k: nat | k < 3
      ensures SlotId(id.scenario, id.stack, k) in executions
    {
      InRepeats(executions, id.scenario, id.stack, k);
    }
    runs := ThreeRuns(executions, id.scenario, id.stack);
    InRepeats(executions, id.scenario, id.stack, id.repeat);
    assert id == SlotId(id.scenario, id.stack, id.repeat);
    assert id.repeat in {0, 1, 2} && runs[id.repeat] == executions[id];
  }

  lemma CellIsShown(cells: CellMap, order: seq<string>, result: seq<TlsCell>, key: CellKey) returns (cell: TlsCell)
    requires Compares(cells, order, result) && key in cells
    ensures cell in result && cell.name == NameOf(key)
    ensures KeyOf(key) in cell.configurations && cell.configurations[KeyOf(key)] == cells[key]
  {
    assert HasName(result, NameOf(key));
    cell :| cell in result && cell.name == NameOf(key);
    assert TlsCellFits(cells, cell);
    assert Holds(cells, cell, KeyOf(key)) && SourceKey(cell.name, cell.compatibility, KeyOf(key)) == key;
  }

  lemma CellPools(cell: TlsCell, c: GroupKey, id: SlotId) returns (row: PooledRow)
    requires c in cell.configurations && id in cell.configurations[c] && Complete(cell.configurations[c])
    ensures row.cell == cell && RowExecutions(row.cell, row.pair, row.configuration, row.runs)
    ensures cell.configurations[c][id] in row.runs
  {
    var runs := RunsInOrder(cell.configurations[c], id);
    row := PooledRow(cell, (id.scenario, id.stack), c, runs);
  }

  /** Every execution of the cells is pooled into a row. */
  lemma ExecutionIsPooled(cells: CellMap, order: seq<string>, result: seq<TlsCell>, slot: Slot) returns (row: PooledRow)
    requires Compares(cells, order, result) && Occupied(cells, slot) && Complete(cells[slot.cell])
    ensures IsRow(result, row) && cells[slot.cell][slot.id] in row.runs
  {
    var cell := CellIsShown(cells, order, result, slot.cell);
    row := CellPools(cell, KeyOf(slot.cell), slot.id);
  }

  /** The samples of every supplied execution are pooled into some row. */
  lemma EverySampleIsPooled(
    rules: Rules, num: Number, ids: multiset<RunId>, rows: multiset<Row>, order: seq<string>, result: seq<TlsCell>,
    source: Row)
    returns (row: PooledRow)
    requires Lawful(rules) && TlsAcceptable(Measuring(rules, num), ids, rows)
    requires Compares(CellsFrom(Measuring(rules, num), ids, rows), order, result) && source in rows
    requires source.Run() in ids
    ensures IsRow(result, row) && Selected(row.runs, SampleOf(source))
  {
    RowOccupies(Measuring(rules, num), ids, rows, source);
    AcceptedComplete(Measuring(rules, num), ids, rows, rules.slot(source).cell);
    row := ExecutionIsPooled(CellsFrom(Measuring(rules, num), ids, rows), order, result, rules.slot(source));
    SampleMatches(rules, num, ids, rows, source);
  }

  lemma SampleMatches(rules: Rules, num: Number, ids: multiset<RunId>, rows: multiset<Row>, source: Row)
    requires Lawful(rules) && Acceptable(Measuring(rules, num), ids, rows) && source in rows && source.Run() in ids
    ensures IsSampleOf(Measuring(rules, num).execution(source), SampleOf(source))
  {
    SupplyOk(Measuring(rules, num), ids, rows, source);
    MeasuringIsLawful(rules, num);
    assert LawfulRow(Measuring(rules, num), source);
  }

  // ------------------------------------------------------------- byte totals

  /** `source` is the row that made the execution, and the counters are its own. */
  ghost predicate Sourced(e: Execution, num: Number, ids: multiset<RunId>, rows: multiset<Row>, source: Row) {
    && source in rows && source.Run() in ids && IsSampleOf(e, SampleOf(source))
    && e.counters == CountersOf(source, num) && e.counters.Some? && e.counters.value.requests > 0
  }

  /** All executions of byte charts carry the counters of their own rows. */
  ghost predicate CellsSourced(cells: CellMap, num: Number, ids: multiset<RunId>, rows: multiset<Row>) {
    forall slot :: Occupied(cells, slot) && NameOf(slot.cell) == BYTE_CHART ==> SlotSourced(cells, num, ids, rows, slot)
  }

  ghost predicate SlotSourced(cells: CellMap, num: Number, ids: multiset<RunId>, rows: multiset<Row>, slot: Slot)
    requires Occupied(cells, slot)
  {
    var e := cells[slot.cell][slot.id];
    e.repeat == slot.id.repeat && exists source :: Sourced(e, num, ids, rows, source)
  }

  lemma AcceptedSlotSourced(rules: Rules, num: Number, ids: multiset<RunId>, rows: multiset<Row>, slot: Slot)
    requires Lawful(rules) && Acceptable(Measuring(rules, num), ids, rows)
    requires Occupied(CellsFrom(Measuring(rules, num), ids, rows), slot)
    requires NameOf(slot.cell) == BYTE_CHART
    ensures SlotSourced(CellsFrom(Measuring(rules, num), ids, rows), num, ids, rows, slot)
  {
    var source := ExecutionRow(rules, num, ids, rows, slot);
    assert source in Supplied(ids, rows);
    assert Sourced(CellsFrom(Measuring(rules, num), ids, rows)[slot.cell][slot.id], num, ids, rows, source);
  }

  lemma AcceptedCellsSourced(rules: Rules, num: Number, ids: multiset<RunId>, rows: multiset<Row>)
    requires Lawful(rules) && Acceptable(Measuring(rules, num), ids, rows)
    ensures CellsSourced(CellsFrom(Measuring(rules, num), ids, rows), num, ids, rows)
  {
    var cells := CellsFrom(Measuring(rules, num), ids, rows);
    forall slot | Occupied(cells, slot) && NameOf(slot.cell) == BYTE_CHART
      ensures SlotSourced(cells, num, ids, rows, slot)
    {
      AcceptedSlotSourced(rules, num, ids, rows, slot);
    }
  }

  lemma RunSlot(cells: CellMap, row: PooledRow, k: nat) returns (slot: Slot)
    requires TlsCellFits(cells, row.cell) && RowExecutions(row.cell, row.pair, row.configuration, row.runs)
    requires row.runs != [] && k < 3
    ensures |row.runs| == 3 && Occupied(cells, slot) && cells[slot.cell][slot.id] == row.runs[k]
    ensures NameOf(slot.cell) == row.cell.name && slot.id.repeat == k
  {
    assert Holds(cells, row.cell, row.configuration);
    slot := Slot(SourceKey(row.cell.name, row.cell.compatibility, row.configuration),
        SlotId(row.pair.0, row.pair.1, k));
  }

  lemma ByteRunRow(
    cells: CellMap, num: Number, ids: multiset<RunId>, rows: multiset<Row>, row: PooledRow, k: nat)
    returns (source: Row)
    requires CellsSourced(cells, num, ids, rows) && TlsCellFits(cells, row.cell) && row.cell.name == BYTE_CHART
    requires RowExecutions(row.cell, row.pair, row.configuration, row.runs) && row.runs != [] && k < 3
    ensures |row.runs| == 3 && row.runs[k].repeat == k && Sourced(row.runs[k], num, ids, rows, source)
  {
    var slot := RunSlot(cells, row, k);
    assert SlotSourced(cells, num, ids, rows, slot);
    source :| Sourced(cells[slot.cell][slot.id], num, ids, rows, source);
  }

  lemma PoolFromCells(cells: CellMap, num: Number, ids: multiset<RunId>, rows: multiset<Row>, row: PooledRow)
    returns (a: Row, b: Row, c: Row)
    requires CellsSourced(cells, num, ids, rows) && TlsCellFits(cells, row.cell) && row.cell.name == BYTE_CHART
    requires RowExecutions(row.cell, row.pair, row.configuration, row.runs) && row.runs != []
    ensures |row.runs| == 3 && Sourced(row.runs[0], num, ids, rows, a) && Sourced(row.runs[1], num, ids, rows, b)
    ensures Sourced(row.runs[2], num, ids, rows, c)
    ensures PooledByteValues(row.runs) ==
            Ok(Plus(Plus(CountersOf(a, num).value, CountersOf(b, num).value), CountersOf(c, num).value))
  {
    a := ByteRunRow(cells, num, ids, rows, row, 0);
    b := ByteRunRow(cells, num, ids, rows, row, 1);
    c := ByteRunRow(cells, num, ids, rows, row, 2);
    ThreeRunsPool(row.runs);
  }

  /** Every available row of a byte chart has its totals: the sums of the counters of its own three rows. */
  lemma ByteRowPools(
    rules: Rules, num: Number, ids: multiset<RunId>, rows: multiset<Row>, order: seq<string>, result: seq<TlsCell>,
    row: PooledRow)
    returns (a: Row, b: Row, c: Row)
    requires Lawful(rules) && TlsAcceptable(Measuring(rules, num), ids, rows)
    requires Compares(CellsFrom(Measuring(rules, num), ids, rows), order, result)
    requires IsRow(result, row) && row.cell.name == BYTE_CHART && row.runs != []
    ensures |row.runs| == 3 && Sourced(row.runs[0], num, ids, rows, a) && Sourced(row.runs[1], num, ids, rows, b)
    ensures Sourced(row.runs[2], num, ids, rows, c)
    ensures PooledByteValues(row.runs) ==
            Ok(Plus(Plus(CountersOf(a, num).value, CountersOf(b, num).value), CountersOf(c, num).value))
  {
    AcceptedCellsSourced(rules, num, ids, rows);
    a, b, c := PoolFromCells(CellsFrom(Measuring(rules, num), ids, rows), num, ids, rows, row);
  }
}
