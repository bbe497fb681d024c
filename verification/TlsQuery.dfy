/**
  The command line's path from the query to the files of a TLS comparison. Beyond what the builder
  accepts, the export asks that every supplied row's scenario can be part of a file name, that what is
  on disk under a chart's name can be read, and that there are percentiles for every chart that has to
  be drawn. The builder checks none of these.
 */
module TlsQuery {
  import opened Common
  import opened Workloads
  import opened Metadata
  import opened Cells
  import opened ScenarioGroups
  import opened TlsComparison
  import opened TlsBuilder
  import opened TlsCells
  import opened TlsExport
  import opened TlsSamples
  import opened FileNames
  import opened TlsCharts
  import opened Axes

  // ------------------------------------------------------------- what the export asks of the rows

  function RowPair(row: Row): Pair {
    PairOf(SlotOf(row).id)
  }

  /** The percentile chart that a row belongs to. */
  function RowChart(metric: SummaryMetric, row: Row): ChartFile {
    ChartFile.Percentiles(metric, NameOf(SlotOf(row).cell), ScenarioOf(row))
  }

  /** The runs that are pooled with a row's execution. */
  function RowRuns(cells: CellMap, row: Row): seq<Execution> {
    if SlotOf(row).cell in cells then PairRuns(cells[SlotOf(row).cell], RowPair(row)) else []
  }

  /** Every supplied row has a scenario that can be part of a file name. */
  ghost predicate Nameable(ids: multiset<RunId>, rows: multiset<Row>) {
    forall row {:trigger ScenarioOf(row)} :: row in rows && row.Run() in ids ==> ValidSlug(ScenarioOf(row))
  }

  /** What is on disk under the names of the supplied rows' charts can be read. */
  ghost predicate Legible(outside: Outside, disk: set<string>, ids: multiset<RunId>, rows: multiset<Row>) {
    forall row {:trigger ScenarioOf(row)} :: row in rows && row.Run() in ids ==>
        ChartsReadable(outside, disk, NameOf(SlotOf(row).cell), ScenarioOf(row))
  }

  /** For every supplied row whose chart has to be drawn, the percentiles of its three runs are there and in order. */
  ghost predicate Poolable(
    outside: Outside, disk: set<string>, cells: CellMap, ids: multiset<RunId>, rows: multiset<Row>)
  {
    forall row {:trigger RowPools(outside, disk, cells, row)} :: row in rows && row.Run() in ids ==>
        RowPools(outside, disk, cells, row)
  }

  ghost predicate RowPools(outside: Outside, disk: set<string>, cells: CellMap, row: Row) {
    forall metric: SummaryMetric ::
      Fresh(disk, outside.reusable)(RowChart(metric, row)) ==> CanPool(outside, metric, RowRuns(cells, row))
  }

  /** The rows that can be compared and exported. */
  ghost predicate RowsExport(outside: Outside, disk: set<string>, ids: multiset<RunId>, rows: multiset<Row>) {
    var rules := Measuring(RULES, outside.num);
    && TlsAcceptable(rules, ids, rows)
    && Nameable(ids, rows) && Legible(outside, disk, ids, rows)
    && Poolable(outside, disk, CellsFrom(rules, ids, rows), ids, rows)
  }

  ghost predicate SlotExports(outside: Outside, disk: set<string>, cells: CellMap, slot: Slot)
    requires Occupied(cells, slot)
  {
    PairExports(outside, disk, NameOf(slot.cell), cells[slot.cell], PairOf(slot.id))
  }

  /** The profiles of a comparison export exactly when all of its executions do. */
  lemma ResultExports(outside: Outside, disk: set<string>, cells: CellMap, order: seq<string>, result: seq<TlsCell>)
    requires Compares(cells, order, result)
    ensures AllExport(result, outside, disk) <==> forall slot :: Occupied(cells, slot) ==>
        SlotExports(outside, disk, cells, slot)
  {
    if AllExport(result, outside, disk) {
      forall slot | Occupied(cells, slot)
        ensures SlotExports(outside, disk, cells, slot)
      {
        var cell := CellIsShown(cells, order, result, slot.cell);
        assert CellExports(outside, disk, cell);
        assert PairExports(outside, disk, cell.name, cell.configurations[KeyOf(slot.cell)], PairOf(slot.id));
      }
    }
    if forall slot :: Occupied(cells, slot) ==> SlotExports(outside, disk, cells, slot) {
      forall cell | cell in result
        ensures CellExports(outside, disk, cell)
      {
        SlotsExportCell(outside, disk, cells, cell);
      }
    }
  }

  lemma SlotsExportCell(outside: Outside, disk: set<string>, cells: CellMap, cell: TlsCell)
    requires TlsCellFits(cells, cell)
    requires forall slot :: Occupied(cells, slot) ==> SlotExports(outside, disk, cells, slot)
    ensures CellExports(outside, disk, cell)
  {
    forall c, id | c in cell.configurations && id in cell.configurations[c]
      ensures PairExports(outside, disk, cell.name, cell.configurations[c], PairOf(id))
    {
      assert Holds(cells, cell, c);
      var slot := Slot(SourceKey(cell.name, cell.compatibility, c), id);
      assert Occupied(cells, slot) && SlotExports(outside, disk, cells, slot);
    }
  }

  lemma RowIsSlot(outside: Outside, disk: set<string>, cells: CellMap, row: Row)
    requires Occupied(cells, SlotOf(row))
    ensures SlotExports(outside, disk, cells, SlotOf(row)) <==>
            (ValidSlug(ScenarioOf(row)) && ChartsReadable(outside, disk, NameOf(SlotOf(row).cell), ScenarioOf(row)) &&
             RowPools(outside, disk, cells, row))
  {
    assert RowRuns(cells, row) == PairRuns(cells[SlotOf(row).cell], RowPair(row)) && RowPair(row).0 == ScenarioOf(row);
  }

  /** The executions export exactly when the rows behind them do. */
  lemma SlotsAreRows(outside: Outside, disk: set<string>, ids: multiset<RunId>, rows: multiset<Row>)
    requires TlsAcceptable(Measuring(RULES, outside.num), ids, rows)
    ensures var cells := CellsFrom(Measuring(RULES, outside.num), ids, rows);
      (forall slot :: Occupied(cells, slot) ==> SlotExports(outside, disk, cells, slot)) <==>
      (Nameable(ids, rows) && Legible(outside, disk, ids, rows) && Poolable(outside, disk, cells, ids, rows))
  {
    var rules := Measuring(RULES, outside.num);
    var cells := CellsFrom(rules, ids, rows);
    if forall slot :: Occupied(cells, slot) ==> SlotExports(outside, disk, cells, slot) {
      forall row | row in rows && row.Run() in ids
        ensures ValidSlug(ScenarioOf(row)) && RowPools(outside, disk, cells, row)
        ensures ChartsReadable(outside, disk, NameOf(SlotOf(row).cell), ScenarioOf(row))
      {
        RowOccupies(rules, ids, rows, row);
        RowIsSlot(outside, disk, cells, row);
      }
    }
    if Nameable(ids, rows) && Legible(outside, disk, ids, rows) && Poolable(outside, disk, cells, ids, rows) {
      forall slot | Occupied(cells, slot)
        ensures SlotExports(outside, disk, cells, slot)
      {
        var row := PlaceHasRow(rules, ids, rows, slot);
        assert row in rows && row.Run() in ids && RowPools(outside, disk, cells, row);
        RowIsSlot(outside, disk, cells, row);
      }
    }
  }

  // ------------------------------------------------------------- from rows to files

  ghost predicate BuiltFrom(outside: Outside, ids: multiset<RunId>, rows: multiset<Row>, built: seq<TlsCell>) {
    var rules := Measuring(RULES, outside.num);
    TlsAcceptable(rules, ids, rows) && ComparedIn(CellsFrom(rules, ids, rows), built)
  }

  /** The finished export of the comparison of these rows. */
  ghost predicate ExportOf(
    outside: Outside, disk: set<string>, ids: multiset<RunId>, rows: multiset<Row>, done: Export<seq<Charts>>,
    after: set<string>) {
    exists built: seq<TlsCell> :: BuiltFrom(outside, ids, rows, built) && ExportDone(built, outside, disk, done, after)
  }

  /** Either nothing was compared and nothing written, or the export stopped at a profile. */
  ghost predicate Stopped(
    outside: Outside, disk: set<string>, ids: multiset<RunId>, rows: multiset<Row>, after: set<string>)
  {
    if TlsAcceptable(Measuring(RULES, outside.num), ids, rows) then
      exists built: seq<TlsCell>, i: nat :: BuiltFrom(outside, ids, rows, built) &&
          StoppedAt(built, outside, disk, after, i)
    else after == disk
  }

  lemma BuiltExports(
    outside: Outside, disk: set<string>, ids: multiset<RunId>, rows: multiset<Row>, built: seq<TlsCell>)
    requires BuiltFrom(outside, ids, rows, built)
    ensures forall cell :: cell in built ==> Exportable(cell, outside.num)
    ensures Exportables(PlansOf(built))
    ensures AllExport(built, outside, disk) <==> RowsExport(outside, disk, ids, rows)
  {
    var cells := CellsFrom(Measuring(RULES, outside.num), ids, rows);
    RulesAreLawful();
    ComparedIsExportable(RULES, outside.num, ids, rows, built);
    var order: seq<string> :| ScenarioList(cells, order) && Compares(cells, order, built);
    PlansOfComparison(cells, order, built);
    ResultExports(outside, disk, cells, order, built);
    SlotsAreRows(outside, disk, ids, rows);
  }

  method ExportRows(ids: seq<RunId>, rows: seq<Row>, outside: Outside, disk: set<string>)
    returns (r: Result<Export<seq<Charts>>>, after: set<string>)
    requires IsLog10(outside.log10)
    ensures r.Ok? <==> RowsExport(outside, disk, multiset(ids), multiset(rows))
    ensures r.Ok? ==> ExportOf(outside, disk, multiset(ids), multiset(rows), r.value, after)
    ensures r.Rejected? ==> Stopped(outside, disk, multiset(ids), multiset(rows), after)
  {
    var built := BuildTlsComparison(ids, rows, outside.num);
    if built.Rejected? {
      return Rejected(built.reason), disk;
    }
    assert BuiltFrom(outside, multiset(ids), multiset(rows), built.value);
    BuiltExports(outside, disk, multiset(ids), multiset(rows), built.value);
    r, after := ExportTlsComparison(built.value, outside, disk);
  }

  /** The rows of a query, once pivoted, can be compared and exported. */
  ghost predicate QueryExports(outside: Outside, disk: set<string>, ids: multiset<RunId>, flat: multiset<FlatRow>) {
    Pivotable(flat) && exists rows: seq<Row> :: Pivot(flat, rows) && RowsExport(outside, disk, ids, multiset(rows))
  }

  /**
    From the query to the files: refused exactly when the pivot refuses, when the builder refuses, when
    a supplied scenario cannot be part of a file name, when a file under a chart's name cannot be read,
    or when percentiles to be drawn are not there.
   */
  method CompareTls(ids: seq<RunId>, flat: seq<FlatRow>, outside: Outside, disk: set<string>)
    returns (r: Result<Export<seq<Charts>>>, after: set<string>)
    requires IsLog10(outside.log10)
    ensures r.Ok? <==> QueryExports(outside, disk, multiset(ids), multiset(flat))
    ensures r.Ok? ==> forall rows: seq<Row> :: Pivot(multiset(flat), rows) ==>
              ExportOf(outside, disk, multiset(ids), multiset(rows), r.value, after)
    ensures r.Rejected? ==> forall rows: seq<Row> :: Pivotable(multiset(flat)) && Pivot(multiset(flat), rows) ==>
              Stopped(outside, disk, multiset(ids), multiset(rows), after)
    ensures !Pivotable(multiset(flat)) ==> after == disk
  {
    var records := ParseScenarioMetadataRows(flat);
    if records.Rejected? {
      return Rejected(records.reason), disk;
    }
    forall rows: seq<Row> | Pivot(multiset(flat), rows)
      ensures multiset(rows) == multiset(records.value)
    {
      PivotIsUnique(multiset(flat), rows, records.value);
    }
    r, after := ExportRows(ids, records.value, outside, disk);
  }
}
