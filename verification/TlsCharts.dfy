/**
  export_tls_comparison as a whole: for every profile the names, the rows, the charts that have to be
  drawn, the files. What can refuse an exportable profile is exactly this: a scenario that is no part
  of a file name, a file under a chart's name that is no chart, and pooled percentiles that are missing
  or out of order for a chart to be drawn.
 */
module TlsCharts {
  import opened Common
  import opened Workloads
  import opened Cells
  import opened ScenarioGroups
  import opened TlsComparison
  import opened TlsCells
  import opened TlsExport
  import opened TlsRows
  import opened FileNames
  import opened Axes

  /** What the exporter is told: the percentiles that the database pools, which files can be kept, the scale. */
  datatype Outside = Outside(
    num: Number, pooled: (SummaryMetric, seq<Execution>) -> Option<Percentiles>, reusable: Reuse,
    logarithmic: bool, log10: real -> real)

  // ------------------------------------------------------------- one chart

  datatype Drawing =
    | Ranges(marks: seq<Percentiles>)
    | Totals(totals: seq<Counters>, values: seq<real>, axis: Axis)
    | Bars(axis: Axis)

  function IsShown(scenario: string): ChartRow -> bool {
    (row: ChartRow) => row.pair.0 == scenario && row.executions != []
  }

  /** The rows of a scenario that have executions. */
  function Shown(rows: seq<ChartRow>, scenario: string): seq<ChartRow> {
    Filter(rows, IsShown(scenario))
  }

  /** parse_pooled_percentiles, once the three values are there. */
  predicate NonNegative(p: Percentiles) {
    0.0 <= p.p50 && 0.0 <= p.p90 && 0.0 <= p.p99
  }

  /** The percentiles of some executions can be drawn: there, not negative, and in order. */
  predicate CanPool(outside: Outside, metric: SummaryMetric, executions: seq<Execution>) {
    match outside.pooled(metric, executions)
    case None => false
    case Some(p) => NonNegative(p) && p.Ordered()
  }

  predicate IsPooled(outside: Outside, metric: SummaryMetric, row: ChartRow, p: Percentiles) {
    outside.pooled(metric, row.executions) == Some(p)
  }

  method PoolRows(outside: Outside, metric: SummaryMetric, rows: seq<ChartRow>) returns (r: Result<seq<Percentiles>>)
    ensures r.Ok? ==> |r.value| == |rows| && forall i :: 0 <= i < |rows| ==>
        IsPooled(outside, metric, rows[i], r.value[i])
    ensures r.Ok? ==> forall p :: p in r.value ==> NonNegative(p)
    ensures r.Rejected? ==> exists row :: row in rows && !CanPool(outside, metric, row.executions)
  {
    var values: seq<Percentiles> := [];
    for i := 0 to |rows|
      invariant |values| == i && forall j :: 0 <= j < i ==> IsPooled(outside, metric, rows[j], values[j])
      invariant forall p :: p in values ==> NonNegative(p)
    {
      var p := outside.pooled(metric, rows[i].executions);
      if p.None? || !NonNegative(p.value) {
        assert rows[i] in rows;
        return Rejected("Missing or negative pooled percentile");
      }
      values := values + [p.value];
    }
    r := Ok(values);
  }

  method DrawRanges(outside: Outside, metric: SummaryMetric, rows: seq<ChartRow>) returns (r: Result<Drawing>)
    requires IsLog10(outside.log10)
    ensures r.Ok? <==> forall row :: row in rows ==> CanPool(outside, metric, row.executions)
    ensures r.Ok? ==> RangesShow(outside, metric, rows, r.value)
  {
    var pooled := PoolRows(outside, metric, rows);
    if pooled.Rejected? {
      return Rejected(pooled.reason);
    }
    var values := pooled.value;
    assert forall i :: 0 <= i < |rows| ==> (CanPool(outside, metric, rows[i].executions) <==> values[i].Ordered()) by {
      assert forall i :: 0 <= i < |rows| ==> IsPooled(outside, metric, rows[i], values[i]) && NonNegative(values[i]);
    }
    var marks := PercentileMarks(values, outside.logarithmic, outside.log10);
    if marks.Rejected? {
      return Rejected(marks.reason);
    }
    assert ValuesPooled(outside, metric, rows, values);
    r := Ok(Ranges(marks.value));
  }

  /** A mark for every row, where the chart's axis puts the row's own percentiles. */
  ghost predicate RangesShow(outside: Outside, metric: SummaryMetric, rows: seq<ChartRow>, drawing: Drawing) {
    && drawing.Ranges? && |drawing.marks| == |rows|
    && exists values :: ValuesPooled(outside, metric, rows, values) &&
         MarksTold(values, outside.logarithmic, outside.log10, drawing.marks) &&
         forall i :: 0 <= i < |rows| ==> Drawn(values[i], drawing.marks[i])
  }

  ghost predicate ValuesPooled(
    outside: Outside, metric: SummaryMetric, rows: seq<ChartRow>, values: seq<Percentiles>)
  {
    |values| == |rows| && forall i :: 0 <= i < |rows| ==> IsPooled(outside, metric, rows[i], values[i])
  }

  function PerRequest(metric: ByteMetric, total: Counters): (value: real)
    requires total.requests > 0
    ensures value >= 0.0
  {
    (if metric == Sent then total.sent else total.received) as real / total.requests as real
  }

  ghost predicate TotalsOf(metric: ByteMetric, rows: seq<ChartRow>, totals: seq<Counters>, values: seq<real>) {
    && |totals| == |values| == |rows|
    && (forall i :: 0 <= i < |rows| ==> PooledByteValues(rows[i].executions) == Ok(totals[i]))
    && (forall i :: 0 <= i < |rows| ==> totals[i].requests > 0 && values[i] == PerRequest(metric, totals[i]))
  }

  method PoolBytes(metric: ByteMetric, rows: seq<ChartRow>) returns (r: Result<(seq<Counters>, seq<real>)>)
    ensures r.Ok? <==> forall row :: row in rows ==> PooledByteValues(row.executions).Ok?
    ensures r.Ok? ==> TotalsOf(metric, rows, r.value.0, r.value.1)
  {
    var totals: seq<Counters>, values: seq<real> := [], [];
    for i := 0 to |rows|
      invariant TotalsOf(metric, rows[..i], totals, values)
    {
      var total := PooledByteValues(rows[i].executions);
      if total.Rejected? {
        assert rows[i] in rows;
        return Rejected(total.reason);
      }
      totals, values := totals + [total.value], values + [PerRequest(metric, total.value)];
    }
    assert rows[..|rows|] == rows;
    r := Ok((totals, values));
  }

  lemma TotalsShow(metric: ByteMetric, rows: seq<ChartRow>, totals: seq<Counters>, values: seq<real>)
    requires TotalsOf(metric, rows, totals, values)
    ensures forall i :: 0 <= i < |rows| ==> BytesOf(metric, rows[i].executions, totals[i], values[i])
  {
    forall i | 0 <= i < |rows|
      ensures BytesOf(metric, rows[i].executions, totals[i], values[i])
    {
      PooledIsTotal(rows[i].executions, totals[i]);
      QuotientTimes(metric, totals[i]);
    }
  }

  lemma QuotientTimes(metric: ByteMetric, total: Counters)
    requires total.requests > 0
    ensures PerRequest(metric, total) * total.requests as real ==
            (match metric case Sent => total.sent as real case Received => total.received as real)
  {
  }

  /** The linear axis from zero to the least multiple of the least nice step that reaches the largest value. */
  ghost predicate IsAxisOf(axis: Axis, values: set<real>) {
    && axis.Linear? && Sound(axis)
    && exists m :: m in values && (forall v :: v in values ==> v <= m) && Covers(axis.scale, m, 6)
  }

  method DrawBytes(metric: ByteMetric, rows: seq<ChartRow>, log10: real -> real) returns (r: Result<Drawing>)
    requires IsLog10(log10)
    ensures r.Ok? <==> rows != [] && forall row :: row in rows ==> PooledByteValues(row.executions).Ok?
    ensures r.Ok? ==> BytesShow(metric, rows, r.value)
  {
    var pooled := PoolBytes(metric, rows);
    if pooled.Rejected? {
      return Rejected(pooled.reason);
    }
    var (totals, values) := pooled.value;
    assert forall v :: v in values ==> v >= 0.0;
    var axis := ValueAxis(values, false, 6, false, log10);
    if axis.Rejected? {
      return Rejected(axis.reason);
    }
    TotalsShow(metric, rows, totals, values);
    r := Ok(Totals(totals, values, axis.value));
  }

  /** The bytes sent or received in all three runs, divided by the requests of all three. */
  ghost predicate BytesOf(metric: ByteMetric, runs: seq<Execution>, total: Counters, value: real) {
    && PoolsTo(runs, total)
    && value * total.requests as real ==
       (match metric case Sent => total.sent as real case Received => total.received as real)
  }

  /** Every row's totals, its bytes per request, and an axis that reaches them. */
  ghost predicate BytesShow(metric: ByteMetric, rows: seq<ChartRow>, drawing: Drawing) {
    && drawing.Totals? && IsAxisOf(drawing.axis, ToSet(drawing.values))
    && |drawing.totals| == |drawing.values| == |rows|
    && (forall i :: 0 <= i < |rows| ==> BytesOf(metric, rows[i].executions, drawing.totals[i], drawing.values[i]))
    && (forall i :: 0 <= i < |rows| ==> Placeable(drawing.axis, drawing.values[i]))
  }

  method DrawCompletion(axisValues: set<real>, log10: real -> real) returns (r: Result<Drawing>)
    requires IsLog10(log10)
    ensures r.Ok? <==> axisValues != {} && forall v :: v in axisValues ==> v >= 0.0
    ensures r.Ok? ==> r.value.Bars? && IsAxisOf(r.value.axis, axisValues)
    ensures r.Ok? ==> forall v :: v in axisValues ==> Placeable(r.value.axis, v)
  {
    var values := ListOf(axisValues);
    var axis := ValueAxis(values, false, 6, false, log10);
    r := if axis.Ok? then Ok(Bars(axis.value)) else Rejected(axis.reason);
  }

  /** The axis of all races' values, which reaches every bar. */
  ghost predicate BarsShow(axisValues: set<real>, rows: seq<ChartRow>, drawing: Drawing) {
    && drawing.Bars? && IsAxisOf(drawing.axis, axisValues)
    && forall row, v :: row in rows && v in row.completion ==> Placeable(drawing.axis, v)
  }

  /** A chart shows every row it is about. */
  ghost predicate Depicts(
    cells: seq<TlsCell>, outside: Outside, rows: seq<ChartRow>, file: ChartFile, drawing: Drawing)
  {
    match file
    case Percentiles(metric, _, scenario) => RangesShow(outside, metric, Shown(rows, scenario), drawing)
    case Bytes(metric, _, scenario) => BytesShow(metric, Shown(rows, scenario), drawing)
    case Completion(_) => BarsShow(AxisValues(cells, outside.num), rows, drawing)
  }

  // ------------------------------------------------------------- what a profile has to bring

  /** The three runs of a (scenario, stack), where they are there. */
  function PairRuns(executions: Executions, pair: Pair): seq<Execution> {
    if forall k: nat :: k < 3 ==> SlotId(pair.0, pair.1, k) in executions then ThreeRuns(executions, pair.0, pair.1)
        else []
  }

  /** What is on disk under the names of a scenario's charts can be read. */
  ghost predicate ChartsReadable(outside: Outside, disk: set<string>, name: Name, scenario: string) {
    forall file {:trigger Belongs(file, Plan(name, [scenario]))} ::
      Belongs(file, Plan(name, [scenario])) ==> Readable(disk, outside.reusable)(file)
  }

  /**
    The scenario can be part of a file name, files that are there can be read, and percentiles that
    have to be drawn can be drawn.
   */
  ghost predicate PairExports(outside: Outside, disk: set<string>, name: Name, executions: Executions, pair: Pair) {
    && ValidSlug(pair.0) && ChartsReadable(outside, disk, name, pair.0)
    && forall metric: SummaryMetric ::
         Fresh(disk, outside.reusable)(ChartFile.Percentiles(metric, name, pair.0)) ==>
           CanPool(outside, metric, PairRuns(executions, pair))
  }

  function PairOf(id: SlotId): Pair {
    (id.scenario, id.stack)
  }

  ghost predicate CellExports(outside: Outside, disk: set<string>, cell: TlsCell) {
    forall c, id {:trigger PairExports(outside, disk, cell.name, cell.configurations[c], PairOf(id))} ::
      c in cell.configurations && id in cell.configurations[c] ==>
      PairExports(outside, disk, cell.name, cell.configurations[c], PairOf(id))
  }

  lemma RunsAreThere(cell: TlsCell, num: Number, c: GroupKey, id: SlotId)
    requires Exportable(cell, num) && c in cell.configurations && id in cell.configurations[c]
    ensures Available(cell, PairOf(id), c) && PairOf(id) in cell.pairs
    ensures RowExecutions(cell, PairOf(id), c, PairRuns(cell.configurations[c], PairOf(id)))
  {
    assert Complete(cell.configurations[c]);
    forall k: nat | k < 3
      ensures SlotId(id.scenario, id.stack, k) in cell.configurations[c]
    {
      InRepeats(cell.configurations[c], id.scenario, id.stack, k);
    }
    assert PairOf(id) in ToSet(cell.pairs);
  }

  /** The row of some supplied executions. */
  lemma RowOfRuns(cell: TlsCell, num: Number, rows: seq<ChartRow>, c: GroupKey, id: SlotId) returns (row: ChartRow)
    requires Exportable(cell, num) && c in cell.configurations && id in cell.configurations[c]
    requires RowKeys(rows) == Product(cell.pairs, TLS_CONFIGURATIONS) && RowsHold(cell, num, rows)
    ensures row in Shown(rows, id.scenario) && row.executions == PairRuns(cell.configurations[c], PairOf(id))
  {
    RunsAreThere(cell, num, c, id);
    ProductElements(cell.pairs, TLS_CONFIGURATIONS);
    assert IsConfiguration(c) && (PairOf(id), c) in RowKeys(rows);
    var k :| 0 <= k < |rows| && RowKeys(rows)[k] == (PairOf(id), c);
    row := rows[k];
    assert row in rows && RowHolds(cell, num, row);
    FilterHas(rows, IsShown(id.scenario), row);
  }

  /** The executions of a row that is shown. */
  lemma RunsOfRow(cell: TlsCell, num: Number, rows: seq<ChartRow>, scenario: string, row: ChartRow) returns (id: SlotId)
    requires Exportable(cell, num) && RowsHold(cell, num, rows) && row in Shown(rows, scenario)
    ensures row in rows && RowExecutions(cell, row.pair, row.configuration, row.executions) && row.executions != []
    ensures row.configuration in cell.configurations && id in cell.configurations[row.configuration]
    ensures id.scenario == scenario
    ensures row.executions == PairRuns(cell.configurations[row.configuration], PairOf(id))
  {
    FilterHas(rows, IsShown(scenario), row);
    assert RowHolds(cell, num, row);
    id := SlotId(row.pair.0, row.pair.1, 0);
  }

  predicate CanDraw(outside: Outside, rows: seq<ChartRow>, file: ChartFile) {
    file.Percentiles? ==> forall row :: row in Shown(rows, file.scenario) ==>
        CanPool(outside, file.metric, row.executions)
  }

  /** A byte chart has rows, and all have totals. */
  lemma BytesReady(cell: TlsCell, num: Number, rows: seq<ChartRow>, scenario: string)
    requires Exportable(cell, num) && cell.name == BYTE_CHART && scenario in Scenarios(cell.pairs)
    requires RowKeys(rows) == Product(cell.pairs, TLS_CONFIGURATIONS) && RowsHold(cell, num, rows)
    ensures Shown(rows, scenario) != []
    ensures forall row :: row in Shown(rows, scenario) ==> PooledByteValues(row.executions).Ok?
  {
    var pair :| pair in cell.pairs && pair.0 == scenario;
    assert pair in ToSet(cell.pairs);
    var c, id :| c in cell.configurations && id in cell.configurations[c] && (id.scenario, id.stack) == pair;
    var first := RowOfRuns(cell, num, rows, c, id);
    forall row | row in Shown(rows, scenario)
      ensures PooledByteValues(row.executions).Ok?
    {
      var id' := RunsOfRow(cell, num, rows, scenario, row);
      RunsPool(cell, num, row.pair, row.configuration, row.executions);
    }
  }

  lemma BarsReady(cells: seq<TlsCell>, cell: TlsCell, num: Number, rows: seq<ChartRow>)
    requires cell in cells && Exportable(cell, num) && cell.name.family == Race && RowsHold(cell, num, rows)
    ensures AxisValues(cells, num) != {} && forall v :: v in AxisValues(cells, num) ==> v >= 0.0
    ensures forall row, v :: row in rows && v in row.completion ==> v in AxisValues(cells, num)
  {
    AxisCovers(cells, num, cell, rows);
    forall row, v | row in rows && v in row.completion
      ensures v in AxisValues(cells, num)
    {
      RowOnAxis(cells, num, cell, row, v);
    }
  }

  // ------------------------------------------------------------- drawing the charts of a profile

  method DrawFile(cells: seq<TlsCell>, cell: TlsCell, outside: Outside, rows: seq<ChartRow>, file: ChartFile)
    returns (r: Result<Drawing>)
    requires IsLog10(outside.log10) && cell in cells && Exportable(cell, outside.num)
    requires rows in Exports(cells, outside.num, cell) && Belongs(file, PlanOf(cell))
    ensures r.Ok? <==> CanDraw(outside, rows, file)
    ensures r.Ok? ==> Depicts(cells, outside, rows, file, r.value)
  {
    match file {
      case Percentiles(metric, _, scenario) =>
        r := DrawRanges(outside, metric, Shown(rows, scenario));
      case Bytes(metric, _, scenario) =>
        BytesReady(cell, outside.num, rows, scenario);
        r := DrawBytes(metric, Shown(rows, scenario), outside.log10);
      case Completion(_) =>
        BarsReady(cells, cell, outside.num, rows);
        r := DrawCompletion(AxisValues(cells, outside.num), outside.log10);
    }
  }

  type Contents = map<ChartFile, Drawing>

  /** Each pending chart has its drawing. */
  ghost predicate AllDrawn(
    cells: seq<TlsCell>, outside: Outside, rows: seq<ChartRow>, pending: seq<ChartFile>, contents: Contents)
  {
    && contents.Keys == ToSet(pending)
    && forall file {:trigger contents[file]} :: file in contents ==> Depicts(cells, outside, rows, file, contents[file])
  }

  lemma AllDrawnNext(
    cells: seq<TlsCell>, outside: Outside, rows: seq<ChartRow>, pending: seq<ChartFile>, i: nat, contents: Contents,
    drawing: Drawing)
    requires i < |pending| && AllDrawn(cells, outside, rows, pending[..i], contents)
    requires Depicts(cells, outside, rows, pending[i], drawing)
    ensures AllDrawn(cells, outside, rows, pending[..i + 1], contents[pending[i] := drawing])
  {
    PrefixNext(pending, i);
  }

  method DrawFiles(cells: seq<TlsCell>, cell: TlsCell, outside: Outside, rows: seq<ChartRow>, pending: seq<ChartFile>)
    returns (r: Result<Contents>)
    requires IsLog10(outside.log10) && cell in cells && Exportable(cell, outside.num)
    requires rows in Exports(cells, outside.num, cell) && forall file :: file in pending ==> Belongs(file, PlanOf(cell))
    ensures r.Ok? <==> forall file :: file in pending ==> CanDraw(outside, rows, file)
    ensures r.Ok? ==> AllDrawn(cells, outside, rows, pending, r.value)
  {
    var contents: Contents := map[];
    for i := 0 to |pending|
      invariant forall file :: file in pending[..i] ==> CanDraw(outside, rows, file)
      invariant AllDrawn(cells, outside, rows, pending[..i], contents)
    {
      assert pending[i] in pending;
      var drawing := DrawFile(cells, cell, outside, rows, pending[i]);
      if drawing.Rejected? {
        return Rejected(drawing.reason);
      }
      PrefixNext(pending, i);
      AllDrawnNext(cells, outside, rows, pending, i, contents, drawing.value);
      contents := contents[pending[i] := drawing.value];
    }
    assert pending[..|pending|] == pending;
    r := Ok(contents);
  }

  // ------------------------------------------------------------- one profile

  function Pending(outside: Outside, disk: set<string>, cell: TlsCell): seq<ChartFile> {
    Filter(FilesOf(PlanOf(cell)), Fresh(disk, outside.reusable))
  }

  lemma PendingIs(outside: Outside, disk: set<string>, cell: TlsCell, file: ChartFile)
    ensures file in Pending(outside, disk, cell) <==> Belongs(file, PlanOf(cell)) && Fresh(disk, outside.reusable)(file)
  {
    FilesExact(PlanOf(cell), file);
    FilterHas(FilesOf(PlanOf(cell)), Fresh(disk, outside.reusable), file);
  }

  lemma ScenarioSupplied(cell: TlsCell, num: Number, scenario: string) returns (c: GroupKey, id: SlotId)
    requires Exportable(cell, num) && scenario in PlanOf(cell).scenarios
    ensures c in cell.configurations && id in cell.configurations[c] && id.scenario == scenario
  {
    var pair :| pair in cell.pairs && pair.0 == scenario;
    assert pair in ToSet(cell.pairs);
    c, id :| c in cell.configurations && id in cell.configurations[c] && (id.scenario, id.stack) == pair;
  }

  lemma ExportingIsDrawable(outside: Outside, disk: set<string>, cell: TlsCell, rows: seq<ChartRow>, file: ChartFile)
    requires Exportable(cell, outside.num) && RowsHold(cell, outside.num, rows)
    requires CellExports(outside, disk, cell) && file in Pending(outside, disk, cell)
    ensures CanDraw(outside, rows, file)
  {
    PendingIs(outside, disk, cell, file);
    if file.Percentiles? {
      forall row | row in Shown(rows, file.scenario)
        ensures CanPool(outside, file.metric, row.executions)
      {
        var id := RunsOfRow(cell, outside.num, rows, file.scenario, row);
        assert PairExports(outside, disk, cell.name, cell.configurations[row.configuration], PairOf(id));
      }
    }
  }

  lemma ExportingIsValid(outside: Outside, disk: set<string>, cell: TlsCell)
    requires Exportable(cell, outside.num) && CellExports(outside, disk, cell)
    ensures ValidPlan(PlanOf(cell))
  {
    forall scenario | scenario in PlanOf(cell).scenarios
      ensures ValidSlug(scenario)
    {
      var c, id := ScenarioSupplied(cell, outside.num, scenario);
      assert PairExports(outside, disk, cell.name, cell.configurations[c], PairOf(id));
    }
  }

  /** Part of a profile's charts. */
  lemma ScenarioBelongs(cell: TlsCell, scenario: string, file: ChartFile)
    requires scenario in PlanOf(cell).scenarios && Belongs(file, Plan(cell.name, [scenario]))
    ensures Belongs(file, PlanOf(cell))
  {
  }

  /** Each chart of a profile is a chart of one of its scenarios. */
  lemma ChartSupplied(cell: TlsCell, num: Number, file: ChartFile) returns (c: GroupKey, id: SlotId)
    requires Exportable(cell, num) && Belongs(file, PlanOf(cell))
    ensures c in cell.configurations && id in cell.configurations[c]
    ensures Belongs(file, Plan(cell.name, [id.scenario]))
  {
    if file.Completion? {
      c :| c in cell.configurations;
      assert Runnable(cell.configurations[c], num);
      id :| id in cell.configurations[c];
    } else {
      c, id := ScenarioSupplied(cell, num, file.scenario);
    }
  }

  lemma ExportingIsReadable(outside: Outside, disk: set<string>, cell: TlsCell)
    requires Exportable(cell, outside.num) && CellExports(outside, disk, cell)
    ensures AllReadable(PlanOf(cell), disk, outside.reusable)
  {
    forall file | file in FilesOf(PlanOf(cell))
      ensures Readable(disk, outside.reusable)(file)
    {
      FilesExact(PlanOf(cell), file);
      var c, id := ChartSupplied(cell, outside.num, file);
      assert PairExports(outside, disk, cell.name, cell.configurations[c], PairOf(id));
    }
  }

  lemma ReadableIsExporting(outside: Outside, disk: set<string>, cell: TlsCell, scenario: string)
    requires AllReadable(PlanOf(cell), disk, outside.reusable) && scenario in PlanOf(cell).scenarios
    ensures ChartsReadable(outside, disk, cell.name, scenario)
  {
    forall file | Belongs(file, Plan(cell.name, [scenario]))
      ensures Readable(disk, outside.reusable)(file)
    {
      ScenarioBelongs(cell, scenario, file);
      FilesExact(PlanOf(cell), file);
    }
  }

  lemma DrawableIsExporting(
    outside: Outside, disk: set<string>, cell: TlsCell, rows: seq<ChartRow>, c: GroupKey, id: SlotId)
    requires Exportable(cell, outside.num) && c in cell.configurations && id in cell.configurations[c]
    requires ValidPlan(PlanOf(cell)) && AllReadable(PlanOf(cell), disk, outside.reusable)
    requires forall file :: file in Pending(outside, disk, cell) ==> CanDraw(outside, rows, file)
    requires Pending(outside, disk, cell) != [] ==>
               RowKeys(rows) == Product(cell.pairs, TLS_CONFIGURATIONS) && RowsHold(cell, outside.num, rows)
    ensures PairExports(outside, disk, cell.name, cell.configurations[c], PairOf(id))
  {
    RunsAreThere(cell, outside.num, c, id);
    assert id.scenario in PlanOf(cell).scenarios;
    ReadableIsExporting(outside, disk, cell, id.scenario);
    forall metric: SummaryMetric | Fresh(disk, outside.reusable)(ChartFile.Percentiles(metric, cell.name, id.scenario))
      ensures CanPool(outside, metric, PairRuns(cell.configurations[c], PairOf(id)))
    {
      var file := ChartFile.Percentiles(metric, cell.name, id.scenario);
      PendingIs(outside, disk, cell, file);
      var row := RowOfRuns(cell, outside.num, rows, c, id);
      assert CanDraw(outside, rows, file);
    }
  }

  /** The rows and drawings of a profile; nothing where no chart has to be drawn. */
  datatype Charts = Charts(rows: seq<ChartRow>, contents: Contents)

  /** Rows that pass the renderer's checks, and a drawing for exactly the charts that could not be kept. */
  ghost predicate Charted(cells: seq<TlsCell>, outside: Outside, disk: set<string>, cell: TlsCell, charts: Charts) {
    && AllDrawn(cells, outside, charts.rows, Pending(outside, disk, cell), charts.contents)
    && if Pending(outside, disk, cell) == [] then charts.rows == []
        else charts.rows in Exports(cells, outside.num, cell)
  }

  ghost function CellCharts(cells: seq<TlsCell>, outside: Outside, disk: set<string>, cell: TlsCell): iset<Charts> {
    iset charts: Charts | Charted(cells, outside, disk, cell, charts)
  }

  method DrawCell(
    cells: seq<TlsCell>, cell: TlsCell, outside: Outside, ghost disk: set<string>, pending: seq<ChartFile>)
    returns (r: Result<Charts>)
    requires IsLog10(outside.log10) && cell in cells && Exportable(cell, outside.num)
    requires pending == Pending(outside, disk, cell)
    requires ValidPlan(PlanOf(cell)) && AllReadable(PlanOf(cell), disk, outside.reusable)
    ensures r.Ok? <==> CellExports(outside, disk, cell)
    ensures r.Ok? ==> r.value in CellCharts(cells, outside, disk, cell)
  {
    if pending == [] {
      forall c, id | c in cell.configurations && id in cell.configurations[c] {
        DrawableIsExporting(outside, disk, cell, [], c, id);
      }
      return Ok(Charts([], map[]));
    }
    var rows := CheckedRows(cells, cell, outside.num);
    forall file | file in pending
      ensures Belongs(file, PlanOf(cell))
    {
      PendingIs(outside, disk, cell, file);
    }
    var contents := DrawFiles(cells, cell, outside, rows.value, pending);
    if contents.Rejected? {
      if CellExports(outside, disk, cell) {
        forall file | file in pending {
          ExportingIsDrawable(outside, disk, cell, rows.value, file);
        }
        assert false;
      }
      return Rejected(contents.reason);
    }
    forall c, id | c in cell.configurations && id in cell.configurations[c] {
      DrawableIsExporting(outside, disk, cell, rows.value, c, id);
    }
    r := Ok(Charts(rows.value, contents.value));
  }

  /** The names of a profile's charts as they were exported, and the charts that were drawn. */
  datatype Export<T> = Export(generated: seq<string>, charts: T)

  /** Every chart was generated once and is on disk, drawn where needed; only old names are gone. */
  ghost predicate CellExported(
    cells: seq<TlsCell>, outside: Outside, disk: set<string>, cell: TlsCell, done: Export<Charts>, after: set<string>) {
    && done.charts in CellCharts(cells, outside, disk, cell)
    && done.generated in Generates(PlanOf(cell), disk, after)
  }

  ghost function Generates(plan: Plan, disk: set<string>, after: set<string>): iset<seq<string>> {
    iset generated: seq<string> |
      && Distinct(generated) && ToSet(generated) == PlanNames(plan)
      && after == (disk + PlanNames(plan)) - PlanObsolete(plan)
  }

  method ExportCell(cells: seq<TlsCell>, cell: TlsCell, outside: Outside, disk: set<string>)
    returns (r: Result<Export<Charts>>, after: set<string>)
    requires IsLog10(outside.log10) && cell in cells && Exportable(cell, outside.num)
    ensures r.Ok? <==> CellExports(outside, disk, cell)
    ensures r.Ok? ==> CellExported(cells, outside, disk, cell, r.value, after)
    ensures r.Rejected? ==> after == disk
  {
    after := disk;
    var split := PlanCharts(PlanOf(cell), disk, outside.reusable);
    if split.Rejected? {
      if CellExports(outside, disk, cell) {
        ExportingIsValid(outside, disk, cell);
        ExportingIsReadable(outside, disk, cell);
        assert false;
      }
      return Rejected(split.reason), disk;
    }
    var charts := DrawCell(cells, cell, outside, disk, split.value.pending);
    if charts.Rejected? {
      return Rejected(charts.reason), disk;
    }
    SplitNames(PlanOf(cell), disk, outside.reusable, split.value);
    after := WriteCharts(PlanOf(cell), split.value.pending, disk);
    r := Ok(Export(NamesOf(split.value.reused + split.value.pending), charts.value));
  }

  // ------------------------------------------------------------- the whole export

  /** Exporting other profiles first changes nothing for a profile. */
  lemma ExportsUntouched(outside: Outside, disk: set<string>, cells: seq<TlsCell>, i: nat)
    requires Exportables(PlansOf(cells)) && i < |cells| && Exportable(cells[i], outside.num)
    ensures var before := Exported(disk, PlansOf(cells)[..i]);
      && (CellExports(outside, before, cells[i]) <==> CellExports(outside, disk, cells[i]))
      && Pending(outside, before, cells[i]) == Pending(outside, disk, cells[i])
  {
    var before, cell := Exported(disk, PlansOf(cells)[..i]), cells[i];
    forall file | Belongs(file, PlanOf(cell))
      ensures file in FilesOf(PlanOf(cell))
      ensures Fresh(before, outside.reusable)(file) == Fresh(disk, outside.reusable)(file)
      ensures Readable(before, outside.reusable)(file) == Readable(disk, outside.reusable)(file)
    {
      FilesExact(PlanOf(cell), file);
      FreshUntouched(PlansOf(cells), i, disk, outside.reusable, file);
    }
    forall file | file in FilesOf(PlanOf(cell))
      ensures Belongs(file, PlanOf(cell))
    {
      FilesExact(PlanOf(cell), file);
    }
    FilterSame(FilesOf(PlanOf(cell)), Fresh(before, outside.reusable), Fresh(disk, outside.reusable));
    forall c, id | c in cell.configurations && id in cell.configurations[c]
      ensures PairExports(outside, before, cell.name, cell.configurations[c], PairOf(id)) <==>
              PairExports(outside, disk, cell.name, cell.configurations[c], PairOf(id))
    {
      PairUntouched(outside, disk, before, cell, c, id);
    }
  }

  lemma PairUntouched(outside: Outside, disk: set<string>, before: set<string>, cell: TlsCell, c: GroupKey, id: SlotId)
    requires Exportable(cell, outside.num) && c in cell.configurations && id in cell.configurations[c]
    requires forall file :: Belongs(file, PlanOf(cell)) ==>
               Fresh(before, outside.reusable)(file) == Fresh(disk, outside.reusable)(file) &&
               Readable(before, outside.reusable)(file) == Readable(disk, outside.reusable)(file)
    ensures PairExports(outside, before, cell.name, cell.configurations[c], PairOf(id)) <==>
            PairExports(outside, disk, cell.name, cell.configurations[c], PairOf(id))
  {
    RunsAreThere(cell, outside.num, c, id);
    assert id.scenario in PlanOf(cell).scenarios;
    forall file | Belongs(file, Plan(cell.name, [id.scenario]))
      ensures Fresh(before, outside.reusable)(file) == Fresh(disk, outside.reusable)(file)
      ensures Readable(before, outside.reusable)(file) == Readable(disk, outside.reusable)(file)
    {
      ScenarioBelongs(cell, id.scenario, file);
    }
    assert forall metric: SummaryMetric ::
        Belongs(ChartFile.Percentiles(metric, cell.name, id.scenario), Plan(cell.name, [id.scenario]));
  }

  ghost predicate AllCharted(cells: seq<TlsCell>, outside: Outside, disk: set<string>, charts: seq<Charts>) {
    && |charts| <= |cells|
    && forall i :: 0 <= i < |charts| ==> charts[i] in CellCharts(cells, outside, disk, cells[i])
  }

  /** What stopped an export: the first profile that does not export; those before it are on disk. */
  ghost predicate StoppedAt(cells: seq<TlsCell>, outside: Outside, disk: set<string>, after: set<string>, i: nat) {
    && i < |cells| && !CellExports(outside, disk, cells[i])
    && AllExport(cells[..i], outside, disk)
    && after == Exported(disk, PlansOf(cells)[..i])
  }

  /** A refused export leaves the directory as it was exactly when the profiles before had nothing to add or remove. */
  lemma LeavesAsItWas(cells: seq<TlsCell>, outside: Outside, disk: set<string>, after: set<string>, i: nat)
    requires StoppedAt(cells, outside, disk, after, i)
    ensures var plans := PlansOf(cells)[..i];
      after == disk <==> AllNames(plans) <= disk && AllObsolete(plans) !! disk
  {
    CleanupSparesCharts(PlansOf(cells)[..i], PlansOf(cells)[..i]);
  }

  ghost predicate AllExport(cells: seq<TlsCell>, outside: Outside, disk: set<string>) {
    forall cell {:trigger CellExports(outside, disk, cell)} :: cell in cells ==> CellExports(outside, disk, cell)
  }

  lemma AllExportNext(cells: seq<TlsCell>, outside: Outside, disk: set<string>, i: nat)
    requires i < |cells| && CellExports(outside, disk, cells[i]) && AllExport(cells[..i], outside, disk)
    ensures AllExport(cells[..i + 1], outside, disk)
  {
    PrefixNext(cells, i);
  }

  lemma AllChartedNext(
    cells: seq<TlsCell>, outside: Outside, disk: set<string>, charts: seq<Charts>, before: set<string>, more: Charts)
    requires |charts| < |cells| && AllCharted(cells, outside, disk, charts)
    requires Pending(outside, before, cells[|charts|]) == Pending(outside, disk, cells[|charts|])
    requires more in CellCharts(cells, outside, before, cells[|charts|])
    ensures AllCharted(cells, outside, disk, charts + [more])
  {
    ChartedUntouched(cells, outside, disk, before, cells[|charts|]);
  }

  lemma ChartedUntouched(cells: seq<TlsCell>, outside: Outside, disk: set<string>, before: set<string>, cell: TlsCell)
    requires Pending(outside, before, cell) == Pending(outside, disk, cell)
    ensures CellCharts(cells, outside, before, cell) == CellCharts(cells, outside, disk, cell)
  {
  }

  ghost function Progressed(plans: seq<Plan>, i: nat, disk: set<string>, after: set<string>): iset<seq<string>>
    requires i <= |plans|
  {
    iset generated: seq<string> | Progress(plans, i, disk, generated, after)
  }

  lemma GeneratedNext(
    plans: seq<Plan>, i: nat, disk: set<string>, generated: seq<string>, before: set<string>, more: seq<string>,
    after: set<string>)
    requires Exportables(plans) && i < |plans| && generated in Progressed(plans, i, disk, before)
    requires more in Generates(plans[i], before, after)
    ensures generated + more in Progressed(plans, i + 1, disk, after)
  {
    ProgressNext(plans, i, disk, generated, before, more, after);
  }

  /** The first profiles are exported. */
  ghost predicate ExportedTo(
    cells: seq<TlsCell>, outside: Outside, disk: set<string>, done: Export<seq<Charts>>, after: set<string>) {
    && AllCharted(cells, outside, disk, done.charts)
    && AllExport(cells[..|done.charts|], outside, disk)
    && done.generated in Progressed(PlansOf(cells), |done.charts|, disk, after)
  }

  /** One turn of the loop. */
  method ExportNext(
    cells: seq<TlsCell>, outside: Outside, ghost disk: set<string>, done: Export<seq<Charts>>, before: set<string>)
    returns (r: Result<Export<seq<Charts>>>, after: set<string>)
    requires IsLog10(outside.log10) && Exportables(PlansOf(cells))
    requires ExportedTo(cells, outside, disk, done, before)
    requires |done.charts| < |cells| && Exportable(cells[|done.charts|], outside.num)
    ensures r.Ok? ==> ExportedTo(cells, outside, disk, r.value, after) && |r.value.charts| == |done.charts| + 1
    ensures r.Rejected? ==> StoppedAt(cells, outside, disk, after, |done.charts|)
  {
    ghost var i := |done.charts|;
    ExportsUntouched(outside, disk, cells, i);
    var exported, now := ExportCell(cells, cells[|done.charts|], outside, before);
    after := now;
    if exported.Rejected? {
      return Rejected(exported.reason), now;
    }
    AllExportNext(cells, outside, disk, i);
    AllChartedNext(cells, outside, disk, done.charts, before, exported.value.charts);
    GeneratedNext(PlansOf(cells), i, disk, done.generated, before, exported.value.generated, now);
    r := Ok(Export(done.generated + exported.value.generated, done.charts + [exported.value.charts]));
  }

  /** All charts are generated once, on disk, and drawn where they could not be kept; only old names are gone. */
  ghost predicate ExportDone(
    cells: seq<TlsCell>, outside: Outside, disk: set<string>, done: Export<seq<Charts>>, after: set<string>) {
    && |done.charts| == |cells| && AllCharted(cells, outside, disk, done.charts)
    && Distinct(done.generated) && ToSet(done.generated) == AllNames(PlansOf(cells))
    && after == Exported(disk, PlansOf(cells))
  }

  /**
    export_tls_comparison. It succeeds exactly when every profile exports. Then every chart of every
    profile is on disk, was generated exactly once, and was drawn if it could not be kept; nothing but
    old names is gone. Otherwise the profiles before the first one that is refused are exported.
   */
  method ExportTlsComparison(cells: seq<TlsCell>, outside: Outside, disk: set<string>)
    returns (r: Result<Export<seq<Charts>>>, after: set<string>)
    requires IsLog10(outside.log10) && Exportables(PlansOf(cells))
    requires forall cell :: cell in cells ==> Exportable(cell, outside.num)
    ensures r.Ok? <==> AllExport(cells, outside, disk)
    ensures r.Ok? ==> ExportDone(cells, outside, disk, r.value, after)
    ensures r.Rejected? ==> exists i: nat :: StoppedAt(cells, outside, disk, after, i)
  {
    r, after := Ok(Export([], [])), disk;
    var i := 0;
    while i < |cells| && r.Ok?
      invariant 0 <= i <= |cells|
      invariant r.Ok? ==> |r.value.charts| == i && ExportedTo(cells, outside, disk, r.value, after)
      invariant r.Rejected? ==> exists k: nat :: StoppedAt(cells, outside, disk, after, k)
    {
      r, after := ExportNext(cells, outside, disk, r.value, after);
      i := i + 1;
    }
    assert PlansOf(cells)[..|cells|] == PlansOf(cells) && cells[..|cells|] == cells;
  }
}
