/** The rows of the TLS charts: built by the exporter, checked and looked up by the renderer. */
module TlsRows {
  import opened Common
  import opened Workloads
  import opened Cells
  import opened ScenarioGroups
  import opened TlsComparison
  import opened TlsCells
  import opened TlsExport

  datatype ChartRow = ChartRow(pair: Pair, configuration: GroupKey, executions: seq<Execution>, completion: seq<real>)

  type RowKey = (Pair, GroupKey)

  function KeyOfRow(row: ChartRow): RowKey {
    (row.pair, row.configuration)
  }

  function RowKeys(rows: seq<ChartRow>): (keys: seq<RowKey>)
    ensures |keys| == |rows| && forall i :: 0 <= i < |rows| ==> keys[i] == KeyOfRow(rows[i])
  {
    seq(|rows|, i requires 0 <= i < |rows| => KeyOfRow(rows[i]))
  }

  // ------------------------------------------------------------- the renderer's checks

  /** Exactly the four configurations of every pair, in order, and at least one pair. */
  predicate AcceptsRows(pairs: seq<Pair>, rows: seq<ChartRow>) {
    Product(pairs, TLS_CONFIGURATIONS) != [] && RowKeys(rows) == Product(pairs, TLS_CONFIGURATIONS)
  }

  /** The completion axis is not empty and has every value of the available rows. */
  predicate AcceptsAxis(axis: set<real>, rows: seq<ChartRow>) {
    axis != {} && forall row :: row in rows && row.executions != [] ==> forall value :: value in row.completion ==>
        value in axis
  }

  /** What the renderer draws at configuration j of pair i is the row of that pair and configuration. */
  lemma DrawnRow(pairs: seq<Pair>, rows: seq<ChartRow>, i: nat, j: nat)
    requires AcceptsRows(pairs, rows) && i < |pairs| && j < 4
    ensures i * 4 + j < |rows| && rows[i * 4 + j].pair == pairs[i]
    ensures rows[i * 4 + j].configuration == TLS_CONFIGURATIONS[j]
  {
    ProductAt(pairs, TLS_CONFIGURATIONS, i, j);
    assert RowKeys(rows)[i * 4 + j] == KeyOfRow(rows[i * 4 + j]);
  }

  // ------------------------------------------------------------- one scenario

  function IsPairOf(scenario: string): Pair -> bool {
    (pair: Pair) => pair.0 == scenario
  }

  function IsKeyOf(scenario: string): RowKey -> bool {
    (key: RowKey) => key.0.0 == scenario
  }

  function IsRowOf(scenario: string): ChartRow -> bool {
    (row: ChartRow) => row.pair.0 == scenario
  }

  lemma {:induction false} KeysOfScenario(rows: seq<ChartRow>, scenario: string)
    ensures RowKeys(Filter(rows, IsRowOf(scenario))) == Filter(RowKeys(rows), IsKeyOf(scenario))
  {
    if rows == [] {
    } else {
      var init := rows[..|rows| - 1];
      KeysOfScenario(init, scenario);
      assert RowKeys(rows)[..|rows| - 1] == RowKeys(init);
    }
  }

  lemma {:induction false} ProductOfScenario(pairs: seq<Pair>, configurations: seq<GroupKey>, scenario: string)
    ensures Filter(Product(pairs, configurations), IsKeyOf(scenario)) ==
        Product(Filter(pairs, IsPairOf(scenario)), configurations)
  {
    if pairs == [] {
    } else {
      var init, last := pairs[..|pairs| - 1], pairs[|pairs| - 1];
      ProductOfScenario(init, configurations, scenario);
      FilterConcat(Product(init, configurations), Beside(last, configurations), IsKeyOf(scenario));
      FilterAllOrNone(Beside(last, configurations), IsKeyOf(scenario), last.0 == scenario);
      var kept := Filter(init, IsPairOf(scenario));
      assert (kept + [last])[..|kept|] == kept;
      assert Product(kept + [last], configurations) == Product(kept, configurations) + Beside(last, configurations);
      assert Filter(pairs, IsPairOf(scenario)) == if last.0 == scenario then kept + [last] else kept;
    }
  }

  /** Rows that pass the renderer's check pass it again scenario by scenario. */
  lemma AcceptedByScenario(pairs: seq<Pair>, rows: seq<ChartRow>, pair: Pair)
    requires AcceptsRows(pairs, rows) && pair in pairs
    ensures AcceptsRows(Filter(pairs, IsPairOf(pair.0)), Filter(rows, IsRowOf(pair.0)))
  {
    KeysOfScenario(rows, pair.0);
    ProductOfScenario(pairs, TLS_CONFIGURATIONS, pair.0);
    FilterHas(pairs, IsPairOf(pair.0), pair);
    ProductLength(Filter(pairs, IsPairOf(pair.0)), TLS_CONFIGURATIONS);
  }

  // ------------------------------------------------------------- building the rows

  /** execution_elapsed_seconds */
  function ElapsedSeconds(e: Execution, num: Number): Option<real> {
    match num(e.elapsed)
    case Some(v) => if v > 0.0 then Some(v / 1000.0) else None
    case None => None
  }

  ghost predicate Seconds(runs: seq<Execution>, num: Number, values: seq<real>) {
    |values| == |runs| && forall i :: 0 <= i < |runs| ==> ElapsedSeconds(runs[i], num) == Some(values[i])
  }

  /** The seconds of a bar are its execution's milliseconds divided by a thousand. */
  predicate InSeconds(e: Execution, num: Number, seconds: real) {
    num(e.elapsed) == Some(seconds * 1000.0) && seconds > 0.0
  }

  lemma SecondsTold(runs: seq<Execution>, num: Number, values: seq<real>)
    requires Seconds(runs, num, values)
    ensures forall i :: 0 <= i < |runs| ==> InSeconds(runs[i], num, values[i])
  {
    forall i | 0 <= i < |runs|
      ensures InSeconds(runs[i], num, values[i])
    {
      assert ElapsedSeconds(runs[i], num) == Some(values[i]);
    }
  }

  method CompletionRuns(runs: seq<Execution>, num: Number) returns (r: Result<seq<real>>)
    ensures r.Ok? <==> forall e :: e in runs ==> PositiveElapsed(e, num)
    ensures r.Ok? ==> Seconds(runs, num, r.value)
    ensures r.Ok? ==> |r.value| == |runs| && forall i :: 0 <= i < |runs| ==> InSeconds(runs[i], num, r.value[i])
  {
    var values: seq<real> := [];
    for i := 0 to |runs|
      invariant Seconds(runs[..i], num, values)
    {
      var seconds := ElapsedSeconds(runs[i], num);
      if seconds.None? {
        assert runs[i] in runs;
        return Rejected("Non-positive elapsed time");
      }
      values := values + [seconds.value];
    }
    assert runs[..|runs|] == runs;
    SecondsTold(runs, num, values);
    r := Ok(values);
  }

  /** What a row says about its pair and configuration. */
  ghost predicate RowHolds(cell: TlsCell, num: Number, row: ChartRow) {
    && RowExecutions(cell, row.pair, row.configuration, row.executions)
    && Seconds(if cell.name.family == Race then row.executions else [], num, row.completion)
  }

  lemma RunsArePositive(cell: TlsCell, num: Number, pair: Pair, c: GroupKey, runs: seq<Execution>)
    requires Exportable(cell, num) && RowExecutions(cell, pair, c, runs)
    ensures forall e :: e in runs ==> PositiveElapsed(e, num)
  {
  }

  method BuildRow(cell: TlsCell, num: Number, pair: Pair, c: GroupKey) returns (r: Result<ChartRow>)
    requires Exportable(cell, num)
    ensures r.Ok? && KeyOfRow(r.value) == (pair, c) && RowHolds(cell, num, r.value)
  {
    var runs := TlsConfigurationExecutions(cell, pair, c, num);
    RunsArePositive(cell, num, pair, c, runs.value);
    var completion := CompletionRuns(if cell.name.family == Race then runs.value else [], num);
    r := Ok(ChartRow(pair, c, runs.value, completion.value));
  }

  ghost predicate RowsHold(cell: TlsCell, num: Number, rows: seq<ChartRow>) {
    forall row {:trigger RowHolds(cell, num, row)} :: row in rows ==> RowHolds(cell, num, row)
  }

  lemma RowKeysConcat(a: seq<ChartRow>, b: seq<ChartRow>)
    ensures RowKeys(a + b) == RowKeys(a) + RowKeys(b)
  {
  }

  lemma RowsHoldNext(cell: TlsCell, num: Number, rows: seq<ChartRow>, row: ChartRow)
    requires RowsHold(cell, num, rows) && RowHolds(cell, num, row)
    ensures RowsHold(cell, num, rows + [row])
  {
  }

  lemma BesideNext(pair: Pair, configurations: seq<GroupKey>, j: nat)
    requires j < |configurations|
    ensures Beside(pair, configurations)[..j + 1] == Beside(pair, configurations)[..j] + [(pair, configurations[j])]
  {
  }

  /** The rows of one pair. */
  method BuildBlock(
    cell: TlsCell, num: Number, pair: Pair, configurations: seq<GroupKey>)
    returns (r: Result<seq<ChartRow>>)
    requires Exportable(cell, num)
    ensures r.Ok? && RowKeys(r.value) == Beside(pair, configurations) && RowsHold(cell, num, r.value)
  {
    var rows: seq<ChartRow> := [];
    ghost var keys := Beside(pair, configurations);
    for j := 0 to |configurations|
      invariant RowKeys(rows) == keys[..j] && RowsHold(cell, num, rows)
    {
      var row := BuildRow(cell, num, pair, configurations[j]);
      RowKeysConcat(rows, [row.value]);
      RowsHoldNext(cell, num, rows, row.value);
      BesideNext(pair, configurations, j);
      assert RowKeys([row.value]) == [(pair, configurations[j])];
      rows := rows + [row.value];
    }
    assert keys[..|configurations|] == keys;
    r := Ok(rows);
  }

  /** The rows of a profile: four for every pair. */
  method BuildRows(cell: TlsCell, num: Number) returns (r: Result<seq<ChartRow>>)
    requires Exportable(cell, num)
    ensures r.Ok? && RowKeys(r.value) == Product(cell.pairs, TLS_CONFIGURATIONS) && RowsHold(cell, num, r.value)
  {
    var rows: seq<ChartRow> := [];
    for i := 0 to |cell.pairs|
      invariant RowKeys(rows) == Product(cell.pairs[..i], TLS_CONFIGURATIONS) && RowsHold(cell, num, rows)
    {
      var block := BuildBlock(cell, num, cell.pairs[i], TLS_CONFIGURATIONS);
      RowKeysConcat(rows, block.value);
      assert cell.pairs[..i + 1][..i] == cell.pairs[..i];
      rows := rows + block.value;
    }
    assert cell.pairs[..|cell.pairs|] == cell.pairs;
    r := Ok(rows);
  }

  // ------------------------------------------------------------- the charts of a comparison

  /** The values of race_axis_values. */
  function AxisValues(cells: seq<TlsCell>, num: Number): set<real> {
    set cell, c, id | cell in cells && cell.name.family == Race && c in cell.configurations &&
        id in cell.configurations[c] &&
                      ElapsedSeconds(cell.configurations[c][id], num).Some? ::
      ElapsedSeconds(cell.configurations[c][id], num).value
  }

  lemma OnAxis(cells: seq<TlsCell>, num: Number, cell: TlsCell, c: GroupKey, id: SlotId)
    requires cell in cells && cell.name.family == Race && c in cell.configurations && id in cell.configurations[c]
    requires PositiveElapsed(cell.configurations[c][id], num)
    ensures ElapsedSeconds(cell.configurations[c][id], num).Some?
    ensures ElapsedSeconds(cell.configurations[c][id], num).value in AxisValues(cells, num)
  {
  }

  lemma RowOnAxis(cells: seq<TlsCell>, num: Number, cell: TlsCell, row: ChartRow, value: real)
    requires cell in cells && cell.name.family == Race && Exportable(cell, num) && RowHolds(cell, num, row)
    requires value in row.completion
    ensures value in AxisValues(cells, num)
  {
    var i :| 0 <= i < |row.completion| && row.completion[i] == value;
    assert Available(cell, row.pair, row.configuration);
    OnAxis(cells, num, cell, row.configuration, SlotId(row.pair.0, row.pair.1, i));
  }

  lemma AxisCovers(cells: seq<TlsCell>, num: Number, cell: TlsCell, rows: seq<ChartRow>)
    requires cell in cells && cell.name.family == Race && Exportable(cell, num) && RowsHold(cell, num, rows)
    ensures AcceptsAxis(AxisValues(cells, num), rows)
  {
    var c :| c in cell.configurations;
    var id :| id in cell.configurations[c];
    OnAxis(cells, num, cell, c, id);
    forall row, value | row in rows && value in row.completion
      ensures value in AxisValues(cells, num)
    {
      RowOnAxis(cells, num, cell, row, value);
    }
  }

  lemma SomePair(cell: TlsCell, num: Number)
    requires Exportable(cell, num)
    ensures cell.pairs != [] && Product(cell.pairs, TLS_CONFIGURATIONS) != []
  {
    var c :| c in cell.configurations;
    var id :| id in cell.configurations[c];
    assert (id.scenario, id.stack) in ToSet(cell.pairs);
    ProductLength(cell.pairs, TLS_CONFIGURATIONS);
  }

  /** The renderer's checks on every chart of a profile: each scenario's charts and, for a race, the completion
    chart. */
  predicate AcceptsCharts(cell: TlsCell, rows: seq<ChartRow>, axis: set<real>) {
    && (forall pair :: pair in cell.pairs ==> AcceptsRows(Filter(cell.pairs, IsPairOf(pair.0)),
        Filter(rows, IsRowOf(pair.0))))
    && (cell.name.family == Race ==> AcceptsRows(cell.pairs, rows) && AcceptsAxis(axis, rows))
  }

  /** The rows of a profile that were built without a refusal and pass the checks of the renderer. */
  ghost function Exports(cells: seq<TlsCell>, num: Number, cell: TlsCell): iset<seq<ChartRow>> {
    iset rows: seq<ChartRow> |
      && RowKeys(rows) == Product(cell.pairs, TLS_CONFIGURATIONS) && RowsHold(cell, num, rows)
      && AcceptsCharts(cell, rows, AxisValues(cells, num))
  }

  lemma ChartsAccepted(cells: seq<TlsCell>, cell: TlsCell, num: Number, rows: seq<ChartRow>)
    requires cell in cells && Exportable(cell, num)
    requires RowKeys(rows) == Product(cell.pairs, TLS_CONFIGURATIONS) && RowsHold(cell, num, rows)
    ensures AcceptsCharts(cell, rows, AxisValues(cells, num))
  {
    SomePair(cell, num);
    forall pair | pair in cell.pairs
      ensures AcceptsRows(Filter(cell.pairs, IsPairOf(pair.0)), Filter(rows, IsRowOf(pair.0)))
    {
      AcceptedByScenario(cell.pairs, rows, pair);
    }
    if cell.name.family == Race {
      AxisCovers(cells, num, cell, rows);
    }
  }

  /** The rows of a profile: built without a refusal, and none of the renderer's checks on them fails. */
  method CheckedRows(cells: seq<TlsCell>, cell: TlsCell, num: Number) returns (r: Result<seq<ChartRow>>)
    requires cell in cells && Exportable(cell, num)
    ensures r.Ok? && r.value in Exports(cells, num, cell)
  {
    var rows := BuildRows(cell, num);
    ChartsAccepted(cells, cell, num, rows.value);
    r := if AcceptsCharts(cell, rows.value, AxisValues(cells, num)) then rows
         else Rejected("TLS charts require four ordered configuration rows");
  }
}
