/** What a TLS comparison accepts and charts, in the words of the rows' columns. */
module TlsReadings {
  import opened Common
  import opened Workloads
  import opened Metadata
  import opened Placement
  import opened Cells
  import opened RowReadings
  import opened ScenarioGroups
  import opened TlsComparison
  import opened TlsBuilder
  import opened TlsCells
  import opened TlsExport
  import opened TlsRows
  import opened TlsSamples
  import opened FileNames
  import opened ChartNames
  import opened TlsCharts
  import opened TlsQuery

  // ------------------------------------------------------------- what is accepted

  /** A positive elapsed time, and counters where bytes are charted: in the flat profile of a baseline. */
  ghost predicate HasMeasurements(row: Row, num: Number) {
    && (exists elapsed :: num(row.Get(ElapsedMs)) == Some(elapsed) && elapsed > 0.0)
    && (row.key.run.family == Baseline && row.key.profile == "flat" ==> exists c :: Counts(row, num, c))
  }

  /** A run has one scenario tag, stack tag and TLS configuration. */
  predicate OneOrigin(a: Row, b: Row) {
    a.key.run == b.key.run ==>
      a.key.scenario == b.key.scenario && a.key.stack == b.key.stack &&
      a.Get(TlsVersion) == b.Get(TlsVersion) && a.Get(TlsGroup) == b.Get(TlsGroup)
  }

  /** Rows of one profile share their settings, and those of one scenario and stack their stack tag. */
  ghost predicate OneProfile(a: Row, b: Row) {
    forall scenario, stack, profile, repeat: nat, scenario', stack', repeat': nat ::
      RowReads(a, scenario, stack, profile, repeat) && RowReads(b, scenario', stack', profile, repeat') ==>
        SameSettings(a, b) && (scenario == scenario' && stack == stack' ==> a.key.stack == b.key.stack)
  }

  lemma MeasuredIsRead(row: Row, num: Number)
    requires RowOk(row)
    ensures Measured(RULES, num, row) <==> HasMeasurements(row, num)
  {
    var (profile, repeat) := ProfileOf(row);
    SettingsAre(row);
    RowIsRead(row, ScenarioOf(row), StackOf(row), profile, repeat);
    if c: Counters :| Counts(row, num, c) {
      CountersRead(row, num, c);
    }
    if CountersOf(row, num).Some? {
      CountersRead(row, num, CountersOf(row, num).value);
    }
  }

  lemma AgreeIsRead(a: Row, b: Row)
    requires RowOk(a) && RowOk(b)
    ensures Agree(RULES, a, b) <==> OneOrigin(a, b) && OneProfile(a, b)
  {
    var scenario, stack, profile, repeat := OneReading(a);
    var scenario', stack', profile', repeat' := OneReading(b);
    if a.key.run.family == b.key.run.family {
      SettingsEqual(a, b);
    }
    if profile == profile' {
      assert a.key.run.family == b.key.run.family;
      assert OneProfile(a, b) <==>
          (SameSettings(a, b) && (scenario == scenario' && stack == stack' ==> a.key.stack == b.key.stack));
    }
  }

  /** All three repeats of the row's own are supplied. */
  ghost predicate HasTwins(ids: multiset<RunId>, rows: multiset<Row>, a: Row) {
    forall scenario, stack, profile, repeat: nat, k: nat
      {:trigger RowReads(a, scenario, stack, profile, repeat), HasTwin(ids, rows, a, scenario, stack, profile, k)} ::
      RowReads(a, scenario, stack, profile, repeat) && k < 3 ==> HasTwin(ids, rows, a, scenario, stack, profile, k)
  }

  lemma TwinsOfReading(ids: multiset<RunId>, rows: multiset<Row>, a: Row)
    requires RowOk(a)
    ensures HasTwins(ids, rows, a) <==>
            forall k: nat :: k < 3 ==> HasTwin(ids, rows, a, ScenarioOf(a), StackOf(a), ProfileOf(a).0, k)
  {
    var scenario, stack, profile, repeat := OneReading(a);
    if HasTwins(ids, rows, a) {
      forall k: nat | k < 3
        ensures HasTwin(ids, rows, a, scenario, stack, profile, k)
      {
        assert RowReads(a, scenario, stack, profile, repeat);
      }
    }
  }

  lemma TwinsAreRepeats(ids: multiset<RunId>, rows: multiset<Row>, a: Row)
    requires Acceptable(RULES, ids, rows) && RowOk(a)
    ensures HasTwins(ids, rows, a) <==>
            forall k: nat :: k < 3 ==> Repeated(SlotOf(a), k) in Placed(Supplied(ids, rows), RULES.ok, RULES.slot)
  {
    TwinsOfReading(ids, rows, a);
    forall k: nat
      ensures HasTwin(ids, rows, a, ScenarioOf(a), StackOf(a), ProfileOf(a).0, k) <==>
              Repeated(SlotOf(a), k) in Placed(Supplied(ids, rows), RULES.ok, RULES.slot)
    {
      TwinIsPlaced(ids, rows, a, ScenarioOf(a), StackOf(a), k);
    }
  }

  lemma AllThereIsRead(ids: multiset<RunId>, rows: multiset<Row>)
    requires Acceptable(RULES, ids, rows)
    ensures AllThere(RULES, Supplied(ids, rows)) <==>
            forall a {:trigger HasTwins(ids, rows, a)} :: a in rows && a.key.run in ids ==> HasTwins(ids, rows, a)
  {
    var placed := Placed(Supplied(ids, rows), RULES.ok, RULES.slot);
    if AllThere(RULES, Supplied(ids, rows)) {
      forall a | a in rows && a.key.run in ids
        ensures HasTwins(ids, rows, a)
      {
        SupplyOk(RULES, ids, rows, a);
        TwinsAreRepeats(ids, rows, a);
      }
    }
    if forall a :: a in rows && a.key.run in ids ==> HasTwins(ids, rows, a) {
      forall slot | slot in placed
        ensures slot.id.repeat < 3
      {
        RepeatIsSmall(placed[slot]);
      }
      forall slot, k: nat {:trigger Repeated(slot, k)} | slot in placed && k < 3
        ensures Repeated(slot, k) in placed
      {
        TwinsAreRepeats(ids, rows, placed[slot]);
      }
    }
  }

  /** Rows that can be compared: acceptable, measured, of one origin a run and one setting a profile, and complete. */
  ghost predicate RowsComparable(ids: multiset<RunId>, rows: multiset<Row>, num: Number) {
    && RowsAcceptable(ids, rows)
    && (forall a {:trigger HasMeasurements(a, num)} :: a in rows && a.key.run in ids ==> HasMeasurements(a, num))
    && (forall a, b {:trigger OneOrigin(a, b)} :: a in rows && b in rows && a.key.run in ids && b.key.run in ids ==>
          OneOrigin(a, b) && OneProfile(a, b))
    && (forall a {:trigger HasTwins(ids, rows, a)} :: a in rows && a.key.run in ids ==> HasTwins(ids, rows, a))
  }

  lemma AllMeasuredIsRead(ids: multiset<RunId>, rows: multiset<Row>, num: Number)
    requires Acceptable(RULES, ids, rows)
    ensures AllMeasured(RULES, num, Supplied(ids, rows)) <==>
            forall a {:trigger HasMeasurements(a, num)} :: a in rows && a.key.run in ids ==> HasMeasurements(a, num)
  {
    forall a | a in rows && a.key.run in ids
      ensures a in Supplied(ids, rows) && (Measured(RULES, num, a) <==> HasMeasurements(a, num))
    {
      SupplyOk(RULES, ids, rows, a);
      MeasuredIsRead(a, num);
    }
  }

  lemma RowsAgreeIsRead(ids: multiset<RunId>, rows: multiset<Row>)
    requires Acceptable(RULES, ids, rows)
    ensures RowsAgree(RULES, Supplied(ids, rows)) <==>
            forall a, b {:trigger OneOrigin(a, b)} ::
              a in rows && b in rows && a.key.run in ids && b.key.run in ids ==> OneOrigin(a, b) && OneProfile(a, b)
  {
    forall a, b | a in rows && b in rows && a.key.run in ids && b.key.run in ids
      ensures a in Supplied(ids, rows) && b in Supplied(ids, rows)
      ensures Agree(RULES, a, b) <==> OneOrigin(a, b) && OneProfile(a, b)
    {
      SupplyOk(RULES, ids, rows, a);
      SupplyOk(RULES, ids, rows, b);
      AgreeIsRead(a, b);
    }
  }

  /** The TLS builder accepts exactly rows that can be compared. */
  lemma TlsAcceptableIsRead(ids: multiset<RunId>, rows: multiset<Row>, num: Number)
    ensures TlsAcceptable(Measuring(RULES, num), ids, rows) <==> RowsComparable(ids, rows, num)
  {
    AcceptableIsRead(ids, rows);
    if Acceptable(RULES, ids, rows) {
      AcceptableWhenMeasured(RULES, num, ids, rows);
      AllMeasuredIsRead(ids, rows, num);
      RowsAgreeIsRead(ids, rows);
      AllThereIsRead(ids, rows);
    } else {
      NotMeasured(RULES, num, ids, rows);
    }
  }

  // ------------------------------------------------------------- the bytes that are charted

  /** The column that a byte chart adds up. */
  function ByteColumn(metric: ByteMetric): FieldName {
    match metric
    case Sent => DataSent
    case Received => DataReceived
  }

  /** The number in a column. */
  function In(row: Row, field: FieldName, num: Number): real {
    match num(row.Get(field))
    case Some(v) => v
    case None => 0.0
  }

  /** `value` is the column's sum over the three rows, divided by the sum of their iterations. */
  ghost predicate ByteQuotient(num: Number, metric: ByteMetric, a: Row, b: Row, c: Row, value: real) {
    var iterations :=
      In(a, ConfiguredIterations, num) + In(b, ConfiguredIterations, num) + In(c, ConfiguredIterations, num);
    var bytes := In(a, ByteColumn(metric), num) + In(b, ByteColumn(metric), num) + In(c, ByteColumn(metric), num);
    iterations > 0.0 && value * iterations == bytes
  }

  lemma CountsAre(row: Row, num: Number, c: Counters)
    requires Counts(row, num, c)
    ensures In(row, ConfiguredIterations, num) == c.requests as real
    ensures In(row, ByteColumn(Sent), num) == c.sent as real && In(row, ByteColumn(Received), num) == c.received as real
  {
  }

  lemma QuotientOfCounts(
    num: Number, metric: ByteMetric, runs: seq<Execution>, total: Counters, value: real, a: Row, b: Row, c: Row)
    requires BytesOf(metric, runs, total, value)
    requires Counts(a, num, runs[0].counters.value) && Counts(b, num, runs[1].counters.value)
    requires Counts(c, num, runs[2].counters.value)
    ensures ByteQuotient(num, metric, a, b, c, value)
  {
    CountsAre(a, num, runs[0].counters.value);
    CountsAre(b, num, runs[1].counters.value);
    CountsAre(c, num, runs[2].counters.value);
    var iterations :=
      In(a, ConfiguredIterations, num) + In(b, ConfiguredIterations, num) + In(c, ConfiguredIterations, num);
    assert iterations == total.requests as real;
    assert value * iterations == value * total.requests as real;
  }

  /** The k-th of a chart row's executions is what one supplied row says. */
  lemma RunIsTold(
    ids: multiset<RunId>, rows: multiset<Row>, num: Number, result: seq<TlsCell>, cell: TlsCell, pair: Pair,
    c: GroupKey, runs: seq<Execution>, k: nat)
    returns (row: Row)
    requires ComparisonTold(ids, rows, num, result) && cell in result
    requires RowExecutions(cell, pair, c, runs) && runs != [] && k < 3
    ensures |runs| == 3 && row in rows && row.key.run in ids && row.key.run.family == cell.name.family
    ensures RowReads(row, pair.0, pair.1, cell.name.profile, k)
    ensures (row.Get(TlsVersion), row.Get(TlsGroup)) == (c.version, c.group)
    ensures runs[k].(counters := None) == ExecutionRead(row, pair.0, pair.1, cell.name.profile, k)
    ensures cell.name == Name(Baseline, Flat) ==>
              runs[k].counters.Some? && Counts(row, num, runs[k].counters.value)
  {
    var id := SlotId(pair.0, pair.1, k);
    assert id in cell.configurations[c];
    row :| MadeBy(ids, rows, num, cell, c, id, row);
  }

  /**
    What a byte chart shows for a (scenario, stack) and TLS configuration: the bytes of the three supplied
    flat rows of that pair and configuration, divided by their iterations.
   */
  lemma BytesAreTold(
    ids: multiset<RunId>, rows: multiset<Row>, num: Number, result: seq<TlsCell>, cell: TlsCell, pair: Pair,
    c: GroupKey, runs: seq<Execution>, metric: ByteMetric, total: Counters, value: real)
    returns (x: Row, y: Row, z: Row)
    requires ComparisonTold(ids, rows, num, result) && cell in result && cell.name == Name(Baseline, Flat)
    requires RowExecutions(cell, pair, c, runs) && BytesOf(metric, runs, total, value)
    ensures x in rows && y in rows && z in rows && x.key.run in ids && y.key.run in ids && z.key.run in ids
    ensures RowReads(x, pair.0, pair.1, Flat, 0) && RowReads(y, pair.0, pair.1, Flat, 1)
    ensures RowReads(z, pair.0, pair.1, Flat, 2)
    ensures x.Get(TlsVersion) == y.Get(TlsVersion) == z.Get(TlsVersion) == c.version
    ensures x.Get(TlsGroup) == y.Get(TlsGroup) == z.Get(TlsGroup) == c.group
    ensures ByteQuotient(num, metric, x, y, z, value)
  {
    x := RunIsTold(ids, rows, num, result, cell, pair, c, runs, 0);
    y := RunIsTold(ids, rows, num, result, cell, pair, c, runs, 1);
    z := RunIsTold(ids, rows, num, result, cell, pair, c, runs, 2);
    QuotientOfCounts(num, metric, runs, total, value, x, y, z);
  }

  // ------------------------------------------------------------- the seconds that are charted

  /** A supplied row of a race took `seconds`: its elapsed time is in milliseconds. */
  predicate Took(ids: multiset<RunId>, rows: multiset<Row>, num: Number, row: Row, seconds: real) {
    && row in rows && row.key.run in ids && row.key.run.family == Race
    && num(row.Get(ElapsedMs)) == Some(seconds * 1000.0) && seconds > 0.0
  }

  lemma ElapsedIsTold(e: Execution, num: Number, seconds: real)
    ensures ElapsedSeconds(e, num) == Some(seconds) <==>
            num(e.elapsed) == Some(seconds * 1000.0) && seconds > 0.0
  {
    if num(e.elapsed).Some? && num(e.elapsed).value > 0.0 {
      var v := num(e.elapsed).value;
      assert v / 1000.0 == seconds <==> v == seconds * 1000.0;
    }
  }

  /** The completion axis of all race profiles is made of exactly what the supplied rows of races took. */
  lemma AxisIsTold(ids: multiset<RunId>, rows: multiset<Row>, num: Number, result: seq<TlsCell>, seconds: real)
    requires ComparisonTold(ids, rows, num, result)
    ensures seconds in AxisValues(result, num) <==> exists row :: Took(ids, rows, num, row, seconds)
  {
    if seconds in AxisValues(result, num) {
      var cell, c, id :| cell in result && cell.name.family == Race && c in cell.configurations &&
        id in cell.configurations[c] && ElapsedSeconds(cell.configurations[c][id], num) == Some(seconds);
      var row :| MadeBy(ids, rows, num, cell, c, id, row);
      TookIsCharted(ids, rows, num, cell, c, id, row, seconds);
    }
    if row :| Took(ids, rows, num, row, seconds) {
      assert IsCompared(ids, rows, num, result, row);
      var cell, c, id :|
        && cell in result && c in cell.configurations && id in cell.configurations[c]
        && MadeBy(ids, rows, num, cell, c, id, row);
      TookIsCharted(ids, rows, num, cell, c, id, row, seconds);
    }
  }

  lemma TookIsCharted(
    ids: multiset<RunId>, rows: multiset<Row>, num: Number, cell: TlsCell, c: GroupKey, id: SlotId, row: Row,
    seconds: real)
    requires c in cell.configurations && id in cell.configurations[c] && MadeBy(ids, rows, num, cell, c, id, row)
    ensures Took(ids, rows, num, row, seconds) <==>
            cell.name.family == Race && ElapsedSeconds(cell.configurations[c][id], num) == Some(seconds)
  {
    var e := cell.configurations[c][id];
    assert e.(counters := None) == ExecutionRead(row, id.scenario, id.stack, cell.name.profile, id.repeat);
    ElapsedIsTold(e, num, seconds);
  }

  /** The k-th completion bar of a row shows what one supplied row took. */
  lemma BarIsTold(
    ids: multiset<RunId>, rows: multiset<Row>, num: Number, result: seq<TlsCell>, cell: TlsCell, chart: ChartRow,
    k: nat)
    returns (row: Row)
    requires ComparisonTold(ids, rows, num, result) && cell in result && cell.name.family == Race
    requires RowHolds(cell, num, chart) && chart.executions != [] && k < 3
    ensures |chart.completion| == 3 && Took(ids, rows, num, row, chart.completion[k])
    ensures RowReads(row, chart.pair.0, chart.pair.1, cell.name.profile, k)
    ensures (row.Get(TlsVersion), row.Get(TlsGroup)) == (chart.configuration.version, chart.configuration.group)
  {
    SecondsTold(chart.executions, num, chart.completion);
    row := RunIsTold(ids, rows, num, result, cell, chart.pair, chart.configuration, chart.executions, k);
    assert InSeconds(chart.executions[k], num, chart.completion[k]);
  }

  // ------------------------------------------------------------- the samples that are pooled

  /** The sample has the row's run, tags and execution index. */
  predicate Carries(s: Sample, row: Row) {
    && s.run == row.key.run && s.scenario == row.key.scenario && s.stack == row.key.stack
    && s.profile == row.key.profile && s.index == row.key.index
  }

  /** A chart row pools the samples of exactly three supplied rows, the repeats of its pair and configuration. */
  lemma SamplesAreTold(
    ids: multiset<RunId>, rows: multiset<Row>, num: Number, result: seq<TlsCell>, cell: TlsCell, pair: Pair,
    c: GroupKey, runs: seq<Execution>, s: Sample)
    returns (x: Row, y: Row, z: Row)
    requires ComparisonTold(ids, rows, num, result) && cell in result
    requires RowExecutions(cell, pair, c, runs) && runs != []
    ensures x in rows && y in rows && z in rows && x.key.run in ids && y.key.run in ids && z.key.run in ids
    ensures RowReads(x, pair.0, pair.1, cell.name.profile, 0) && RowReads(y, pair.0, pair.1, cell.name.profile, 1)
    ensures RowReads(z, pair.0, pair.1, cell.name.profile, 2)
    ensures x.Get(TlsVersion) == y.Get(TlsVersion) == z.Get(TlsVersion) == c.version
    ensures x.Get(TlsGroup) == y.Get(TlsGroup) == z.Get(TlsGroup) == c.group
    ensures Selected(runs, s) <==> Carries(s, x) || Carries(s, y) || Carries(s, z)
  {
    x := RunIsTold(ids, rows, num, result, cell, pair, c, runs, 0);
    y := RunIsTold(ids, rows, num, result, cell, pair, c, runs, 1);
    z := RunIsTold(ids, rows, num, result, cell, pair, c, runs, 2);
    SelectedOfThree(runs, s);
    SampleIsTold(runs[0], s, x, pair.0, pair.1, cell.name.profile, 0);
    SampleIsTold(runs[1], s, y, pair.0, pair.1, cell.name.profile, 1);
    SampleIsTold(runs[2], s, z, pair.0, pair.1, cell.name.profile, 2);
  }

  lemma SelectedOfThree(runs: seq<Execution>, s: Sample)
    requires |runs| == 3
    ensures Selected(runs, s) <==> IsSampleOf(runs[0], s) || IsSampleOf(runs[1], s) || IsSampleOf(runs[2], s)
  {
    assert runs[0] in runs && runs[1] in runs && runs[2] in runs;
  }

  lemma SampleIsTold(
    e: Execution, s: Sample, row: Row, scenario: string, stack: Stack, profile: Profile, repeat: nat)
    requires e.(counters := None) == ExecutionRead(row, scenario, stack, profile, repeat)
    ensures IsSampleOf(e, s) <==> Carries(s, row)
  {
  }

  // ------------------------------------------------------------- what can be exported

  /** The scenarios of comparable rows can be parts of file names exactly when all are words joined by hyphens. */
  lemma NameableIsRead(ids: multiset<RunId>, rows: multiset<Row>)
    requires RowsAcceptable(ids, rows)
    ensures Nameable(ids, rows) <==>
            forall row, scenario, stack, profile, repeat: nat
              {:trigger RowReads(row, scenario, stack, profile, repeat)} ::
              row in rows && row.key.run in ids && RowReads(row, scenario, stack, profile, repeat) ==>
                AreWords(scenario)
  {
    forall row | row in rows && row.key.run in ids
      ensures RowReads(row, ScenarioOf(row), StackOf(row), ProfileOf(row).0, ProfileOf(row).1)
      ensures ValidSlug(ScenarioOf(row)) <==> AreWords(ScenarioOf(row))
    {
      assert IsReadable(row);
      RowOkIsRead(row);
      var scenario, stack, profile, repeat := OneReading(row);
      SlugIsWords(scenario);
    }
    forall row, scenario, stack, profile, repeat: nat |
      row in rows && row.key.run in ids && RowReads(row, scenario, stack, profile, repeat)
      ensures scenario == ScenarioOf(row)
    {
      RowIsRead(row, scenario, stack, profile, repeat);
    }
  }

  // ------------------------------------------------------------- the order of a comparison

  function StackPlace(stack: Stack): nat {
    match stack
    case Dotnet => 0
    case Java => 1
    case Go => 2
    case Rust => 3
  }

  function ProfilePlace(profile: Profile): nat {
    match profile
    case Linear => 0
    case Flat => 1
    case Sine => 2
    case Fixed100 => 3
    case Expandable1000 => 4
    case Vus10 => 5
    case Vus100 => 6
    case Vus1000 => 7
  }

  /** Within a scenario, .NET comes before Java, Go and Rust. */
  predicate StacksInOrder(a: Pair, b: Pair) {
    a.0 == b.0 ==> StackPlace(a.1) < StackPlace(b.1)
  }

  lemma {:induction false} ProductInOrder(scenarios: seq<string>)
    requires Distinct(scenarios)
    ensures Pairwise(Product(scenarios, STACK_ORDER), StacksInOrder)
  {
    if scenarios == [] {
    } else {
      var init, last := scenarios[..|scenarios| - 1], scenarios[|scenarios| - 1];
      ProductInOrder(init);
      ProductElements(init, STACK_ORDER);
      var before, block := Product(init, STACK_ORDER), Beside(last, STACK_ORDER);
      assert last !in init;
      forall i | 0 <= i < |before|
        ensures before[i].0 != last
      {
        assert before[i] in before && before[i] == (before[i].0, before[i].1);
      }
      BlockInOrder(last);
    }
  }

  lemma BlockInOrder(scenario: string)
    ensures Pairwise(Beside(scenario, STACK_ORDER), StacksInOrder)
  {
    var block := Beside(scenario, STACK_ORDER);
    assert block == [(scenario, Dotnet), (scenario, Java), (scenario, Go), (scenario, Rust)];
  }

  /** Profiles by family, and within it from easy to hard; pairs of a scenario by stack. */
  lemma ComparisonInOrder(cells: CellMap, order: seq<string>, result: seq<TlsCell>)
    requires Compares(cells, order, result) && Distinct(order)
    requires forall cell :: cell in result ==> cell.name.family == FamilyOf(cell.name.profile)
    ensures forall i, j :: 0 <= i < j < |result| ==>
              ProfilePlace(result[i].name.profile) < ProfilePlace(result[j].name.profile)
    ensures forall cell :: cell in result ==> Pairwise(cell.pairs, StacksInOrder)
  {
    forall i, j | 0 <= i < j < |result|
      ensures ProfilePlace(result[i].name.profile) < ProfilePlace(result[j].name.profile)
    {
      assert TlsRank(result[i]) < TlsRank(result[j]) && result[i] in result && result[j] in result;
      RankIsPlace(result[i].name, result[j].name);
    }
    forall cell | cell in result
      ensures Pairwise(cell.pairs, StacksInOrder)
    {
      assert PairsInOrder(order, cell);
      ProductInOrder(order);
      KeepPairwise(Product(order, STACK_ORDER), PairsOf(cell.configurations), StacksInOrder);
    }
  }

  lemma RankIsPlace(a: Name, b: Name)
    requires a.family == FamilyOf(a.profile) && b.family == FamilyOf(b.profile)
    ensures ProfileRank(a) < ProfileRank(b) <==> ProfilePlace(a.profile) < ProfilePlace(b.profile)
  {
  }
}
