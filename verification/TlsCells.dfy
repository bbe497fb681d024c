/** The cells of a TLS comparison as the exporter receives them, and the builder that returns them. */
module TlsCells {
  import opened Common
  import opened Workloads
  import opened Metadata
  import opened Cells
  import opened RowReadings
  import opened ScenarioGroups
  import opened TlsComparison
  import opened TlsBuilder

  type Pair = (string, Stack)

  /** A workload profile: its configurations, and the (scenario, stack) pairs in display order. */
  datatype TlsCell = TlsCell(
    name: Name, compatibility: Compatibility, configurations: map<GroupKey, Executions>, pairs: seq<Pair>)

  function PairsOf(configurations: map<GroupKey, Executions>): set<Pair> {
    set c, id | c in configurations && id in configurations[c] :: (id.scenario, id.stack)
  }

  function TlsCellOf(name: Name, profiled: Profiled, scenarioOrder: seq<string>): TlsCell {
    TlsCell(name, profiled.compatibility,
            map c | c in profiled.configurations && IsConfiguration(c) :: profiled.configurations[c],
            Keep(Product(scenarioOrder, STACK_ORDER), PairsOf(profiled.configurations)))
  }

  function ProfileRank(name: Name): int {
    NameRank(CellKey("", "", name.family, name.profile, []))
  }

  function TlsRank(cell: TlsCell): int {
    ProfileRank(cell.name)
  }

  // ------------------------------------------------------------- what a result says

  /** A cell holds exactly the source cells of its profile, and lists exactly their pairs. */
  ghost predicate TlsCellFits(cells: CellMap, cell: TlsCell) {
    && cell.configurations != map[]
    && (forall c {:trigger IsConfiguration(c)} :: c in cell.configurations ==> IsConfiguration(c))
    && (forall c {:trigger Holds(cells, cell, c)} :: c in cell.configurations ==> Holds(cells, cell, c))
    && (forall key :: key in cells && NameOf(key) == cell.name ==>
          key.compatibility == cell.compatibility && KeyOf(key) in cell.configurations)
    && Distinct(cell.pairs) && ToSet(cell.pairs) == PairsOf(cell.configurations)
  }

  /** Pairs are in the order of the scenarios and, within one, of the stacks. */
  ghost predicate PairsInOrder(scenarioOrder: seq<string>, cell: TlsCell) {
    cell.pairs == Keep(Product(scenarioOrder, STACK_ORDER), PairsOf(cell.configurations))
  }

  ghost predicate Holds(cells: CellMap, cell: TlsCell, c: GroupKey)
    requires c in cell.configurations
  {
    var key := SourceKey(cell.name, cell.compatibility, c);
    key in cells && cell.configurations[c] == cells[key]
  }

  /** The result shows every source cell once, profiles in their fixed order. */
  ghost predicate Compares(cells: CellMap, scenarioOrder: seq<string>, result: seq<TlsCell>) {
    && Ranked(result, TlsRank)
    && (forall cell {:trigger TlsCellFits(cells, cell)} :: cell in result ==> TlsCellFits(cells, cell))
    && (forall cell {:trigger PairsInOrder(scenarioOrder, cell)} :: cell in result ==>
        PairsInOrder(scenarioOrder, cell))
    && (forall key {:trigger HasName(result, NameOf(key))} :: key in cells ==> HasName(result, NameOf(key)))
  }

  ghost predicate HasName(result: seq<TlsCell>, name: Name) {
    exists cell :: cell in result && cell.name == name
  }

  ghost predicate ScenarioList(cells: CellMap, scenarioOrder: seq<string>) {
    Distinct(scenarioOrder) && ToSet(scenarioOrder) == ScenariosIn(cells)
  }

  ghost predicate Supported(cells: CellMap) {
    forall key {:trigger IsConfiguration(KeyOf(key))} :: key in cells ==> IsConfiguration(KeyOf(key))
  }

  // ------------------------------------------------------------- arranging profiles

  lemma KeptConfigurations(
    profiles: Profiles, keys: seq<CellKey>, cells: CellMap, name: Name, scenarioOrder: seq<string>)
    requires ProfilesHold(profiles, keys, cells) && name in profiles && Supported(cells)
    requires forall k :: k in keys ==> k in cells
    ensures TlsCellOf(name, profiles[name], scenarioOrder).configurations == profiles[name].configurations
  {
    assert ProfileIs(profiles[name], name, keys);
    forall c | c in profiles[name].configurations
      ensures IsConfiguration(c)
    {
      var key := SourceKey(name, profiles[name].compatibility, c);
      assert key in keys && KeyOf(key) == c && IsConfiguration(KeyOf(key));
    }
  }

  lemma SourceHeld(profiles: Profiles, keys: seq<CellKey>, cells: CellMap, name: Name, c: GroupKey)
    requires ProfilesHold(profiles, keys, cells) && name in profiles && c in profiles[name].configurations
    ensures var key := SourceKey(name, profiles[name].compatibility, c);
      key in cells && profiles[name].configurations[c] == cells[key]
  {
    assert ProfileIs(profiles[name], name, keys);
    var key := SourceKey(name, profiles[name].compatibility, c);
    assert key in keys && KeyOf(key) == c && NameOf(key) == name;
    assert ProfileHas(profiles, key, cells[key]);
  }

  lemma PairSupplied(
    profiles: Profiles, keys: seq<CellKey>, cells: CellMap, name: Name, scenarioOrder: seq<string>, pair: Pair)
    requires ProfilesHold(profiles, keys, cells) && name in profiles && ScenarioList(cells, scenarioOrder)
    requires pair in PairsOf(profiles[name].configurations)
    ensures pair.0 in scenarioOrder
  {
    var c, id :| c in profiles[name].configurations && id in profiles[name].configurations[c] &&
        (id.scenario, id.stack) == pair;
    SourceHeld(profiles, keys, cells, name, c);
    assert pair.0 in ToSet(scenarioOrder);
  }

  lemma PairsKept(scenarioOrder: seq<string>, pairs: set<Pair>)
    requires Distinct(scenarioOrder) && forall pair :: pair in pairs ==> pair.0 in scenarioOrder
    ensures var listed := Keep(Product(scenarioOrder, STACK_ORDER), pairs);
      Distinct(listed) && ToSet(listed) == pairs
  {
    var product := Product(scenarioOrder, STACK_ORDER);
    ProductElements(scenarioOrder, STACK_ORDER);
    KeepElements(product, pairs);
    forall pair: Pair
      ensures pair in Keep(product, pairs) <==> pair in pairs
    {
      EveryStackIsOrdered(pair.1);
      assert pair in product <==> (pair.0, pair.1) in product;
    }
  }

  lemma PairsListed(profiles: Profiles, keys: seq<CellKey>, cells: CellMap, name: Name, scenarioOrder: seq<string>)
    requires ProfilesHold(profiles, keys, cells) && name in profiles && ScenarioList(cells, scenarioOrder)
    ensures var pairs := PairsOf(profiles[name].configurations);
      var listed := Keep(Product(scenarioOrder, STACK_ORDER), pairs);
      Distinct(listed) && ToSet(listed) == pairs
  {
    forall pair | pair in PairsOf(profiles[name].configurations)
      ensures pair.0 in scenarioOrder
    {
      PairSupplied(profiles, keys, cells, name, scenarioOrder, pair);
    }
    PairsKept(scenarioOrder, PairsOf(profiles[name].configurations));
  }

  lemma ArrangedFits(profiles: Profiles, keys: seq<CellKey>, cells: CellMap, name: Name, scenarioOrder: seq<string>)
    requires ProfilesHold(profiles, keys, cells) && name in profiles && ScenarioList(cells, scenarioOrder)
    requires Supported(cells) && forall k :: k in keys <==> k in cells
    ensures TlsCellFits(cells, TlsCellOf(name, profiles[name], scenarioOrder))
    ensures PairsInOrder(scenarioOrder, TlsCellOf(name, profiles[name], scenarioOrder))
  {
    var cell := TlsCellOf(name, profiles[name], scenarioOrder);
    KeptConfigurations(profiles, keys, cells, name, scenarioOrder);
    PairsListed(profiles, keys, cells, name, scenarioOrder);
    assert ProfileIs(profiles[name], name, keys);
    forall c | c in cell.configurations
      ensures IsConfiguration(c) && Holds(cells, cell, c)
    {
      SourceHeld(profiles, keys, cells, name, c);
    }
    forall key | key in cells && NameOf(key) == name
      ensures key.compatibility == cell.compatibility && KeyOf(key) in cell.configurations
    {
      assert ProfileHas(profiles, key, cells[key]);
    }
  }

  function CellsAt(names: seq<Name>, profiles: Profiles, scenarioOrder: seq<string>): (result: seq<TlsCell>)
    requires forall name :: name in names ==> name in profiles
    ensures |result| == |names|
    ensures forall i :: 0 <= i < |names| ==> result[i] == TlsCellOf(names[i], profiles[names[i]], scenarioOrder)
  {
    seq(|names|, i requires 0 <= i < |names| => TlsCellOf(names[i], profiles[names[i]], scenarioOrder))
  }

  lemma SortedNames(names: seq<Name>, sorted: seq<Name>)
    requires Distinct(names) && multiset(sorted) == multiset(names) && SortedBy(sorted, ProfileRank)
    ensures Ranked(sorted, ProfileRank) && forall name :: name in sorted <==> name in names
  {
    DistinctIffNoRepeats(names);
    DistinctIffNoRepeats(sorted);
    assert forall name :: name in sorted <==> name in multiset(sorted);
    assert forall name :: name in names <==> name in multiset(names);
    forall i, j | 0 <= i < j < |sorted|
      ensures ProfileRank(sorted[i]) < ProfileRank(sorted[j])
    {
      var a, b := sorted[i], sorted[j];
      RankIsName(CellKey("", "", a.family, a.profile, []), CellKey("", "", b.family, b.profile, []));
    }
  }

  /** Sorting the profiles, listing their pairs and ordering their configurations. */
  method ArrangeCells(
    m: Merge, scenarioOrder: seq<string>, ghost keys: seq<CellKey>, ghost cells: CellMap)
    returns (result: seq<TlsCell>)
    requires ProfilesHold(m.profiles, keys, cells) && Listed(m.profiles, m.order)
    requires ScenarioList(cells, scenarioOrder) && Supported(cells) && forall k :: k in keys <==> k in cells
    ensures Compares(cells, scenarioOrder, result)
  {
    var names := SortBy(m.order, ProfileRank);
    SortedNames(m.order, names);
    assert forall name :: name in m.order <==> name in ToSet(m.order);
    result := CellsAt(names, m.profiles, scenarioOrder);
    forall cell | cell in result
      ensures TlsCellFits(cells, cell) && PairsInOrder(scenarioOrder, cell)
    {
      var i :| 0 <= i < |result| && result[i] == cell;
      ArrangedFits(m.profiles, keys, cells, names[i], scenarioOrder);
    }
    forall key | key in cells
      ensures HasName(result, NameOf(key))
    {
      assert ProfileHas(m.profiles, key, cells[key]);
      var i :| 0 <= i < |names| && names[i] == NameOf(key);
      assert result[i] in result;
    }
  }

  // ------------------------------------------------------------- the builder

  lemma RulesSupport(rules: Rules, ids: multiset<RunId>, rows: multiset<Row>)
    requires Supporting(rules) && Acceptable(rules, ids, rows)
    ensures Supported(CellsFrom(rules, ids, rows))
  {
    forall key | key in CellsFrom(rules, ids, rows)
      ensures IsConfiguration(KeyOf(key))
    {
      var row := CellHasRow(rules, ids, rows, key);
      SupplyOk(rules, ids, rows, row);
      assert rules.slot(row).cell == key;
    }
  }

  lemma FilledScenarios(records: RowIndex, num: Number, cells: CellMap)
    ensures Filled(records, num, cells).Keys == cells.Keys
    ensures ScenariosIn(Filled(records, num, cells)) == ScenariosIn(cells)
  {
    var filled := Filled(records, num, cells);
    forall scenario
      ensures scenario in ScenariosIn(filled) <==> scenario in ScenariosIn(cells)
    {
      if key, id: SlotId :| key in cells && id in cells[key] && id.scenario == scenario {
        assert id in filled[key];
      }
      if key, id: SlotId :| key in filled && id in filled[key] && id.scenario == scenario {
        assert id in cells[key];
      }
    }
  }

  /** Arranged in some order of the scenarios. */
  ghost predicate ComparedIn(cells: CellMap, result: seq<TlsCell>) {
    exists order: seq<string> :: ScenarioList(cells, order) && Compares(cells, order, result)
  }

  method BuildComparison(rules: Rules, ids: seq<RunId>, rows: seq<Row>, num: Number) returns (r: Result<seq<TlsCell>>)
    requires Lawful(rules) && Supporting(rules)
    ensures r.Ok? <==> TlsAcceptable(Measuring(rules, num), multiset(ids), multiset(rows))
    ensures r.Ok? ==> ComparedIn(CellsFrom(Measuring(rules, num), multiset(ids), multiset(rows)), r.value)
  {
    var summary := BuildCells(rules, ids, rows);
    if summary.Rejected? {
      NotMeasured(rules, num, multiset(ids), multiset(rows));
      return Rejected(summary.reason);
    }
    var records := IndexRows(rows);
    BuiltCells(rules, multiset(ids), multiset(rows), summary.value);
    assert forall key :: key in summary.value.order <==> key in ToSet(summary.value.order);
    var merged := MergeCells(summary.value.cells, summary.value.order, records, num);
    ComparableMeansAcceptable(rules, num, multiset(ids), rows, records);
    assert merged.Rejected? ==> !Comparable(summary.value.cells, records, num);
    if merged.Rejected? {
      return Rejected(merged.reason);
    }
    AllMerged(summary.value.cells, records, num, summary.value.order, merged.value);
    AcceptableWhenMeasured(rules, num, multiset(ids), multiset(rows));
    FilledAreMeasured(rules, num, multiset(ids), rows, records);
    FilledScenarios(records, num, summary.value.cells);
    RulesSupport(rules, multiset(ids), multiset(rows));
    var result := ArrangeCells(merged.value, summary.value.scenarioOrder, summary.value.order,
        Filled(records, num, summary.value.cells));
    r := Ok(result);
  }

  lemma NotMeasured(rules: Rules, num: Number, ids: multiset<RunId>, rows: multiset<Row>)
    requires !Acceptable(rules, ids, rows)
    ensures !Acceptable(Measuring(rules, num), ids, rows)
  {
    MeasuringConsistent(rules, num, Supplied(ids, rows));
  }

  // ------------------------------------------------------------- the comparison and its rows

  /** The row's execution, with its own counters where bytes are charted: in Baseline Flat only. */
  ghost predicate ExecutionTold(
    row: Row, num: Number, e: Execution, scenario: string, stack: Stack, profile: Profile, repeat: nat)
  {
    && RowReads(row, scenario, stack, profile, repeat)
    && (exists elapsed :: num(row.Get(ElapsedMs)) == Some(elapsed) && elapsed > 0.0)
    && e.(counters := None) == ExecutionRead(row, scenario, stack, profile, repeat)
    && if row.key.run.family == Baseline && profile == Flat then e.counters.Some? && Counts(row, num, e.counters.value)
       else e.counters.None?
  }

  /** The execution at `id` of configuration `c` was made by a supplied row, and is what that row says. */
  ghost predicate MadeBy(
    ids: multiset<RunId>, rows: multiset<Row>, num: Number, cell: TlsCell, c: GroupKey, id: SlotId, row: Row)
    requires c in cell.configurations && id in cell.configurations[c]
  {
    && row in rows && row.key.run in ids
    && cell.name.family == row.key.run.family && cell.compatibility == SettingsOf(row)
    && c.version == row.Get(TlsVersion) && c.group == row.Get(TlsGroup)
    && ExecutionTold(row, num, cell.configurations[c][id], id.scenario, id.stack, cell.name.profile, id.repeat)
  }

  ghost predicate ComparisonTold(ids: multiset<RunId>, rows: multiset<Row>, num: Number, result: seq<TlsCell>) {
    && (forall cell, c, id {:trigger id in cell.configurations[c], cell in result} ::
          cell in result && c in cell.configurations && id in cell.configurations[c] ==>
            exists row :: MadeBy(ids, rows, num, cell, c, id, row))
    && (forall row {:trigger IsCompared(ids, rows, num, result, row)} ::
          row in rows && row.key.run in ids ==> IsCompared(ids, rows, num, result, row))
  }

  /** The row made an execution of the comparison. */
  ghost predicate IsCompared(ids: multiset<RunId>, rows: multiset<Row>, num: Number, result: seq<TlsCell>, row: Row) {
    exists cell, c, id ::
      && cell in result && c in cell.configurations && id in cell.configurations[c]
      && MadeBy(ids, rows, num, cell, c, id, row)
  }

  lemma MeasuredIsTold(row: Row, num: Number, scenario: string, stack: Stack, profile: Profile, repeat: nat)
    requires RowReads(row, scenario, stack, profile, repeat) && Measured(RULES, num, row)
    ensures ExecutionTold(row, num, WithCounters(RULES, num, row), scenario, stack, profile, repeat)
  {
    RowIsRead(row, scenario, stack, profile, repeat);
    if row.key.run.family == Baseline && profile == Flat {
      CountersRead(row, num, CountersOf(row, num).value);
    }
  }

  lemma SlotIsMade(
    ids: multiset<RunId>, rows: multiset<Row>, num: Number, cells: CellMap, cell: TlsCell, c: GroupKey, id: SlotId)
    returns (row: Row)
    requires Acceptable(Measuring(RULES, num), ids, rows) && cells == CellsFrom(Measuring(RULES, num), ids, rows)
    requires TlsCellFits(cells, cell) && c in cell.configurations && id in cell.configurations[c]
    ensures MadeBy(ids, rows, num, cell, c, id, row)
  {
    assert Holds(cells, cell, c);
    var slot := Slot(SourceKey(cell.name, cell.compatibility, c), id);
    row := PlaceHasRow(Measuring(RULES, num), ids, rows, slot);
    assert Measuring(RULES, num).ok(row) && SlotOf(row) == slot;
    SettingsAre(row);
    RowIsRead(row, id.scenario, id.stack, cell.name.profile, id.repeat);
    MeasuredIsTold(row, num, id.scenario, id.stack, cell.name.profile, id.repeat);
  }

  lemma RowIsCompared(
    ids: multiset<RunId>, rows: multiset<Row>, num: Number, cells: CellMap, order: seq<string>, result: seq<TlsCell>,
    row: Row)
    requires Acceptable(Measuring(RULES, num), ids, rows) && cells == CellsFrom(Measuring(RULES, num), ids, rows)
    requires Compares(cells, order, result) && row in rows && row.key.run in ids
    ensures IsCompared(ids, rows, num, result, row)
  {
    RowOccupies(Measuring(RULES, num), ids, rows, row);
    SupplyOk(Measuring(RULES, num), ids, rows, row);
    var slot := SlotOf(row);
    assert HasName(result, NameOf(slot.cell));
    var cell :| cell in result && cell.name == NameOf(slot.cell);
    assert TlsCellFits(cells, cell) && Holds(cells, cell, KeyOf(slot.cell));
    assert SourceKey(cell.name, cell.compatibility, KeyOf(slot.cell)) == slot.cell;
    SettingsAre(row);
    RowIsRead(row, slot.id.scenario, slot.id.stack, cell.name.profile, slot.id.repeat);
    MeasuredIsTold(row, num, slot.id.scenario, slot.id.stack, cell.name.profile, slot.id.repeat);
    assert MadeBy(ids, rows, num, cell, KeyOf(slot.cell), slot.id, row);
  }

  /** The executions of a comparison are exactly those that the supplied rows tell of. */
  lemma ComparisonIsTold(ids: multiset<RunId>, rows: multiset<Row>, num: Number, result: seq<TlsCell>)
    requires Acceptable(Measuring(RULES, num), ids, rows)
    requires ComparedIn(CellsFrom(Measuring(RULES, num), ids, rows), result)
    ensures ComparisonTold(ids, rows, num, result)
  {
    var cells := CellsFrom(Measuring(RULES, num), ids, rows);
    var order: seq<string> :| ScenarioList(cells, order) && Compares(cells, order, result);
    forall cell, c, id | cell in result && c in cell.configurations && id in cell.configurations[c]
      ensures exists row :: MadeBy(ids, rows, num, cell, c, id, row)
    {
      assert TlsCellFits(cells, cell);
      var row := SlotIsMade(ids, rows, num, cells, cell, c, id);
    }
    forall row | row in rows && row.key.run in ids
      ensures IsCompared(ids, rows, num, result, row)
    {
      RowIsCompared(ids, rows, num, cells, order, result, row);
    }
  }

  /**
    build_tls_comparison. Accepts exactly the acceptable inputs: run ids and rows as multisets, so in
    any order. The executions of the result carry the counters of the rows that made them.
   */
  method BuildTlsComparison(ids: seq<RunId>, rows: seq<Row>, num: Number) returns (r: Result<seq<TlsCell>>)
    ensures r.Ok? <==> TlsAcceptable(Measuring(RULES, num), multiset(ids), multiset(rows))
    ensures r.Ok? ==> ComparedIn(CellsFrom(Measuring(RULES, num), multiset(ids), multiset(rows)), r.value)
    ensures r.Ok? ==> ComparisonTold(multiset(ids), multiset(rows), num, r.value)
  {
    RulesAreLawful();
    RulesAreSupporting();
    r := BuildComparison(RULES, ids, rows, num);
    if r.Ok? {
      ComparisonIsTold(multiset(ids), multiset(rows), num, r.value);
    }
  }

  // ------------------------------------------------------------- the cells determine the result

  /** Equal but for the order of the pairs. */
  ghost predicate SameTlsCell(a: TlsCell, b: TlsCell) {
    a.name == b.name && a.compatibility == b.compatibility && a.configurations == b.configurations &&
        ToSet(a.pairs) == ToSet(b.pairs)
  }

  lemma ConfigurationShown(cells: CellMap, a: TlsCell, b: TlsCell, c: GroupKey)
    requires TlsCellFits(cells, a) && TlsCellFits(cells, b) && a.name == b.name && c in a.configurations
    ensures a.compatibility == b.compatibility && c in b.configurations && a.configurations[c] == b.configurations[c]
  {
    assert Holds(cells, a, c);
    var key := SourceKey(a.name, a.compatibility, c);
    assert NameOf(key) == b.name && KeyOf(key) == c;
    assert Holds(cells, b, c);
  }

  lemma SameNameSameTlsCell(cells: CellMap, a: TlsCell, b: TlsCell)
    requires TlsCellFits(cells, a) && TlsCellFits(cells, b) && a.name == b.name
    ensures SameTlsCell(a, b)
  {
    var c :| c in a.configurations;
    ConfigurationShown(cells, a, b, c);
    forall c | c in a.configurations
      ensures c in b.configurations && a.configurations[c] == b.configurations[c]
    {
      ConfigurationShown(cells, a, b, c);
    }
    forall c | c in b.configurations
      ensures c in a.configurations
    {
      ConfigurationShown(cells, b, a, c);
    }
  }

  function NamesIn(result: seq<TlsCell>): (names: seq<Name>)
    ensures |names| == |result| && forall i :: 0 <= i < |result| ==> names[i] == result[i].name
  {
    seq(|result|, i requires 0 <= i < |result| => result[i].name)
  }

  lemma NameShown(cells: CellMap, order: seq<string>, result: seq<TlsCell>, name: Name)
    requires Compares(cells, order, result)
    ensures name in NamesIn(result) <==> exists key :: key in cells && NameOf(key) == name
  {
    if name in NamesIn(result) {
      var i :| 0 <= i < |result| && NamesIn(result)[i] == name;
      assert TlsCellFits(cells, result[i]);
      var c :| c in result[i].configurations;
      assert Holds(cells, result[i], c);
      assert NameOf(SourceKey(name, result[i].compatibility, c)) == name;
    }
    if key :| key in cells && NameOf(key) == name {
      assert HasName(result, NameOf(key));
      var cell :| cell in result && cell.name == name;
      var i :| 0 <= i < |result| && result[i] == cell;
      assert NamesIn(result)[i] == name;
    }
  }

  lemma NamesRanked(result: seq<TlsCell>)
    requires Ranked(result, TlsRank)
    ensures Ranked(NamesIn(result), ProfileRank) && Distinct(NamesIn(result))
  {
    forall i, j | 0 <= i < j < |result|
      ensures ProfileRank(NamesIn(result)[i]) < ProfileRank(NamesIn(result)[j])
    {
      assert TlsRank(result[i]) < TlsRank(result[j]);
    }
  }

  lemma SameNames(cells: CellMap, a: seq<TlsCell>, orderA: seq<string>, b: seq<TlsCell>, orderB: seq<string>)
    requires Compares(cells, orderA, a) && Compares(cells, orderB, b)
    ensures NamesIn(a) == NamesIn(b)
  {
    forall name
      ensures name in NamesIn(a) <==> name in NamesIn(b)
    {
      NameShown(cells, orderA, a, name);
      NameShown(cells, orderB, b, name);
    }
    NamesRanked(a);
    NamesRanked(b);
    assert ToSet(NamesIn(a)) == ToSet(NamesIn(b));
    DistinctIffFullSet(NamesIn(a));
    DistinctIffFullSet(NamesIn(b));
    RankedListUnique(NamesIn(a), NamesIn(b), ProfileRank);
  }

  /** The cells determine the comparison: two results differ only in the order of pairs. */
  lemma ComparisonDetermined(cells: CellMap, a: seq<TlsCell>, orderA: seq<string>, b: seq<TlsCell>, orderB: seq<string>)
    requires Compares(cells, orderA, a) && Compares(cells, orderB, b)
    ensures |a| == |b| && forall i :: 0 <= i < |a| ==> SameTlsCell(a[i], b[i])
  {
    SameNames(cells, a, orderA, b, orderB);
    assert |NamesIn(a)| == |NamesIn(b)|;
    forall i | 0 <= i < |a|
      ensures SameTlsCell(a[i], b[i])
    {
      assert NamesIn(a)[i] == NamesIn(b)[i];
      assert TlsCellFits(cells, a[i]) && TlsCellFits(cells, b[i]);
      SameNameSameTlsCell(cells, a[i], b[i]);
    }
  }
}
