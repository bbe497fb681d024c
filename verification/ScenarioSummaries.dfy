/** The groups of one scenario summary, and what holds of every summary that is accepted. */
module ScenarioSummaries {
  import opened Common
  import opened Workloads
  import opened Metadata
  import opened Placement
  import opened Cells
  import opened RowReadings
  import opened ScenarioGroups

  // ------------------------------------------------------------- collecting and finishing groups

  /** The dict of groups with its insertion order. */
  datatype Collection = Collection(groups: map<GroupKey, Group>, order: seq<GroupKey>)

  /** The group of `g` after the first `i` cells; there is none as long as it would be empty. */
  ghost predicate GroupAt(summary: Summary, i: nat, c: Collection, g: GroupKey)
    requires i <= |summary.order| && forall k :: k in summary.order ==> k in summary.cells
  {
    var keys := InGroup(summary.order[..i], g);
    && (g in c.groups <==> keys != []) && (g in c.order <==> g in c.groups)
    && (g in c.groups ==> c.groups[g] == GroupOf(summary, g, keys))
  }

  /** The first `i` cells are rectangular and stand in their groups. */
  ghost predicate Collected(summary: Summary, i: nat, c: Collection) {
    && Ordered(summary) && i <= |summary.order|
    && (forall k :: k in summary.order <==> k in summary.cells)
    && (forall k {:trigger Rectangular(summary.cells[k])} :: k in summary.order[..i] ==> Rectangular(summary.cells[k]))
    && Distinct(c.order) && forall g :: GroupAt(summary, i, c, g)
  }

  ghost function Collections(summary: Summary, i: nat): iset<Collection> {
    iset c: Collection | Collected(summary, i, c)
  }

  lemma OrderIsKeys(summary: Summary)
    requires Ordered(summary)
    ensures forall k :: k in summary.order <==> k in summary.cells
  {
    assert forall k :: k in summary.order <==> k in ToSet(summary.order);
  }

  lemma InGroupNext(keys: seq<CellKey>, i: nat, g: GroupKey)
    requires i < |keys|
    ensures InGroup(keys[..i + 1], g) == if KeyOf(keys[i]) == g then InGroup(keys[..i], g) + [keys[i]]
        else InGroup(keys[..i], g)
  {
    assert keys[..i + 1][..i] == keys[..i];
  }

  function EmptyGroup(key: GroupKey): Group {
    Group(key, [], [], {})
  }

  lemma GroupNext(summary: Summary, i: nat, g: GroupKey)
    requires i < |summary.order| && KeyOf(summary.order[i]) == g
    requires forall k :: k in summary.order ==> k in summary.cells
    ensures GroupOf(summary, g, InGroup(summary.order[..i + 1], g)) ==
            AddCell(GroupOf(summary, g, InGroup(summary.order[..i], g)), CellOf(summary, summary.order[i]))
  {
    InGroupNext(summary.order, i, g);
    var keys := InGroup(summary.order[..i], g);
    assert (keys + [summary.order[i]])[..|keys|] == keys;
  }

  function Add(c: Collection, cell: GroupCell): Collection {
    var g := KeyOf(cell.key);
    Collection(c.groups[g := AddCell(if g in c.groups then c.groups[g] else EmptyGroup(g), cell)],
        AppendNew(c.order, g))
  }

  lemma AddedGroup(summary: Summary, i: nat, c: Collection, g: GroupKey)
    requires i < |summary.order| && forall k :: k in summary.order ==> k in summary.cells
    requires summary.order[i] in summary.cells && GroupAt(summary, i, c, g)
    ensures GroupAt(summary, i + 1, Add(c, CellOf(summary, summary.order[i])), g)
  {
    var key := summary.order[i];
    var added := Add(c, CellOf(summary, key));
    InGroupNext(summary.order, i, g);
    if KeyOf(key) == g {
      GroupNext(summary, i, g);
      assert added.groups[g] == GroupOf(summary, g, InGroup(summary.order[..i + 1], g));
      assert g in added.order;
    } else {
      assert g in added.groups <==> g in c.groups;
      assert g in added.order <==> g in c.order;
    }
  }

  lemma AddKeepsCollected(summary: Summary, i: nat, c: Collection)
    requires i < |summary.order| && c in Collections(summary, i) && summary.order[i] in summary.cells
    requires Rectangular(summary.cells[summary.order[i]])
    ensures Add(c, CellOf(summary, summary.order[i])) in Collections(summary, i + 1)
  {
    PrefixNext(summary.order, i);
    var added, next := Add(c, CellOf(summary, summary.order[i])), i + 1;
    forall g: GroupKey
      ensures GroupAt(summary, next, added, g)
    {
      AddedGroup(summary, i, c, g);
    }
  }

  method CollectCell(summary: Summary, i: nat, c: Collection) returns (r: Result<Collection>)
    requires i < |summary.order| && Ordered(summary) && c in Collections(summary, i)
    ensures r.Ok? ==> r.value in Collections(summary, i + 1)
    ensures r.Rejected? ==> !Groupable(summary.cells)
  {
    OrderIsKeys(summary);
    var key := summary.order[i];
    assert key in summary.cells;
    ScenarioLists(summary, key);
    var cell := CellOf(summary, key);
    var stacks := CheckCell(cell.executions, cell.scenarios);
    if stacks.Rejected? {
      return Rejected(stacks.reason);
    }
    AddKeepsCollected(summary, i, c);
    r := Ok(Add(c, cell.(stacks := stacks.value)));
  }

  method CollectGroups(summary: Summary) returns (r: Result<Collection>)
    requires Ordered(summary)
    ensures r.Ok? ==> r.value in Collections(summary, |summary.order|)
    ensures r.Rejected? ==> !Groupable(summary.cells)
  {
    OrderIsKeys(summary);
    r := Ok(Collection(map[], []));
    var i := 0;
    while i < |summary.order| && r.Ok?
      invariant 0 <= i <= |summary.order|
      invariant r.Ok? ==> r.value in Collections(summary, i)
      invariant r.Rejected? ==> !Groupable(summary.cells)
    {
      r := CollectCell(summary, i, r.value);
      i := i + 1;
    }
  }

  /** What is known of the collection once every cell is in it. */
  lemma AllCollected(summary: Summary, c: Collection, g: GroupKey)
    requires c in Collections(summary, |summary.order|)
    ensures Ordered(summary) && (forall k :: k in summary.order <==> k in summary.cells)
    ensures forall k {:trigger Rectangular(summary.cells[k])} :: k in summary.cells ==> Rectangular(summary.cells[k])
    ensures (g in c.groups <==> g in c.order) && (g in c.groups <==> InGroup(summary.order, g) != [])
    ensures g in c.groups ==> c.groups[g] == GroupOf(summary, g, InGroup(summary.order, g))
    ensures Distinct(c.order)
  {
    assert summary.order[..|summary.order|] == summary.order;
    assert GroupAt(summary, |summary.order|, c, g);
  }

  /** The cells of one TLS configuration may stand together. */
  ghost predicate MayStand(cells: CellMap, g: GroupKey) {
    forall a, b {:trigger Together(cells, a, b)} :: a in cells && b in cells && KeyOf(a) == g && KeyOf(b) == g ==>
        Together(cells, a, b)
  }

  lemma MayStandMeansTogether(summary: Summary, g: GroupKey)
    requires Ordered(summary) && forall k :: k in summary.order <==> k in summary.cells
    ensures MayStand(summary.cells, g) <==> AllTogether(summary.cells, InGroup(summary.order, g))
  {
  }

  /** The group of a TLS configuration with its cells in profile order. */
  ghost function Sorted(summary: Summary, g: GroupKey): iset<Group> {
    iset group: Group | group.key == g && Finished(summary, InGroup(summary.order, g), group)
  }

  method FinishOne(summary: Summary, c: Collection, g: GroupKey) returns (r: Result<Group>)
    requires c in Collections(summary, |summary.order|) && g in c.groups
    ensures r.Ok? <==> MayStand(summary.cells, g)
    ensures r.Ok? ==> r.value in Sorted(summary, g)
  {
    AllCollected(summary, c, g);
    GroupCompatible(summary, g);
    r := FinishGroup(c.groups[g]);
  }

  lemma GroupCompatible(summary: Summary, g: GroupKey)
    requires Ordered(summary) && forall k :: k in summary.order <==> k in summary.cells
    ensures var group := GroupOf(summary, g, InGroup(summary.order, g));
      && group.key == g && |group.cells| == |InGroup(summary.order, g)|
      && (Compatible(group.cells) <==> MayStand(summary.cells, g))
  {
    var keys := InGroup(summary.order, g);
    GroupOfCells(summary, g, keys);
    InGroupDistinct(summary.order, g);
    CompatibleMeansTogether(summary, keys, GroupOf(summary, g, keys).cells);
    MayStandMeansTogether(summary, g);
  }

  ghost function SortedFor(summary: Summary): GroupKey -> iset<Group> {
    g => Sorted(summary, g)
  }

  /** One item for each key, in the order of the keys. */
  ghost predicate Matches<K, V(!new)>(items: seq<V>, keys: seq<K>, fits: K -> iset<V>) {
    |items| == |keys| && forall j :: 0 <= j < |keys| ==> items[j] in fits(keys[j])
  }

  lemma MatchesNext<K, V(!new)>(items: seq<V>, keys: seq<K>, fits: K -> iset<V>, i: nat, item: V)
    requires i < |keys| && Matches(items, keys[..i], fits) && item in fits(keys[i])
    ensures Matches(items + [item], keys[..i + 1], fits)
  {
    assert forall j :: 0 <= j < i ==> keys[..i + 1][j] == keys[..i][j];
  }

  method FinishGroups(summary: Summary, c: Collection) returns (r: Result<seq<Group>>)
    requires c in Collections(summary, |summary.order|)
    ensures r.Rejected? ==> exists g :: !MayStand(summary.cells, g)
    ensures r.Ok? ==> forall g :: g in c.order ==> MayStand(summary.cells, g)
    ensures r.Ok? ==> Matches(r.value, c.order, SortedFor(summary))
  {
    r := Ok([]);
    var i := 0;
    while i < |c.order| && r.Ok?
      invariant 0 <= i <= |c.order|
      invariant r.Rejected? ==> exists g :: !MayStand(summary.cells, g)
      invariant r.Ok? ==> forall g :: g in c.order[..i] ==> MayStand(summary.cells, g)
      invariant r.Ok? ==> Matches(r.value, c.order[..i], SortedFor(summary))
    {
      PrefixNext(c.order, i);
      r := AppendFinished(summary, c, i, r.value);
      i := i + 1;
    }
    assert c.order[..|c.order|] == c.order;
  }

  method AppendFinished(summary: Summary, c: Collection, i: nat, groups: seq<Group>) returns (r: Result<seq<Group>>)
    requires c in Collections(summary, |summary.order|) && i < |c.order|
    requires Matches(groups, c.order[..i], SortedFor(summary))
    ensures r.Ok? <==> MayStand(summary.cells, c.order[i])
    ensures r.Ok? ==> Matches(r.value, c.order[..i + 1], SortedFor(summary))
  {
    AllCollected(summary, c, c.order[i]);
    var group := FinishOne(summary, c, c.order[i]);
    if group.Rejected? {
      return Rejected(group.reason);
    }
    MatchesNext(groups, c.order, SortedFor(summary), i, group.value);
    r := Ok(groups + [group.value]);
  }

  lemma KeyIsCollected(summary: Summary, c: Collection, key: CellKey)
    requires c in Collections(summary, |summary.order|) && key in summary.cells
    ensures KeyOf(key) in c.order
  {
    AllCollected(summary, c, KeyOf(key));
    assert key in InGroup(summary.order, KeyOf(key));
  }

  /** Whether there are groups depends on the cells alone. */
  lemma StandMeansGroupable(summary: Summary, c: Collection)
    requires c in Collections(summary, |summary.order|)
    ensures Groupable(summary.cells) <==> forall g :: MayStand(summary.cells, g)
    ensures (forall g :: g in c.order ==> MayStand(summary.cells, g)) ==> Groupable(summary.cells)
  {
    AllCollected(summary, c, GroupKey("", ""));
    forall key | key in summary.cells {
      KeyIsCollected(summary, c, key);
    }
    if forall g :: MayStand(summary.cells, g) {
      forall a, b | a in summary.cells && b in summary.cells && KeyOf(a) == KeyOf(b)
        ensures Together(summary.cells, a, b)
      {
        assert MayStand(summary.cells, KeyOf(a));
      }
    }
  }

  lemma SortedHold(summary: Summary, c: Collection, groups: seq<Group>)
    requires c in Collections(summary, |summary.order|)
    requires Matches(groups, c.order, SortedFor(summary))
    ensures GroupsHold(summary.cells, groups)
  {
    forall group | group in groups
      ensures GroupHolds(summary.cells, group)
    {
      var j :| 0 <= j < |groups| && groups[j] == group;
      FinishedHolds(summary, InGroup(summary.order, c.order[j]), group);
    }
    forall key | key in summary.cells
      ensures HasGroup(groups, KeyOf(key))
    {
      KeyIsCollected(summary, c, key);
      var j :| 0 <= j < |groups| && c.order[j] == KeyOf(key);
      assert groups[j] in groups;
    }
    AllCollected(summary, c, GroupKey("", ""));
  }

  /** The two loops of build_scenario_summary_groups. */
  method BuildGroups(summary: Summary) returns (r: Result<seq<Group>>)
    requires Ordered(summary)
    ensures r.Ok? <==> Groupable(summary.cells)
    ensures r.Ok? ==> GroupsHold(summary.cells, r.value)
  {
    var collected := CollectGroups(summary);
    if collected.Rejected? {
      return Rejected(collected.reason);
    }
    StandMeansGroupable(summary, collected.value);
    r := FinishGroups(summary, collected.value);
    if r.Ok? {
      SortedHold(summary, collected.value, r.value);
    }
  }

  // ------------------------------------------------------------- from run ids and rows to groups

  ghost predicate Summarizable(rules: Rules, ids: multiset<RunId>, rows: multiset<Row>) {
    Acceptable(rules, ids, rows) && Groupable(CellsFrom(rules, ids, rows))
  }

  // ------------------------------------------------------------- the groups and their rows

  /** The execution at `id` of a group's cell is what a supplied row reads as. */
  ghost predicate GroupedFrom(
    ids: multiset<RunId>, rows: multiset<Row>, group: Group, c: GroupCell, id: SlotId, row: Row)
    requires id in c.executions
  {
    && row in rows && row.key.run in ids
    && group.key == GroupKey(row.Get(TlsVersion), row.Get(TlsGroup))
    && RowReads(row, id.scenario, id.stack, c.key.profile, id.repeat)
    && Slot(c.key, id) == SlotRead(row, id.scenario, id.stack, c.key.profile, id.repeat)
    && c.executions[id] == ExecutionRead(row, id.scenario, id.stack, c.key.profile, id.repeat)
  }

  ghost predicate IsGrouped(ids: multiset<RunId>, rows: multiset<Row>, groups: seq<Group>, row: Row) {
    exists group, c, id ::
      group in groups && c in group.cells && id in c.executions && GroupedFrom(ids, rows, group, c, id, row)
  }

  /** The groups hold exactly the executions that the supplied rows read as. */
  ghost predicate GroupsTold(ids: multiset<RunId>, rows: multiset<Row>, groups: seq<Group>) {
    && (forall group, c, id {:trigger id in c.executions, c in group.cells, group in groups} ::
          group in groups && c in group.cells && id in c.executions ==>
            exists row :: GroupedFrom(ids, rows, group, c, id, row))
    && (forall row {:trigger IsGrouped(ids, rows, groups, row)} ::
          row in rows && row.key.run in ids ==> IsGrouped(ids, rows, groups, row))
  }

  lemma GroupedRow(
    ids: multiset<RunId>, rows: multiset<Row>, group: Group, c: GroupCell, id: SlotId)
    returns (row: Row)
    requires Acceptable(RULES, ids, rows) && CellFits(CellsFrom(RULES, ids, rows), group, c) && id in c.executions
    ensures GroupedFrom(ids, rows, group, c, id, row)
  {
    var scenario, stack, profile, repeat;
    row, scenario, stack, profile, repeat := ExecutionsAreRead(ids, rows, Slot(c.key, id));
    RowIsRead(row, scenario, stack, profile, repeat);
    RowOccupies(RULES, ids, rows, row);
  }

  lemma RowIsGrouped(ids: multiset<RunId>, rows: multiset<Row>, groups: seq<Group>, row: Row)
    requires Acceptable(RULES, ids, rows) && GroupsHold(CellsFrom(RULES, ids, rows), groups)
    requires row in rows && row.key.run in ids
    ensures IsGrouped(ids, rows, groups, row)
  {
    var cells := CellsFrom(RULES, ids, rows);
    var scenario, stack, profile, repeat := RowsAreRead(ids, rows, row);
    var slot := SlotRead(row, scenario, stack, profile, repeat);
    assert HasGroup(groups, KeyOf(slot.cell));
    var group :| group in groups && group.key == KeyOf(slot.cell);
    assert GroupHolds(cells, group) && HasCell(group, slot.cell);
    var c :| c in group.cells && c.key == slot.cell;
    assert CellFits(cells, group, c);
    assert GroupedFrom(ids, rows, group, c, slot.id, row);
  }

  lemma GroupsAreTold(ids: multiset<RunId>, rows: multiset<Row>, groups: seq<Group>)
    requires Acceptable(RULES, ids, rows) && GroupsHold(CellsFrom(RULES, ids, rows), groups)
    ensures GroupsTold(ids, rows, groups)
  {
    forall group, c, id | group in groups && c in group.cells && id in c.executions
      ensures exists row :: GroupedFrom(ids, rows, group, c, id, row)
    {
      assert GroupHolds(CellsFrom(RULES, ids, rows), group);
      assert CellFits(CellsFrom(RULES, ids, rows), group, c);
      var row := GroupedRow(ids, rows, group, c, id);
    }
    forall row | row in rows && row.key.run in ids
      ensures IsGrouped(ids, rows, groups, row)
    {
      RowIsGrouped(ids, rows, groups, row);
    }
  }

  /**
    build_scenario_summary_groups. Whether it accepts, and which cells its groups hold, depend on
    the run ids and the rows only as multisets.
   */
  method BuildScenarioSummaryGroups(ids: seq<RunId>, rows: seq<Row>) returns (r: Result<seq<Group>>)
    ensures r.Ok? <==> Summarizable(RULES, multiset(ids), multiset(rows))
    ensures r.Ok? ==> GroupsHold(CellsFrom(RULES, multiset(ids), multiset(rows)), r.value)
    ensures r.Ok? ==> GroupsTold(multiset(ids), multiset(rows), r.value)
  {
    var summary := BuildSummaryCells(ids, rows);
    if summary.Rejected? {
      return Rejected(summary.reason);
    }
    BuiltCells(RULES, multiset(ids), multiset(rows), summary.value);
    r := BuildGroups(summary.value);
    if r.Ok? {
      GroupsAreTold(multiset(ids), multiset(rows), r.value);
    }
  }

  /** What the pivoted rows of a query can be summarized to. */
  ghost predicate QuerySummarizable(ids: multiset<RunId>, flat: multiset<FlatRow>) {
    Pivotable(flat) && exists rows: seq<Row> :: Pivot(flat, rows) && Summarizable(RULES, ids, multiset(rows))
  }

  ghost predicate QueryGroups(ids: multiset<RunId>, flat: multiset<FlatRow>, groups: seq<Group>) {
    forall rows: seq<Row> :: Pivot(flat, rows) ==>
      Acceptable(RULES, ids, multiset(rows)) && GroupsHold(CellsFrom(RULES, ids, multiset(rows)), groups)
  }

  /** The command line's path from the rows of the query to the groups. */
  method SummarizeScenarios(ids: seq<RunId>, flat: seq<FlatRow>) returns (r: Result<seq<Group>>)
    ensures r.Ok? <==> QuerySummarizable(multiset(ids), multiset(flat))
    ensures r.Ok? ==> QueryGroups(multiset(ids), multiset(flat), r.value)
  {
    var records := ParseScenarioMetadataRows(flat);
    if records.Rejected? {
      return Rejected(records.reason);
    }
    r := BuildScenarioSummaryGroups(ids, records.value);
    forall rows: seq<Row> | Pivot(multiset(flat), rows)
      ensures multiset(rows) == multiset(records.value)
    {
      PivotIsUnique(multiset(flat), rows, records.value);
    }
  }

  // ------------------------------------------------------------- what the groups are

  ghost predicate SameCell(a: GroupCell, b: GroupCell) {
    a.key == b.key && a.executions == b.executions && a.stacks == b.stacks && ToSet(a.scenarios) == ToSet(b.scenarios)
  }

  /** Equal but for the order of the scenarios. */
  ghost predicate SameGroup(a: Group, b: Group) {
    && a.key == b.key && a.runs == b.runs && ToSet(a.scenarioOrder) == ToSet(b.scenarioOrder)
    && |a.cells| == |b.cells| && forall i :: 0 <= i < |a.cells| ==> SameCell(a.cells[i], b.cells[i])
  }

  function KeysOf(cells: seq<GroupCell>): seq<CellKey> {
    seq(|cells|, i requires 0 <= i < |cells| => cells[i].key)
  }

  /** The cell of a group at an index, without what its executions look like. */
  lemma CellHeld(cells: CellMap, group: Group, j: nat)
    requires GroupHolds(cells, group) && j < |group.cells|
    ensures var c := group.cells[j];
      && c.key in cells && KeyOf(c.key) == group.key && c.executions == cells[c.key]
      && c.stacks == Keep(STACK_ORDER, StacksOf(c.executions))
      && ToSet(c.scenarios) == ScenariosOf(c.executions) == ToSet(group.scenarioOrder)
  {
    assert group.cells[j] in group.cells;
    assert CellFits(cells, group, group.cells[j]);
  }

  lemma CellFound(cells: CellMap, group: Group, key: CellKey) returns (j: nat)
    requires GroupHolds(cells, group) && key in cells && KeyOf(key) == group.key
    ensures j < |group.cells| && group.cells[j].key == key
  {
    assert HasCell(group, key);
    var c :| c in group.cells && c.key == key;
    j :| 0 <= j < |group.cells| && group.cells[j] == c;
  }

  lemma GroupFound(cells: CellMap, groups: seq<Group>, key: CellKey) returns (i: nat)
    requires GroupsHold(cells, groups) && key in cells
    ensures i < |groups| && groups[i].key == KeyOf(key)
  {
    assert HasGroup(groups, KeyOf(key));
    var group :| group in groups && group.key == KeyOf(key);
    i :| 0 <= i < |groups| && groups[i] == group;
  }

  lemma RunFound(cells: CellMap, group: Group, run: RunId) returns (j: nat)
    requires GroupHolds(cells, group) && run in group.runs
    ensures j < |group.cells| && run in RunsOf(group.cells[j].executions)
  {
    var c :| c in group.cells && run in RunsOf(c.executions);
    j := Position(group.cells, c);
  }

  lemma Position<T>(s: seq<T>, x: T) returns (j: nat)
    requires x in s
    ensures j < |s| && s[j] == x
  {
    j :| 0 <= j < |s| && s[j] == x;
  }

  lemma RunNamed(cells: CellMap, group: Group, run: RunId, j: nat)
    requires GroupHolds(cells, group) && j < |group.cells| && run in RunsOf(group.cells[j].executions)
    ensures run in group.runs
  {
    assert group.cells[j] in group.cells;
  }

  lemma KeyListed(cells: CellMap, group: Group, key: CellKey)
    requires GroupHolds(cells, group)
    ensures key in KeysOf(group.cells) <==> key in cells && KeyOf(key) == group.key
  {
    if key in KeysOf(group.cells) {
      var i :| 0 <= i < |group.cells| && KeysOf(group.cells)[i] == key;
      CellHeld(cells, group, i);
    }
    if key in cells && KeyOf(key) == group.key {
      var j := CellFound(cells, group, key);
      assert KeysOf(group.cells)[j] == key;
    }
  }

  lemma KeysRanked(cells: CellMap, group: Group)
    requires GroupHolds(cells, group)
    ensures Ranked(KeysOf(group.cells), NameRank) && Distinct(KeysOf(group.cells))
  {
    var keys := KeysOf(group.cells);
    forall i, j | 0 <= i < j < |keys|
      ensures NameRank(keys[i]) < NameRank(keys[j])
    {
      assert CellRank(group.cells[i]) < CellRank(group.cells[j]);
    }
  }

  lemma SameKeys(cells: CellMap, a: Group, b: Group)
    requires GroupHolds(cells, a) && GroupHolds(cells, b) && a.key == b.key
    ensures KeysOf(a.cells) == KeysOf(b.cells)
  {
    var keysA, keysB := KeysOf(a.cells), KeysOf(b.cells);
    forall key
      ensures key in keysA <==> key in keysB
    {
      KeyListed(cells, a, key);
      KeyListed(cells, b, key);
    }
    KeysRanked(cells, a);
    KeysRanked(cells, b);
    assert ToSet(keysA) == ToSet(keysB);
    DistinctIffFullSet(keysA);
    DistinctIffFullSet(keysB);
    RankedListUnique(keysA, keysB, NameRank);
  }

  lemma SameCellAt(cells: CellMap, a: Group, b: Group, i: nat)
    requires GroupHolds(cells, a) && GroupHolds(cells, b) && a.key == b.key && i < |a.cells|
    ensures |a.cells| == |b.cells| && SameCell(a.cells[i], b.cells[i])
  {
    SameKeys(cells, a, b);
    assert |KeysOf(a.cells)| == |KeysOf(b.cells)|;
    assert KeysOf(a.cells)[i] == KeysOf(b.cells)[i];
    CellHeld(cells, a, i);
    CellHeld(cells, b, i);
  }

  lemma SameRuns(cells: CellMap, a: Group, b: Group, run: RunId)
    requires GroupHolds(cells, a) && GroupHolds(cells, b) && a.key == b.key && run in a.runs
    ensures run in b.runs
  {
    var i := RunFound(cells, a, run);
    SameCellAt(cells, a, b, i);
    RunNamed(cells, b, run, i);
  }

  lemma SameRunSet(cells: CellMap, a: Group, b: Group)
    requires GroupHolds(cells, a) && GroupHolds(cells, b) && a.key == b.key
    ensures a.runs == b.runs
  {
    forall run
      ensures run in a.runs <==> run in b.runs
    {
      if run in a.runs {
        SameRuns(cells, a, b, run);
      }
      if run in b.runs {
        SameRuns(cells, b, a, run);
      }
    }
  }

  lemma SameScenarioSet(cells: CellMap, a: Group, b: Group)
    requires GroupHolds(cells, a) && GroupHolds(cells, b) && a.key == b.key
    ensures |a.cells| == |b.cells| && ToSet(a.scenarioOrder) == ToSet(b.scenarioOrder)
  {
    SameCellAt(cells, a, b, 0);
    CellHeld(cells, a, 0);
    CellHeld(cells, b, 0);
  }

  lemma SameConfigurationSameGroup(cells: CellMap, a: Group, b: Group)
    requires GroupHolds(cells, a) && GroupHolds(cells, b) && a.key == b.key
    ensures SameGroup(a, b)
  {
    SameScenarioSet(cells, a, b);
    SameRunSet(cells, a, b);
    forall i | 0 <= i < |a.cells|
      ensures SameCell(a.cells[i], b.cells[i])
    {
      SameCellAt(cells, a, b, i);
    }
  }

  /** The cells determine the groups: two builds differ only in the order of groups and scenarios. */
  lemma GroupsDetermined(cells: CellMap, a: seq<Group>, b: seq<Group>)
    requires GroupsHold(cells, a) && GroupsHold(cells, b)
    ensures forall ga :: ga in a ==> exists gb :: gb in b && SameGroup(ga, gb)
  {
    forall ga | ga in a
      ensures exists gb :: gb in b && SameGroup(ga, gb)
    {
      assert GroupHolds(cells, ga);
      CellHeld(cells, ga, 0);
      var i := GroupFound(cells, b, ga.cells[0].key);
      assert b[i] in b;
      SameConfigurationSameGroup(cells, ga, b[i]);
    }
  }

  // ------------------------------------------------------------- conservation

  /** Cell `j` of group `i` holds `execution` in the slot. */
  ghost predicate At(groups: seq<Group>, i: nat, j: nat, slot: Slot, execution: Execution) {
    && i < |groups| && j < |groups[i].cells| && groups[i].cells[j].key == slot.cell
    && slot.id in groups[i].cells[j].executions && groups[i].cells[j].executions[slot.id] == execution
  }

  lemma SlotIsAt(cells: CellMap, groups: seq<Group>, slot: Slot) returns (i: nat, j: nat)
    requires GroupsHold(cells, groups) && Occupied(cells, slot)
    ensures At(groups, i, j, slot, cells[slot.cell][slot.id])
  {
    i := GroupFound(cells, groups, slot.cell);
    assert GroupHolds(cells, groups[i]);
    j := CellFound(cells, groups[i], slot.cell);
    CellHeld(cells, groups[i], j);
  }

  lemma AtIsSlot(cells: CellMap, groups: seq<Group>, i: nat, j: nat, slot: Slot, execution: Execution)
    requires GroupsHold(cells, groups) && At(groups, i, j, slot, execution)
    ensures groups[i].key == KeyOf(slot.cell) && Occupied(cells, slot) && cells[slot.cell][slot.id] == execution
  {
    assert GroupHolds(cells, groups[i]);
    CellHeld(cells, groups[i], j);
  }

  lemma OnePlace(
    cells: CellMap, groups: seq<Group>, i: nat, j: nat, i': nat, j': nat, slot: Slot, e: Execution, e': Execution)
    requires GroupsHold(cells, groups) && At(groups, i, j, slot, e) && At(groups, i', j', slot, e')
    ensures i == i' && j == j' && e == e'
  {
    AtIsSlot(cells, groups, i, j, slot, e);
    AtIsSlot(cells, groups, i', j', slot, e');
    assert GroupHolds(cells, groups[i]);
    KeysRanked(cells, groups[i]);
    assert KeysOf(groups[i].cells)[j] == KeysOf(groups[i].cells)[j'];
  }

  lemma RowPlace(
    rules: Rules, ids: multiset<RunId>, rows: multiset<Row>, groups: seq<Group>, row: Row)
    returns (i: nat, j: nat)
    requires Acceptable(rules, ids, rows) && GroupsHold(CellsFrom(rules, ids, rows), groups)
    requires row in rows && row.Run() in ids
    ensures rows[row] == 1 && At(groups, i, j, rules.slot(row), rules.execution(row))
  {
    RowOccupies(rules, ids, rows, row);
    i, j := SlotIsAt(CellsFrom(rules, ids, rows), groups, rules.slot(row));
  }

  lemma PlaceRowOf(
    rules: Rules, ids: multiset<RunId>, rows: multiset<Row>, groups: seq<Group>, i: nat, j: nat, slot: Slot,
    execution: Execution)
    returns (row: Row)
    requires Acceptable(rules, ids, rows) && GroupsHold(CellsFrom(rules, ids, rows), groups)
    requires At(groups, i, j, slot, execution)
    ensures row in rows && row.Run() in ids && rules.slot(row) == slot && rules.execution(row) == execution
  {
    AtIsSlot(CellsFrom(rules, ids, rows), groups, i, j, slot, execution);
    OccupiedByRow(rules, ids, rows, slot);
    row := Placed(Supplied(ids, rows), rules.ok, rules.slot)[slot];
    assert row in Supplied(ids, rows);
  }

  /** Every row of a supplied run is one execution of one cell of one group. */
  lemma EveryRowIsOneExecution(rules: Rules, ids: multiset<RunId>, rows: multiset<Row>, groups: seq<Group>, row: Row)
    requires Acceptable(rules, ids, rows) && GroupsHold(CellsFrom(rules, ids, rows), groups)
    requires row in rows && row.Run() in ids
    ensures rows[row] == 1
    ensures exists i: nat, j: nat :: At(groups, i, j, rules.slot(row), rules.execution(row))
    ensures forall i: nat, j: nat, i': nat, j': nat, e, e' ::
              At(groups, i, j, rules.slot(row), e) && At(groups, i', j', rules.slot(row), e') ==>
                  i == i' && j == j' && e == e'
  {
    var i, j := RowPlace(rules, ids, rows, groups, row);
    forall i: nat, j: nat, i': nat, j': nat, e, e' | At(groups, i, j, rules.slot(row), e) &&
        At(groups, i', j', rules.slot(row), e')
      ensures i == i' && j == j' && e == e'
    {
      OnePlace(CellsFrom(rules, ids, rows), groups, i, j, i', j', rules.slot(row), e, e');
    }
  }

  /** Every execution of the groups is the one row of a supplied run that claims its slot. */
  lemma EveryExecutionIsOneRow(
    rules: Rules, ids: multiset<RunId>, rows: multiset<Row>, groups: seq<Group>, i: nat, j: nat, slot: Slot,
    execution: Execution)
    returns (row: Row)
    requires Acceptable(rules, ids, rows) && GroupsHold(CellsFrom(rules, ids, rows), groups)
    requires At(groups, i, j, slot, execution)
    ensures row in rows && row.Run() in ids && rules.slot(row) == slot && rules.execution(row) == execution
    ensures forall other :: other in rows && other.Run() in ids && rules.slot(other) == slot ==> other == row
  {
    row := PlaceRowOf(rules, ids, rows, groups, i, j, slot, execution);
    assert row in Supplied(ids, rows);
    forall other | other in rows && other.Run() in ids && rules.slot(other) == slot
      ensures other == row
    {
      assert other in Supplied(ids, rows);
    }
  }

  lemma FirstRow(ids: multiset<RunId>, rows: multiset<Row>, rules: Rules, id: RunId) returns (row: Row)
    requires Acceptable(rules, ids, rows) && id in ids
    ensures row in rows && row.Run() == id
  {
    FirstExecution(id.family);
    assert (ProfileTag(id.family, 1), 1) in Reported(rows, id);
    row :| row in rows && row.Run() == id && row.Execution() == (ProfileTag(id.family, 1), 1);
  }

  lemma RunIsNamed(cells: CellMap, groups: seq<Group>, i: nat, j: nat, slot: Slot, execution: Execution)
    requires GroupsHold(cells, groups) && At(groups, i, j, slot, execution)
    ensures i < |groups| && execution.run in groups[i].runs
  {
    assert GroupHolds(cells, groups[i]);
    assert execution.run in RunsOf(groups[i].cells[j].executions);
    RunNamed(cells, groups[i], execution.run, j);
  }

  lemma NamedRunIsAt(
    cells: CellMap, groups: seq<Group>, i: nat, run: RunId)
    returns (j: nat, slot: Slot, execution: Execution)
    requires GroupsHold(cells, groups) && i < |groups| && run in groups[i].runs
    ensures At(groups, i, j, slot, execution) && execution.run == run
  {
    assert GroupHolds(cells, groups[i]);
    j := RunFound(cells, groups[i], run);
    var c := groups[i].cells[j];
    var id :| id in c.executions && c.executions[id].run == run;
    slot, execution := Slot(c.key, id), c.executions[id];
  }

  /** The groups name exactly the supplied runs. */
  lemma GroupsNameTheRuns(rules: Rules, ids: multiset<RunId>, rows: multiset<Row>, groups: seq<Group>, run: RunId)
    requires Acceptable(rules, ids, rows) && GroupsHold(CellsFrom(rules, ids, rows), groups)
    requires forall row :: rules.execution(row).run == row.Run()
    ensures run in ids <==> exists i :: 0 <= i < |groups| && run in groups[i].runs
  {
    var cells := CellsFrom(rules, ids, rows);
    if run in ids {
      var row := FirstRow(ids, rows, rules, run);
      var i, j := RowPlace(rules, ids, rows, groups, row);
      RunIsNamed(cells, groups, i, j, rules.slot(row), rules.execution(row));
    }
    if i :| 0 <= i < |groups| && run in groups[i].runs {
      var j, slot, execution := NamedRunIsAt(cells, groups, i, run);
      var row := PlaceRowOf(rules, ids, rows, groups, i, j, slot, execution);
    }
  }

  lemma RulesKeepRuns(row: Row)
    ensures RULES.execution(row).run == row.Run()
  {
  }

  /** The scenario summary names exactly the supplied runs. */
  lemma SummaryNamesItsRuns(ids: multiset<RunId>, rows: multiset<Row>, groups: seq<Group>, run: RunId)
    requires Summarizable(RULES, ids, rows) && GroupsHold(CellsFrom(RULES, ids, rows), groups)
    ensures run in ids <==> exists i :: 0 <= i < |groups| && run in groups[i].runs
  {
    forall row {
      RulesKeepRuns(row);
    }
    GroupsNameTheRuns(RULES, ids, rows, groups, run);
  }
}
