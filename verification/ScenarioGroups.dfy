/** build_scenario_summary_groups: cells checked for rectangular shape and grouped by TLS configuration. */
module ScenarioGroups {
  import opened Common
  import opened Workloads
  import opened Cells

  datatype GroupKey = GroupKey(version: string, group: string)

  datatype GroupCell = GroupCell(key: CellKey, executions: Executions, scenarios: seq<string>, stacks: seq<Stack>)

  datatype Group = Group(key: GroupKey, scenarioOrder: seq<string>, cells: seq<GroupCell>, runs: set<RunId>)

  function KeyOf(cell: CellKey): GroupKey {
    GroupKey(cell.version, cell.group)
  }

  function ScenariosOf(executions: Executions): set<string> {
    set id | id in executions :: id.scenario
  }

  function StacksOf(executions: Executions): set<Stack> {
    set id | id in executions :: id.stack
  }

  function RunsOf(executions: Executions): set<RunId> {
    set id | id in executions :: executions[id].run
  }

  // ------------------------------------------------------------- one cell

  /** The executions are exactly scenarios x stacks x {0, 1, 2}, with at least two scenarios. */
  ghost predicate Rectangular(executions: Executions) {
    && |ScenariosOf(executions)| >= 2
    && (forall scenario, stack, repeat: nat ::
          scenario in ScenariosOf(executions) && stack in StacksOf(executions) && repeat < 3 ==>
          SlotId(scenario, stack, repeat) in executions)
    && (forall id :: id in executions ==> id.repeat < 3)
  }

  function StacksIn(executions: Executions, scenario: string): set<Stack> {
    set id | id in executions && id.scenario == scenario :: id.stack
  }

  function RepeatsIn(executions: Executions, scenario: string, stack: Stack): set<nat> {
    set id | id in executions && id.scenario == scenario && id.stack == stack :: id.repeat
  }

  lemma InStacks(executions: Executions, id: SlotId)
    requires id in executions
    ensures id.scenario in ScenariosOf(executions) && id.stack in StacksOf(executions)
    ensures id.stack in StacksIn(executions, id.scenario) && id.repeat in RepeatsIn(executions, id.scenario, id.stack)
  {
  }

  /** The three checks of the source together say that the cell is rectangular. */
  lemma ChecksMeanRectangular(executions: Executions, first: string)
    requires |ScenariosOf(executions)| >= 2 && first in ScenariosOf(executions)
    requires forall scenario :: scenario in ScenariosOf(executions) ==>
        StacksIn(executions, scenario) == StacksIn(executions, first)
    requires forall scenario, stack :: scenario in ScenariosOf(executions) && stack in StacksIn(executions, first) ==>
               RepeatsIn(executions, scenario, stack) == {0, 1, 2}
    ensures Rectangular(executions) && StacksOf(executions) == StacksIn(executions, first)
  {
    forall id | id in executions
      ensures id.repeat < 3 && id.stack in StacksIn(executions, first)
    {
      InStacks(executions, id);
      assert id.repeat in {0, 1, 2};
    }
    assert StacksOf(executions) == StacksIn(executions, first);
    forall scenario, stack, repeat: nat | scenario in ScenariosOf(executions) && stack in StacksOf(executions) &&
        repeat < 3
      ensures SlotId(scenario, stack, repeat) in executions
    {
      assert repeat in RepeatsIn(executions, scenario, stack);
      var id :| id in executions && id.scenario == scenario && id.stack == stack && id.repeat == repeat;
      assert id == SlotId(scenario, stack, repeat);
    }
  }

  lemma RectangularStacks(executions: Executions, scenario: string)
    requires Rectangular(executions) && scenario in ScenariosOf(executions)
    ensures StacksIn(executions, scenario) == StacksOf(executions)
  {
    forall stack | stack in StacksOf(executions)
      ensures stack in StacksIn(executions, scenario)
    {
      assert SlotId(scenario, stack, 0) in executions;
      InStacks(executions, SlotId(scenario, stack, 0));
    }
  }

  lemma RectangularRepeats(executions: Executions, scenario: string, stack: Stack)
    requires Rectangular(executions) && scenario in ScenariosOf(executions) && stack in StacksOf(executions)
    ensures RepeatsIn(executions, scenario, stack) == {0, 1, 2}
  {
    forall repeat: nat | repeat < 3
      ensures repeat in RepeatsIn(executions, scenario, stack)
    {
      InStacks(executions, SlotId(scenario, stack, repeat));
    }
    forall repeat | repeat in RepeatsIn(executions, scenario, stack)
      ensures repeat in {0, 1, 2}
    {
    }
  }

  /** The checks on one cell; `scenarios` is what its executions name, in order of appearance. */
  method CheckCell(executions: Executions, scenarios: seq<string>) returns (r: Result<seq<Stack>>)
    requires Distinct(scenarios) && ToSet(scenarios) == ScenariosOf(executions)
    ensures r.Ok? <==> Rectangular(executions)
    ensures r.Ok? ==> r.value == Keep(STACK_ORDER, StacksOf(executions))
  {
    DistinctIffFullSet(scenarios);
    if |scenarios| < 2 {
      return Rejected("scenario summaries require at least two scenarios");
    }
    assert forall i :: 0 <= i < |scenarios| ==> scenarios[i] in ToSet(scenarios);
    var expected := StacksIn(executions, scenarios[0]);
    for i := 1 to |scenarios|
      invariant forall j :: 0 <= j < i ==> StacksIn(executions, scenarios[j]) == expected
    {
      if StacksIn(executions, scenarios[i]) != expected {
        if Rectangular(executions) {
          RectangularStacks(executions, scenarios[0]);
          RectangularStacks(executions, scenarios[i]);
        }
        return Rejected("Stack sets differ");
      }
    }
    for i := 0 to |scenarios|
      invariant forall j, stack :: 0 <= j < i && stack in expected ==>
          RepeatsIn(executions, scenarios[j], stack) == {0, 1, 2}
    {
      if stack :| stack in expected && RepeatsIn(executions, scenarios[i], stack) != {0, 1, 2} {
        if Rectangular(executions) {
          RectangularStacks(executions, scenarios[0]);
          RectangularRepeats(executions, scenarios[i], stack);
        }
        return Rejected("Incomplete Profile Runs");
      }
    }
    assert forall scenario :: scenario in ScenariosOf(executions) ==> scenario in ToSet(scenarios);
    ChecksMeanRectangular(executions, scenarios[0]);
    r := Ok(Keep(STACK_ORDER, expected));
  }

  // ------------------------------------------------------------- groups of cells

  /** The order of FAMILIES and PROFILE_SLUGS. */
  function CellRank(cell: GroupCell): int {
    NameRank(cell.key)
  }

  function NameRank(key: CellKey): int {
    8 * (match key.family case Baseline => 0 case LinearPeak => 1 case Race => 2) + Rank(key.profile)
  }

  predicate SameName(a: CellKey, b: CellKey) {
    a.family == b.family && a.profile == b.profile
  }

  lemma RankIsName(a: CellKey, b: CellKey)
    ensures NameRank(a) == NameRank(b) <==> SameName(a, b)
  {
    assert Rank(a.profile) < 8 && Rank(b.profile) < 8;
  }

  /** Every cell is rectangular; in one TLS configuration no profile has two cells and all cells name the same
    scenarios. */
  ghost predicate Groupable(cells: CellMap) {
    && (forall key {:trigger Rectangular(cells[key])} :: key in cells ==> Rectangular(cells[key]))
    && (forall a, b {:trigger Together(cells, a, b)} :: a in cells && b in cells && KeyOf(a) == KeyOf(b) ==>
        Together(cells, a, b))
  }

  ghost predicate Together(cells: CellMap, a: CellKey, b: CellKey)
    requires a in cells && b in cells
  {
    (SameName(a, b) ==> a == b) && ScenariosOf(cells[a]) == ScenariosOf(cells[b])
  }

  function CellOf(summary: Summary, key: CellKey): GroupCell
    requires key in summary.cells
  {
    var executions := summary.cells[key];
    GroupCell(key, executions, Keep(summary.scenarioOrder, ScenariosOf(executions)),
        Keep(STACK_ORDER, StacksOf(executions)))
  }

  function AppendAll(s: seq<string>, more: seq<string>): seq<string> {
    if more == [] then s else AppendNew(AppendAll(s, more[..|more| - 1]), more[|more| - 1])
  }

  function AddCell(group: Group, cell: GroupCell): Group {
    Group(group.key, AppendAll(group.scenarioOrder, cell.scenarios), group.cells + [cell],
        group.runs + RunsOf(cell.executions))
  }

  /** The group built from some of the cells, in the given order. */
  ghost function GroupOf(summary: Summary, key: GroupKey, keys: seq<CellKey>): Group
    requires forall k :: k in keys ==> k in summary.cells
  {
    if keys == [] then Group(key, [], [], {}) else
    AddCell(GroupOf(summary, key, keys[..|keys| - 1]), CellOf(summary, keys[|keys| - 1]))
  }

  function InGroup(keys: seq<CellKey>, key: GroupKey): (members: seq<CellKey>)
    ensures forall k :: k in members <==> k in keys && KeyOf(k) == key
  {
    if keys == [] then [] else
    var last := keys[|keys| - 1];
    assert keys == keys[..|keys| - 1] + [last];
    InGroup(keys[..|keys| - 1], key) + (if KeyOf(last) == key then [last] else [])
  }

  lemma {:induction false} InGroupDistinct(keys: seq<CellKey>, key: GroupKey)
    requires Distinct(keys)
    ensures Distinct(InGroup(keys, key))
  {
    if keys == [] {
    } else {
      var init, last := keys[..|keys| - 1], keys[|keys| - 1];
      assert keys == init + [last];
      InGroupDistinct(init, key);
      assert last !in init;
      assert forall i :: 0 <= i < |InGroup(init, key)| ==> InGroup(init, key)[i] in InGroup(init, key);
    }
  }

  lemma {:induction false} AppendAllElements(s: seq<string>, more: seq<string>)
    ensures forall x :: x in AppendAll(s, more) <==> x in s || x in more
    ensures Distinct(s) ==> Distinct(AppendAll(s, more))
  {
    if more == [] {
    } else {
      AppendAllElements(s, more[..|more| - 1]);
      assert more == more[..|more| - 1] + [more[|more| - 1]];
    }
  }

  lemma {:induction false} GroupOfCells(summary: Summary, key: GroupKey, keys: seq<CellKey>)
    requires forall k :: k in keys ==> k in summary.cells
    ensures var group := GroupOf(summary, key, keys);
      group.key == key && |group.cells| == |keys| && forall i :: 0 <= i < |keys| ==>
          group.cells[i] == CellOf(summary, keys[i])
  {
    if keys == [] {
    } else {
      GroupOfCells(summary, key, keys[..|keys| - 1]);
    }
  }

  lemma {:induction false} GroupOfRuns(summary: Summary, key: GroupKey, keys: seq<CellKey>, run: RunId)
    requires forall k :: k in keys ==> k in summary.cells
    ensures run in GroupOf(summary, key, keys).runs <==> exists k :: k in keys && run in RunsOf(summary.cells[k])
  {
    if keys == [] {
    } else {
      var init, last := keys[..|keys| - 1], keys[|keys| - 1];
      GroupOfRuns(summary, key, init, run);
      assert keys == init + [last];
    }
  }

  lemma {:induction false} GroupOfScenarios(summary: Summary, key: GroupKey, keys: seq<CellKey>, scenario: string)
    requires forall k :: k in keys ==> k in summary.cells
    ensures scenario in GroupOf(summary, key, keys).scenarioOrder <==>
            exists k :: k in keys && scenario in CellOf(summary, k).scenarios
    ensures Distinct(GroupOf(summary, key, keys).scenarioOrder)
  {
    if keys == [] {
    } else {
      var init, last := keys[..|keys| - 1], keys[|keys| - 1];
      GroupOfScenarios(summary, key, init, scenario);
      AppendAllElements(GroupOf(summary, key, init).scenarioOrder, CellOf(summary, last).scenarios);
      assert keys == init + [last];
    }
  }

  // ------------------------------------------------------------- one finished group

  /** The checks on a finished group: profile names differ, scenario lists are equal. */
  ghost predicate Compatible(cells: seq<GroupCell>) {
    && (forall i, j :: 0 <= i < j < |cells| ==> !SameName(cells[i].key, cells[j].key))
    && (forall i :: 0 <= i < |cells| ==> cells[i].scenarios == cells[0].scenarios)
  }

  lemma SortedIsRanked(cells: seq<GroupCell>, sorted: seq<GroupCell>)
    requires Compatible(cells) && multiset(sorted) == multiset(cells) && SortedBy(sorted, CellRank)
    ensures Ranked(sorted, CellRank)
  {
    forall i, j | 0 <= i < j < |sorted|
      ensures CellRank(sorted[i]) < CellRank(sorted[j])
    {
      DistinctCells(cells);
      assert multiset(sorted) == multiset(cells);
      DistinctIffNoRepeats(sorted);
      assert sorted[i] in multiset(sorted) && sorted[j] in multiset(sorted);
      assert sorted[i] in cells && sorted[j] in cells && sorted[i] != sorted[j];
      RankIsName(sorted[i].key, sorted[j].key);
    }
  }

  lemma DistinctCells(cells: seq<GroupCell>)
    requires Compatible(cells)
    ensures forall c :: multiset(cells)[c] <= 1
  {
    DistinctIffNoRepeats(cells);
  }

  function Names(cells: seq<GroupCell>): seq<(Family, Profile)> {
    seq(|cells|, i requires 0 <= i < |cells| => (cells[i].key.family, cells[i].key.profile))
  }

  lemma NamesDistinct(cells: seq<GroupCell>)
    ensures Distinct(Names(cells)) <==> forall i, j :: 0 <= i < j < |cells| ==> !SameName(cells[i].key, cells[j].key)
  {
    assert forall i, j :: 0 <= i < j < |cells| ==>
        (Names(cells)[i] == Names(cells)[j] <==> SameName(cells[i].key, cells[j].key));
  }

  method FinishGroup(group: Group) returns (r: Result<Group>)
    requires group.cells != []
    ensures r.Ok? <==> Compatible(group.cells)
    ensures r.Ok? ==> r.value == group.(cells := r.value.cells) && Ranked(r.value.cells, CellRank) &&
                      multiset(r.value.cells) == multiset(group.cells)
  {
    var names := Names(group.cells);
    DistinctIffFullSet(names);
    NamesDistinct(group.cells);
    if |names| != |ToSet(names)| {
      return Rejected("Incompatible configurations create duplicate profile cells");
    }
    for i := 1 to |group.cells|
      invariant forall j :: 0 <= j < i ==> group.cells[j].scenarios == group.cells[0].scenarios
    {
      if group.cells[i].scenarios != group.cells[0].scenarios {
        return Rejected("Scenario sets differ across profiles");
      }
    }
    var sorted := SortBy(group.cells, CellRank);
    SortedIsRanked(group.cells, sorted);
    r := Ok(group.(cells := sorted));
  }

  lemma ScenarioLists(summary: Summary, key: CellKey)
    requires Ordered(summary) && key in summary.cells
    ensures ToSet(CellOf(summary, key).scenarios) == ScenariosOf(summary.cells[key])
    ensures Distinct(CellOf(summary, key).scenarios)
    ensures forall s :: s in ScenariosOf(summary.cells[key]) ==> s in summary.scenarioOrder
  {
    KeepElements(summary.scenarioOrder, ScenariosOf(summary.cells[key]));
    forall s | s in ScenariosOf(summary.cells[key])
      ensures s in summary.scenarioOrder
    {
      assert s in ScenariosIn(summary.cells);
    }
  }

  lemma SameScenarioLists(summary: Summary, a: CellKey, b: CellKey)
    requires Ordered(summary) && a in summary.cells && b in summary.cells
    ensures CellOf(summary, a).scenarios == CellOf(summary, b).scenarios <==>
            ScenariosOf(summary.cells[a]) == ScenariosOf(summary.cells[b])
  {
    ScenarioLists(summary, a);
    ScenarioLists(summary, b);
    KeepEqual(summary.scenarioOrder, ScenariosOf(summary.cells[a]), ScenariosOf(summary.cells[b]));
  }

  /** All pairs of a list of cells may stand in one group. */
  ghost predicate AllTogether(cells: CellMap, keys: seq<CellKey>)
    requires forall k :: k in keys ==> k in cells
  {
    forall a, b {:trigger Together(cells, a, b)} :: a in keys && b in keys ==> Together(cells, a, b)
  }

  lemma CompatibleMeansTogether(summary: Summary, keys: seq<CellKey>, cells: seq<GroupCell>)
    requires Ordered(summary) && Distinct(keys) && forall k :: k in keys ==> k in summary.cells
    requires |cells| == |keys| && forall i :: 0 <= i < |keys| ==> cells[i] == CellOf(summary, keys[i])
    ensures Compatible(cells) <==> AllTogether(summary.cells, keys)
  {
    if Compatible(cells) {
      forall a, b | a in keys && b in keys
        ensures Together(summary.cells, a, b)
      {
        var i :| 0 <= i < |keys| && keys[i] == a;
        var j :| 0 <= j < |keys| && keys[j] == b;
        assert cells[i].scenarios == cells[0].scenarios == cells[j].scenarios;
        SameScenarioLists(summary, a, b);
        assert i < j ==> !SameName(cells[i].key, cells[j].key);
        assert j < i ==> !SameName(cells[j].key, cells[i].key);
      }
    }
    if AllTogether(summary.cells, keys) {
      forall i, j | 0 <= i < j < |cells|
        ensures !SameName(cells[i].key, cells[j].key)
      {
        assert Together(summary.cells, keys[i], keys[j]);
      }
      forall i | 0 <= i < |cells|
        ensures cells[i].scenarios == cells[0].scenarios
      {
        assert Together(summary.cells, keys[i], keys[0]);
        SameScenarioLists(summary, keys[i], keys[0]);
      }
    }
  }

  // ------------------------------------------------------------- all groups

  /** What a finished cell of a group says about the cell it was built from. */
  ghost predicate CellFits(cells: CellMap, group: Group, c: GroupCell) {
    && c.key in cells && KeyOf(c.key) == group.key && c.executions == cells[c.key] && Rectangular(c.executions)
    && Distinct(c.scenarios) && ToSet(c.scenarios) == ScenariosOf(c.executions) == ToSet(group.scenarioOrder)
    && c.stacks == Keep(STACK_ORDER, StacksOf(c.executions))
  }

  /** A group holds exactly the cells of its TLS configuration, in profile order, and names what they use. */
  ghost predicate GroupHolds(cells: CellMap, group: Group) {
    && group.cells != [] && Ranked(group.cells, CellRank) && Distinct(group.scenarioOrder)
    && (forall c {:trigger CellFits(cells, group, c)} :: c in group.cells ==> CellFits(cells, group, c))
    && (forall key {:trigger HasCell(group, key)} :: key in cells && KeyOf(key) == group.key ==> HasCell(group, key))
    && (forall run :: run in group.runs <==> exists c :: c in group.cells && run in RunsOf(c.executions))
  }

  ghost predicate HasCell(group: Group, key: CellKey) {
    exists c :: c in group.cells && c.key == key
  }

  ghost predicate HasGroup(groups: seq<Group>, key: GroupKey) {
    exists group :: group in groups && group.key == key
  }

  /** Every cell is in exactly one group. */
  ghost predicate GroupsHold(cells: CellMap, groups: seq<Group>) {
    && (forall i, j :: 0 <= i < j < |groups| ==> groups[i].key != groups[j].key)
    && (forall key {:trigger HasGroup(groups, KeyOf(key))} :: key in cells ==> HasGroup(groups, KeyOf(key)))
    && (forall group {:trigger GroupHolds(cells, group)} :: group in groups ==> GroupHolds(cells, group))
  }

  /** A group as FinishGroup returns it. */
  ghost predicate Finished(summary: Summary, keys: seq<CellKey>, group: Group) {
    && Ordered(summary) && (forall k {:trigger Rectangular(summary.cells[k])} :: k in summary.cells ==>
        Rectangular(summary.cells[k]))
    && keys == InGroup(summary.order, group.key) != [] && (forall k :: k in keys ==> k in summary.cells)
    && var built := GroupOf(summary, group.key, keys);
       && Compatible(built.cells) && group == built.(cells := group.cells)
       && multiset(group.cells) == multiset(built.cells) && Ranked(group.cells, CellRank)
  }

  lemma GroupMembers(summary: Summary, key: GroupKey, keys: seq<CellKey>, c: GroupCell)
    requires forall k :: k in keys ==> k in summary.cells
    ensures c in GroupOf(summary, key, keys).cells <==> c.key in keys && c == CellOf(summary, c.key)
  {
    GroupOfCells(summary, key, keys);
    if c.key in keys {
      var i :| 0 <= i < |keys| && keys[i] == c.key;
      assert GroupOf(summary, key, keys).cells[i] == CellOf(summary, c.key);
    }
  }

  lemma SameMembers<T>(a: seq<T>, b: seq<T>, x: T)
    requires multiset(a) == multiset(b)
    ensures x in a <==> x in b
  {
    assert x in a <==> x in multiset(a);
  }

  lemma FinishedMembers(summary: Summary, keys: seq<CellKey>, group: Group, c: GroupCell)
    requires Finished(summary, keys, group)
    ensures c in group.cells <==> c.key in keys && c == CellOf(summary, c.key)
  {
    GroupMembers(summary, group.key, keys, c);
    SameMembers(group.cells, GroupOf(summary, group.key, keys).cells, c);
  }

  lemma FinishedCell(summary: Summary, keys: seq<CellKey>, group: Group, c: GroupCell)
    requires Finished(summary, keys, group) && c in group.cells
    ensures CellFits(summary.cells, group, c)
  {
    FinishedMembers(summary, keys, group, c);
    GroupScenarios(summary, group.key, keys, c);
    ScenarioLists(summary, c.key);
  }

  lemma FinishedKey(summary: Summary, keys: seq<CellKey>, group: Group, key: CellKey)
    requires Finished(summary, keys, group) && key in summary.cells && KeyOf(key) == group.key
    ensures HasCell(group, key)
  {
    assert key in ToSet(summary.order);
    FinishedMembers(summary, keys, group, CellOf(summary, key));
  }

  lemma FinishedRun(summary: Summary, keys: seq<CellKey>, group: Group, run: RunId)
    requires Finished(summary, keys, group)
    ensures run in group.runs <==> exists c :: c in group.cells && run in RunsOf(c.executions)
  {
    GroupOfRuns(summary, group.key, keys, run);
    if k :| k in keys && run in RunsOf(summary.cells[k]) {
      FinishedMembers(summary, keys, group, CellOf(summary, k));
    }
    if c :| c in group.cells && run in RunsOf(c.executions) {
      FinishedMembers(summary, keys, group, c);
    }
  }

  lemma FinishedHolds(summary: Summary, keys: seq<CellKey>, group: Group)
    requires Finished(summary, keys, group)
    ensures GroupHolds(summary.cells, group)
  {
    GroupOfCells(summary, group.key, keys);
    GroupOfScenarios(summary, group.key, keys, "");
    assert |multiset(group.cells)| == |group.cells|;
    forall c | c in group.cells {
      FinishedCell(summary, keys, group, c);
    }
    forall key | key in summary.cells && KeyOf(key) == group.key
      ensures HasCell(group, key)
    {
      FinishedKey(summary, keys, group, key);
    }
    forall run
      ensures run in group.runs <==> exists c :: c in group.cells && run in RunsOf(c.executions)
    {
      FinishedRun(summary, keys, group, run);
    }
  }

  lemma GroupScenarios(summary: Summary, key: GroupKey, keys: seq<CellKey>, c: GroupCell)
    requires Ordered(summary) && forall k :: k in keys ==> k in summary.cells
    requires Compatible(GroupOf(summary, key, keys).cells) && c.key in keys && c == CellOf(summary, c.key)
    ensures ToSet(c.scenarios) == ScenariosOf(c.executions) == ToSet(GroupOf(summary, key, keys).scenarioOrder)
  {
    GroupOfCells(summary, key, keys);
    ScenarioLists(summary, c.key);
    forall scenario
      ensures scenario in GroupOf(summary, key, keys).scenarioOrder <==> scenario in c.scenarios
    {
      GroupOfScenarios(summary, key, keys, scenario);
      forall k | k in keys
        ensures CellOf(summary, k).scenarios == c.scenarios
      {
        SameListInGroup(summary, key, keys, k, c);
      }
    }
  }

  lemma SameListInGroup(summary: Summary, key: GroupKey, keys: seq<CellKey>, k: CellKey, c: GroupCell)
    requires k in keys && forall k :: k in keys ==> k in summary.cells
    requires Compatible(GroupOf(summary, key, keys).cells) && c.key in keys && c == CellOf(summary, c.key)
    ensures CellOf(summary, k).scenarios == c.scenarios
  {
    GroupOfCells(summary, key, keys);
    var i :| 0 <= i < |keys| && keys[i] == k;
    var j :| 0 <= j < |keys| && keys[j] == c.key;
    var cells := GroupOf(summary, key, keys).cells;
    assert cells[i].scenarios == cells[0].scenarios == cells[j].scenarios;
  }
}
