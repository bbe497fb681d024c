/** Complete sets of rows that the TLS builder accepts and whose export is refused. */
module TlsExamples {
  import opened Common
  import opened Workloads
  import opened Metadata
  import opened Placement
  import opened Cells
  import opened ScenarioGroups
  import opened TlsComparison
  import opened TlsBuilder
  import opened TlsCells
  import opened TlsSamples
  import opened FileNames
  import opened Axes
  import opened TlsCharts
  import opened TlsQuery

  const PEAK_RUN := RunId("20260101T000000Z", LinearPeak, "a")

  const GOOD_FIELDS: map<FieldName, string> := map[
    TlsVersion := "1.3", TlsGroup := "X25519", GroupSource := "openssl-preflight", ElapsedMs := "1000",
    HttpVersion := "2", Endpoint := "/ping", PayloadBytes := "1", ConnectionReuse := "true", Resumption := "false"]

  /** An execution of the run in scenario `b`. */
  function PeakRow(b: string, index: int): Row {
    Row(RecordKey(PEAK_RUN, b + "-go", "go", "linear", index, "c"), GOOD_FIELDS)
  }

  function PeakRows(b: string): (rows: seq<Row>)
    ensures |rows| == 6 && forall i :: 0 <= i < 6 ==> rows[i] == PeakRow(b, i + 1)
  {
    seq(6, i requires 0 <= i < 6 => PeakRow(b, i + 1))
  }

  lemma PeakRowsAre(b: string, row: Row)
    ensures row in multiset(PeakRows(b)) <==> 1 <= row.key.index <= 6 && row == PeakRow(b, row.key.index)
    ensures multiset(PeakRows(b))[row] <= 1
  {
    var rows := PeakRows(b);
    forall i, j | 0 <= i < j < |rows|
      ensures rows[i] != rows[j]
    {
      assert rows[i].key.index == i + 1 && rows[j].key.index == j + 1;
    }
    DistinctIffNoRepeats(rows);
    if 1 <= row.key.index <= 6 && row == PeakRow(b, row.key.index) {
      assert rows[row.key.index - 1] == row;
    }
    assert row in rows <==> row in multiset(rows);
  }

  lemma PeakSlot(b: string, index: int)
    requires 1 <= index <= 6
    ensures RowOk(PeakRow(b, index)) && ScenarioOf(PeakRow(b, index)) == b && StackOf(PeakRow(b, index)) == Go
    ensures ProfileOf(PeakRow(b, index)) == (if index % 2 == 1 then Fixed100 else Expandable1000, (index - 1) / 2)
    ensures CompatibilityOf(PeakRow(b, index)) == CompatibilityOf(PeakRow(b, 1))
  {
    var row := PeakRow(b, index);
    assert StackIdentity("go") == Some(Go);
    assert ScenarioSuffix(Go) == "-go" && row.key.scenario == b + "-go";
    assert (ProfileTag(LinearPeak, index), index) in ExpectedExecutions(LinearPeak);
    assert HasAll(row, REQUIRED);
  }

  ghost function PeakIds(): multiset<RunId> {
    multiset{PEAK_RUN}
  }

  lemma PeakSupply(b: string)
    ensures Supplied(PeakIds(), multiset(PeakRows(b))) == multiset(PeakRows(b))
  {
    forall row
      ensures Supplied(PeakIds(), multiset(PeakRows(b)))[row] == multiset(PeakRows(b))[row]
    {
      PeakRowsAre(b, row);
    }
  }

  lemma PeakReports(b: string)
    ensures Reported(multiset(PeakRows(b)), PEAK_RUN) == ExpectedExecutions(LinearPeak)
  {
    var rows := multiset(PeakRows(b));
    forall row | row in rows
      ensures row.Run() == PEAK_RUN && row.Execution() in ExpectedExecutions(LinearPeak)
    {
      PeakRowsAre(b, row);
      assert (ProfileTag(LinearPeak, row.key.index), row.key.index) in ExpectedExecutions(LinearPeak);
    }
    forall index | 1 <= index <= 6
      ensures (ProfileTag(LinearPeak, index), index) in Reported(rows, PEAK_RUN)
    {
      PeakRowsAre(b, PeakRow(b, index));
      assert PeakRow(b, index) in rows && PeakRow(b, index).Execution() == ("linear", index);
    }
  }

  /** The parser reads the elapsed time of the rows as a positive number. */
  predicate ReadsElapsed(num: Number) {
    match num("1000")
    case Some(v) => v > 0.0
    case None => false
  }

  /** The cells of the two profiles of the family. */
  datatype Pairing = Pairing(odd: CellKey, even: CellKey)

  function PeakSlotOf(b: string, keys: Pairing, index: int): Slot
    requires 1 <= index <= 6
  {
    Slot(if index % 2 == 1 then keys.odd else keys.even, SlotId(b, Go, (index - 1) / 2))
  }

  /** The six executions pass the checks and take two profiles' three repeats. */
  ghost predicate Places(b: string, rules: Rules, keys: Pairing) {
    && NameOf(keys.odd) != NameOf(keys.even)
    && KeyOf(keys.odd) == KeyOf(keys.even)
    && forall index {:trigger PeakRow(b, index)} :: 1 <= index <= 6 ==>
         rules.ok(PeakRow(b, index)) && rules.slot(PeakRow(b, index)) == PeakSlotOf(b, keys, index)
  }

  function PeakCells(b: string): Pairing {
    Pairing(SlotOf(PeakRow(b, 1)).cell, SlotOf(PeakRow(b, 2)).cell)
  }

  lemma PeakKeys(b: string)
    ensures NameOf(PeakCells(b).odd) == Name(LinearPeak, Fixed100)
    ensures NameOf(PeakCells(b).even) == Name(LinearPeak, Expandable1000)
    ensures KeyOf(PeakCells(b).odd) == KeyOf(PeakCells(b).even)
  {
    PeakSlot(b, 1);
    PeakSlot(b, 2);
  }

  lemma PeakSlotIs(b: string, index: int)
    requires 1 <= index <= 6
    ensures SlotOf(PeakRow(b, index)) == PeakSlotOf(b, PeakCells(b), index)
  {
    PeakSlot(b, index);
    PeakSlot(b, 1);
    PeakSlot(b, 2);
  }

  lemma PeakOk(b: string, num: Number, index: int)
    requires ReadsElapsed(num) && 1 <= index <= 6
    ensures Measuring(RULES, num).ok(PeakRow(b, index))
  {
    PeakSlot(b, index);
    assert NameOf(SlotOf(PeakRow(b, index)).cell) != BYTE_CHART;
    assert PositiveElapsed(RULES.execution(PeakRow(b, index)), num);
    assert RULES.ok(PeakRow(b, index)) && RULES.slot(PeakRow(b, index)) == SlotOf(PeakRow(b, index));
    assert Measured(RULES, num, PeakRow(b, index));
  }

  lemma PeakPlaced(b: string, num: Number)
    requires ReadsElapsed(num)
    ensures Places(b, Measuring(RULES, num), PeakCells(b))
  {
    PeakKeys(b);
    forall index {:trigger PeakRow(b, index)} | 1 <= index <= 6
      ensures Measuring(RULES, num).ok(PeakRow(b, index))
      ensures Measuring(RULES, num).slot(PeakRow(b, index)) == PeakSlotOf(b, PeakCells(b), index)
    {
      PeakOk(b, num, index);
      PeakSlotIs(b, index);
    }
  }

  lemma PeakConsistent(b: string, rules: Rules, keys: Pairing)
    requires Places(b, rules, keys)
    ensures Consistent(multiset(PeakRows(b)), rules.ok, rules.slot)
  {
    var rows := multiset(PeakRows(b));
    forall row | row in rows
      ensures rules.ok(row) && rows[row] == 1
    {
      PeakRowsAre(b, row);
    }
    forall row, other | row in rows && other in rows && rules.slot(row) == rules.slot(other)
      ensures row == other
    {
      PeakRowsAre(b, row);
      PeakRowsAre(b, other);
      assert PeakSlotOf(b, keys, row.key.index) == PeakSlotOf(b, keys, other.key.index);
    }
  }

  lemma PlacedIsPeak(b: string, rules: Rules, keys: Pairing, slot: Slot) returns (index: int)
    requires Places(b, rules, keys) && Consistent(multiset(PeakRows(b)), rules.ok, rules.slot)
    requires slot in Placed(multiset(PeakRows(b)), rules.ok, rules.slot)
    ensures 1 <= index <= 6 && slot == PeakSlotOf(b, keys, index)
  {
    var row := Placed(multiset(PeakRows(b)), rules.ok, rules.slot)[slot];
    PeakRowsAre(b, row);
    index := row.key.index;
  }

  lemma PeakIsPlaced(b: string, rules: Rules, keys: Pairing, index: int)
    requires Places(b, rules, keys) && Consistent(multiset(PeakRows(b)), rules.ok, rules.slot) && 1 <= index <= 6
    ensures PeakSlotOf(b, keys, index) in Placed(multiset(PeakRows(b)), rules.ok, rules.slot)
  {
    PeakRowsAre(b, PeakRow(b, index));
  }

  lemma Twin(b: string, keys: Pairing, index: int, repeat: nat) returns (twin: int)
    requires 1 <= index <= 6 && repeat < 3
    ensures 1 <= twin <= 6 && Repeated(PeakSlotOf(b, keys, index), repeat) == PeakSlotOf(b, keys, twin)
    ensures PeakSlotOf(b, keys, index).id.repeat < 3
  {
    twin := if index % 2 == 1 then 2 * repeat + 1 else 2 * repeat + 2;
  }

  lemma PeakRepeated(b: string, rules: Rules, keys: Pairing, slot: Slot, repeat: nat)
    requires Places(b, rules, keys) && Consistent(multiset(PeakRows(b)), rules.ok, rules.slot)
    requires slot in Placed(multiset(PeakRows(b)), rules.ok, rules.slot) && repeat < 3
    ensures slot.id.repeat < 3 && Repeated(slot, repeat) in Placed(multiset(PeakRows(b)), rules.ok, rules.slot)
  {
    var index := PlacedIsPeak(b, rules, keys, slot);
    var twin := Twin(b, keys, index, repeat);
    PeakIsPlaced(b, rules, keys, twin);
  }

  lemma PeakRepeats(b: string, rules: Rules, keys: Pairing)
    requires Places(b, rules, keys) && Consistent(multiset(PeakRows(b)), rules.ok, rules.slot)
    ensures AllRepeats(Placed(multiset(PeakRows(b)), rules.ok, rules.slot).Keys)
  {
    var slots := Placed(multiset(PeakRows(b)), rules.ok, rules.slot).Keys;
    forall slot, repeat: nat {:trigger Repeated(slot, repeat)} | slot in slots && repeat < 3
      ensures Repeated(slot, repeat) in slots
    {
      PeakRepeated(b, rules, keys, slot, repeat);
    }
    forall slot | slot in slots
      ensures slot.id.repeat < 3
    {
      PeakRepeated(b, rules, keys, slot, 0);
    }
  }

  lemma PeakAgree(b: string, rules: Rules, keys: Pairing)
    requires Places(b, rules, keys)
    ensures RowsAgree(rules, multiset(PeakRows(b)))
  {
    forall x, y | x in multiset(PeakRows(b)) && y in multiset(PeakRows(b))
      ensures Agree(rules, x, y)
    {
      PeakRowsAre(b, x);
      PeakRowsAre(b, y);
    }
  }

  lemma PeakAcceptable(b: string, rules: Rules, keys: Pairing)
    requires Places(b, rules, keys)
    ensures TlsAcceptable(rules, PeakIds(), multiset(PeakRows(b)))
  {
    PeakSupply(b);
    PeakReports(b);
    PeakConsistent(b, rules, keys);
    PeakRepeats(b, rules, keys);
    PeakAgree(b, rules, keys);
  }

  /** The builder accepts the rows, whatever their scenario. */
  lemma PeakAccepted(b: string, num: Number)
    requires ReadsElapsed(num)
    ensures TlsAcceptable(Measuring(RULES, num), PeakIds(), multiset(PeakRows(b)))
  {
    PeakPlaced(b, num);
    PeakAcceptable(b, Measuring(RULES, num), PeakCells(b));
  }

  // ------------------------------------------------------------- accepted and not exported

  lemma PeakUnnamed()
    ensures !Nameable(PeakIds(), multiset(PeakRows("S2_vm")))
  {
    PeakRowsAre("S2_vm", PeakRow("S2_vm", 1));
    PeakSlot("S2_vm", 1);
    assert "S2_vm"[0] == 'S' && !ValidSlug("S2_vm");
  }

  /** The builder accepts these rows; whatever the database pools and whatever is on disk, their export is refused. */
  lemma AcceptedNotExported(outside: Outside, disk: set<string>)
    requires ReadsElapsed(outside.num)
    ensures TlsAcceptable(Measuring(RULES, outside.num), PeakIds(), multiset(PeakRows("S2_vm")))
    ensures !RowsExport(outside, disk, PeakIds(), multiset(PeakRows("S2_vm")))
  {
    PeakAccepted("S2_vm", outside.num);
    PeakUnnamed();
  }

  // ------------------------------------------------------------- a refusal that leaves files

  function ProfileAt(index: int): Profile {
    if index % 2 == 1 then Fixed100 else Expandable1000
  }

  /** What an execution's rules keep of the six rows, as far as the profile goes. */
  ghost predicate KeepsProfiles(b: string, rules: Rules) {
    forall index {:trigger rules.execution(PeakRow(b, index))} :: 1 <= index <= 6 ==>
      rules.execution(PeakRow(b, index)).profile == ProfileAt(index)
  }

  lemma PeakProfiles(b: string, num: Number)
    ensures KeepsProfiles(b, Measuring(RULES, num))
  {
    forall index | 1 <= index <= 6
      ensures Measuring(RULES, num).execution(PeakRow(b, index)).profile == ProfileAt(index)
    {
      PeakSlot(b, index);
    }
  }

  lemma PeakExecution(b: string, rules: Rules, keys: Pairing, cells: CellMap, index: int)
    requires Places(b, rules, keys) && KeepsProfiles(b, rules) && 1 <= index <= 6
    requires Acceptable(rules, PeakIds(), multiset(PeakRows(b)))
    requires cells == CellsFrom(rules, PeakIds(), multiset(PeakRows(b)))
    ensures var slot := PeakSlotOf(b, keys, index);
      Occupied(cells, slot) && cells[slot.cell][slot.id].profile == ProfileAt(index)
  {
    PeakRowsAre(b, PeakRow(b, index));
    RowOccupies(rules, PeakIds(), multiset(PeakRows(b)), PeakRow(b, index));
  }

  lemma PairRunsAre(executions: Executions, pair: Pair)
    requires SlotId(pair.0, pair.1, 0) in executions && SlotId(pair.0, pair.1, 1) in executions
    requires SlotId(pair.0, pair.1, 2) in executions
    ensures PairRuns(executions, pair) != []
    ensures PairRuns(executions, pair)[0] == executions[SlotId(pair.0, pair.1, 0)]
  {
    forall k: nat | k < 3
      ensures SlotId(pair.0, pair.1, k) in executions
    {
      if k == 0 {
      } else if k == 1 {
      } else {
        assert k == 2;
      }
    }
  }

  /** The six executions are in their slots. */
  ghost predicate Sits(b: string, keys: Pairing, cells: CellMap) {
    forall index {:trigger PeakSlotOf(b, keys, index)} :: 1 <= index <= 6 ==>
      var slot := PeakSlotOf(b, keys, index);
      Occupied(cells, slot) && cells[slot.cell][slot.id].profile == ProfileAt(index)
  }

  lemma PeakSits(b: string, rules: Rules, keys: Pairing)
    requires Places(b, rules, keys) && KeepsProfiles(b, rules)
    requires Acceptable(rules, PeakIds(), multiset(PeakRows(b)))
    ensures Sits(b, keys, CellsFrom(rules, PeakIds(), multiset(PeakRows(b))))
  {
    var cells := CellsFrom(rules, PeakIds(), multiset(PeakRows(b)));
    forall index | 1 <= index <= 6
      ensures var slot := PeakSlotOf(b, keys, index);
        Occupied(cells, slot) && cells[slot.cell][slot.id].profile == ProfileAt(index)
    {
      PeakExecution(b, rules, keys, cells, index);
    }
  }

  /** The executions that are pooled in either cell. */
  lemma PeakRuns(b: string, keys: Pairing, cells: CellMap, first: int)
    requires Sits(b, keys, cells) && 1 <= first <= 2
    ensures var key := PeakSlotOf(b, keys, first).cell;
      && key in cells && PairRuns(cells[key], (b, Go)) != []
      && PairRuns(cells[key], (b, Go))[0].profile == ProfileAt(first)
  {
    var key := PeakSlotOf(b, keys, first).cell;
    assert PeakSlotOf(b, keys, first) == Slot(key, SlotId(b, Go, 0));
    assert PeakSlotOf(b, keys, first + 2) == Slot(key, SlotId(b, Go, 1));
    assert PeakSlotOf(b, keys, first + 4) == Slot(key, SlotId(b, Go, 2));
    PairRunsAre(cells[key], (b, Go));
  }

  /** The database has percentiles for the first profile only. */
  const HALF_POOLED: (SummaryMetric, seq<Execution>) -> Option<Percentiles> :=
    (metric: SummaryMetric, runs: seq<Execution>) =>
      if runs != [] && runs[0].profile == Fixed100 then Some(Percentiles.Percentiles(1.0, 2.0, 3.0)) else None

  lemma OccupiedIsPeak(b: string, rules: Rules, keys: Pairing, slot: Slot) returns (index: int)
    requires Places(b, rules, keys) && Acceptable(rules, PeakIds(), multiset(PeakRows(b)))
    requires Occupied(CellsFrom(rules, PeakIds(), multiset(PeakRows(b))), slot)
    ensures 1 <= index <= 6 && slot == PeakSlotOf(b, keys, index)
  {
    var row := PlaceHasRow(rules, PeakIds(), multiset(PeakRows(b)), slot);
    PeakRowsAre(b, row);
    index := row.key.index;
  }

  /** The cells hold the six executions and no other. */
  ghost predicate SitsOnly(b: string, keys: Pairing, cells: CellMap) {
    && Sits(b, keys, cells)
    && (forall key {:trigger cells[key]} :: key in cells ==> cells[key] != map[])
    && forall slot {:trigger Occupied(cells, slot)} :: Occupied(cells, slot) ==>
         exists index :: 1 <= index <= 6 && slot == PeakSlotOf(b, keys, index)
  }

  lemma PeakSitsOnly(b: string, rules: Rules, keys: Pairing)
    requires Places(b, rules, keys) && KeepsProfiles(b, rules)
    requires Acceptable(rules, PeakIds(), multiset(PeakRows(b)))
    ensures SitsOnly(b, keys, CellsFrom(rules, PeakIds(), multiset(PeakRows(b))))
  {
    var cells := CellsFrom(rules, PeakIds(), multiset(PeakRows(b)));
    PeakSits(b, rules, keys);
    CellsOfTabulates(TableOf(rules, Supplied(PeakIds(), multiset(PeakRows(b)))));
    forall slot | Occupied(cells, slot)
      ensures exists index :: 1 <= index <= 6 && slot == PeakSlotOf(b, keys, index)
    {
      var index := OccupiedIsPeak(b, rules, keys, slot);
    }
  }

  /** With an empty directory, an execution exports exactly when it is one of the first profile. */
  lemma HalfExports(b: string, keys: Pairing, cells: CellMap, outside: Outside, index: int)
    requires Sits(b, keys, cells) && ValidSlug(b) && outside.pooled == HALF_POOLED && 1 <= index <= 6
    ensures Occupied(cells, PeakSlotOf(b, keys, index))
    ensures SlotExports(outside, {}, cells, PeakSlotOf(b, keys, index)) <==> index % 2 == 1
  {
    var slot := PeakSlotOf(b, keys, index);
    var first := if index % 2 == 1 then 1 else 2;
    assert PeakSlotOf(b, keys, first).cell == slot.cell && PairOf(slot.id) == (b, Go);
    PeakRuns(b, keys, cells, first);
    assert forall metric :: CanPool(outside, metric, PairRuns(cells[slot.cell], (b, Go))) <==> index % 2 == 1;
    assert Fresh({}, outside.reusable)(ChartFile.Percentiles(Http, NameOf(slot.cell), b));
  }

  lemma FirstProfileExports(b: string, keys: Pairing, cells: CellMap, outside: Outside, cell: TlsCell)
    requires SitsOnly(b, keys, cells) && ValidSlug(b) && outside.pooled == HALF_POOLED
    requires NameOf(keys.odd) != NameOf(keys.even)
    requires TlsCellFits(cells, cell) && cell.name == NameOf(keys.odd)
    ensures CellExports(outside, {}, cell)
  {
    forall c, id | c in cell.configurations && id in cell.configurations[c]
      ensures PairExports(outside, {}, cell.name, cell.configurations[c], PairOf(id))
    {
      assert Holds(cells, cell, c);
      var slot := Slot(SourceKey(cell.name, cell.compatibility, c), id);
      assert Occupied(cells, slot) && NameOf(slot.cell) == cell.name;
      var index :| 1 <= index <= 6 && slot == PeakSlotOf(b, keys, index);
      HalfExports(b, keys, cells, outside, index);
    }
  }

  /** A cell that is shown is one of the two. */
  lemma ShownIsPeak(b: string, keys: Pairing, cells: CellMap, cell: TlsCell)
    requires SitsOnly(b, keys, cells) && TlsCellFits(cells, cell)
    ensures cell.name == NameOf(keys.odd) || cell.name == NameOf(keys.even)
  {
    var c :| c in cell.configurations;
    assert Holds(cells, cell, c);
    var key := SourceKey(cell.name, cell.compatibility, c);
    assert cells[key] != map[];
    var id :| id in cells[key];
    assert Occupied(cells, Slot(key, id)) && NameOf(key) == cell.name;
  }

  lemma FirstIsShown(b: string, keys: Pairing, cells: CellMap, order: seq<string>, built: seq<TlsCell>) returns (j: nat)
    requires Sits(b, keys, cells) && Compares(cells, order, built)
    ensures j < |built| && built[j].name == NameOf(keys.odd) && b in PlanOf(built[j]).scenarios
  {
    assert PeakSlotOf(b, keys, 1) == Slot(keys.odd, SlotId(b, Go, 0));
    var cell := CellIsShown(cells, order, built, keys.odd);
    j :| 0 <= j < |built| && built[j] == cell;
    assert TlsCellFits(cells, cell);
    var id := SlotId(b, Go, 0);
    assert (id.scenario, id.stack) in PairsOf(cell.configurations);
    assert (b, Go) in cell.pairs;
  }

  /** The export stops at the second profile, and the first one's files stay. */
  lemma StopsAtSecond(
    b: string, keys: Pairing, cells: CellMap, outside: Outside, order: seq<string>, built: seq<TlsCell>,
    after: set<string>, i: nat)
    requires SitsOnly(b, keys, cells) && ValidSlug(b) && outside.pooled == HALF_POOLED
    requires ProfileRank(NameOf(keys.odd)) < ProfileRank(NameOf(keys.even))
    requires Compares(cells, order, built) && StoppedAt(built, outside, {}, after, i)
    ensures built[i].name == NameOf(keys.even)
    ensures FileName(ChartFile.Percentiles(Http, NameOf(keys.odd), b)) in after
  {
    assert TlsCellFits(cells, built[i]);
    ShownIsPeak(b, keys, cells, built[i]);
    if built[i].name == NameOf(keys.odd) {
      FirstProfileExports(b, keys, cells, outside, built[i]);
      assert false;
    }
    var j := FirstIsShown(b, keys, cells, order, built);
    assert TlsRank(built[j]) < TlsRank(built[i]);
    assert j < i;
    FileIsThere(built, i, j, b);
  }

  lemma FileIsThere(built: seq<TlsCell>, i: nat, j: nat, b: string)
    requires j < i <= |built| && b in PlanOf(built[j]).scenarios
    ensures FileName(ChartFile.Percentiles(Http, built[j].name, b)) in AllNames(PlansOf(built)[..i])
  {
    var file, plan := ChartFile.Percentiles(Http, built[j].name, b), PlanOf(built[j]);
    FilesExact(plan, file);
    NameListed(FilesOf(plan), FileName(file));
    assert FileName(file) in PlanNames(plan) && PlansOf(built)[..i][j] == plan;
  }

  lemma HalfIsRefused(b: string, num: Number, outside: Outside)
    requires ReadsElapsed(num) && outside.num == num && outside.pooled == HALF_POOLED && ValidSlug(b)
    ensures !RowsExport(outside, {}, PeakIds(), multiset(PeakRows(b)))
  {
    PeakAccepted(b, num);
    PeakPlaced(b, num);
    PeakProfiles(b, num);
    var rules := Measuring(RULES, num);
    var cells := CellsFrom(rules, PeakIds(), multiset(PeakRows(b)));
    PeakSits(b, rules, PeakCells(b));
    HalfExports(b, PeakCells(b), cells, outside, 2);
    SlotsAreRows(outside, {}, PeakIds(), multiset(PeakRows(b)));
  }

  /** Whatever rules place the executions and keep their profiles: the cells are in order. */
  ghost predicate Seating(b: string, rules: Rules, keys: Pairing) {
    Places(b, rules, keys) && KeepsProfiles(b, rules)
  }

  lemma PeakSeating(b: string, num: Number)
    requires ReadsElapsed(num)
    ensures Seating(b, Measuring(RULES, num), PeakCells(b))
  {
    PeakPlaced(b, num);
    PeakProfiles(b, num);
  }

  lemma SeatedCells(b: string, rules: Rules, keys: Pairing, cells: CellMap)
    requires Seating(b, rules, keys) && Acceptable(rules, PeakIds(), multiset(PeakRows(b)))
    requires cells == CellsFrom(rules, PeakIds(), multiset(PeakRows(b)))
    ensures SitsOnly(b, keys, cells)
  {
    PeakSitsOnly(b, rules, keys);
  }

  lemma ProfilesRanked(b: string)
    ensures ProfileRank(NameOf(PeakCells(b).odd)) < ProfileRank(NameOf(PeakCells(b).even))
  {
    PeakKeys(b);
  }

  lemma StoppedLeaves(b: string, outside: Outside, after: set<string>, built: seq<TlsCell>, i: nat)
    requires ReadsElapsed(outside.num) && outside.pooled == HALF_POOLED && ValidSlug(b)
    requires BuiltFrom(outside, PeakIds(), multiset(PeakRows(b)), built) && StoppedAt(built, outside, {}, after, i)
    ensures FileName(ChartFile.Percentiles(Http, NameOf(PeakCells(b).odd), b)) in after
  {
    var cells := CellsFrom(Measuring(RULES, outside.num), PeakIds(), multiset(PeakRows(b)));
    var order: seq<string> :| ScenarioList(cells, order) && Compares(cells, order, built);
    PeakSeating(b, outside.num);
    SeatedCells(b, Measuring(RULES, outside.num), PeakCells(b), cells);
    ProfilesRanked(b);
    StopsAtSecond(b, PeakCells(b), cells, outside, order, built, after, i);
  }

  /**
    With a scenario for file names and percentiles for the first profile only, the builder accepts the
    rows, their export into an empty directory is refused, and the files of the first profile stay.
   */
  lemma RefusedExportLeavesFiles(b: string, outside: Outside, after: set<string>)
    requires ReadsElapsed(outside.num) && outside.pooled == HALF_POOLED && ValidSlug(b)
    ensures TlsAcceptable(Measuring(RULES, outside.num), PeakIds(), multiset(PeakRows(b)))
    ensures !RowsExport(outside, {}, PeakIds(), multiset(PeakRows(b)))
    ensures Stopped(outside, {}, PeakIds(), multiset(PeakRows(b)), after) ==>
              FileName(ChartFile.Percentiles(Http, Name(LinearPeak, Fixed100), b)) in after
  {
    PeakAccepted(b, outside.num);
    HalfIsRefused(b, outside.num, outside);
    PeakKeys(b);
    forall built, i: nat | BuiltFrom(outside, PeakIds(), multiset(PeakRows(b)), built) &&
        StoppedAt(built, outside, {}, after, i)
      ensures FileName(ChartFile.Percentiles(Http, NameOf(PeakCells(b).odd), b)) in after
    {
      StoppedLeaves(b, outside, after, built, i);
    }
  }
}
