/**
  What the builders' cells say of the rows, in the columns' own words: which rows pass, which cell and
  slot a row goes to, and what is kept of it, each without the functions the builder uses for that.
 */
module RowReadings {
  import opened Common
  import opened Workloads
  import opened Metadata
  import opened Placement
  import opened Cells

  // ------------------------------------------------------------- tags

  /** A stack tag begins with its stack's name. */
  predicate StackReads(tag: string, stack: Stack) {
    match stack
    case Dotnet => |tag| >= 3 && tag[..3] == "net"
    case Java => |tag| >= 4 && tag[..4] == "java"
    case Go => |tag| >= 2 && tag[..2] == "go"
    case Rust => |tag| >= 4 && tag[..4] == "rust"
  }

  /** A scenario with its stack, for example s2-vm-go. */
  function WithStack(scenario: string, stack: Stack): string {
    match stack
    case Dotnet => scenario + "-net"
    case Java => scenario + "-java"
    case Go => scenario + "-go"
    case Rust => scenario + "-rust"
  }

  lemma StackReadsIs(tag: string, stack: Stack)
    ensures StackReads(tag, stack) <==> StackIdentity(tag) == Some(stack)
  {
    OneStackPerTag(tag, stack);
  }

  lemma ScenarioReads(tag: string, stack: Stack, scenario: string)
    ensures tag == WithStack(scenario, stack) <==>
            EndsWith(tag, ScenarioSuffix(stack)) && RemoveSuffix(tag, ScenarioSuffix(stack)) == scenario
  {
    var suffix := ScenarioSuffix(stack);
    assert WithStack(scenario, stack) == scenario + suffix;
    if tag == scenario + suffix {
      assert tag[|tag| - |suffix|..] == suffix && tag[..|tag| - |suffix|] == scenario;
    }
    if EndsWith(tag, suffix) {
      assert tag == tag[..|tag| - |suffix|] + suffix;
    }
  }

  // ------------------------------------------------------------- one row

  /** The evidence, the TLS configuration and the columns every row needs; a race needs three more. */
  predicate Evident(row: Row) {
    && row.Get(GroupSource) == "openssl-preflight"
    && row.Get(TlsVersion) in {"1.2", "1.3"} && row.Get(TlsGroup) in {"P-256", "X25519"}
    && row.Get(ElapsedMs) != "" && row.Get(HttpVersion) != "" && row.Get(Endpoint) != "" && row.Get(PayloadBytes) != ""
    && row.Get(ConnectionReuse) != "" && row.Get(Resumption) != ""
    && (row.key.run.family == Race ==>
          row.Get(ConfiguredVus) != "" && row.Get(ConfiguredIterations) != "" && row.Get(MaxDuration) != "")
  }

  /** The row is repeat `repeat` of `profile`, run against `scenario` on `stack`. */
  predicate RowReads(row: Row, scenario: string, stack: Stack, profile: Profile, repeat: nat) {
    && Evident(row)
    && StackReads(row.key.stack, stack) && row.key.scenario == WithStack(scenario, stack)
    && Plays(row.key.run.family, row.key.profile, row.key.index, profile, repeat)
  }

  /** The settings that rows of one cell share. */
  function SettingsOf(row: Row): Compatibility {
    [(HttpVersion, row.Get(HttpVersion)), (Endpoint, row.Get(Endpoint)), (PayloadBytes, row.Get(PayloadBytes)),
     (ConnectionReuse, row.Get(ConnectionReuse)), (Resumption, row.Get(Resumption)),
     (ConfiguredVus, row.Get(ConfiguredVus)), (MaxDuration, row.Get(MaxDuration)),
     (ConfiguredRate, row.Get(ConfiguredRate)), (ConfiguredPeakRate, row.Get(ConfiguredPeakRate))]
    + if row.key.run.family == Race then [(ConfiguredIterations, row.Get(ConfiguredIterations))] else []
  }

  function SlotRead(row: Row, scenario: string, stack: Stack, profile: Profile, repeat: nat): Slot {
    Slot(CellKey(row.Get(TlsVersion), row.Get(TlsGroup), row.key.run.family, profile, SettingsOf(row)),
         SlotId(scenario, stack, repeat))
  }

  function ExecutionRead(row: Row, scenario: string, stack: Stack, profile: Profile, repeat: nat): Execution {
    Execution(row.key.run, scenario, row.key.scenario, stack, row.key.stack, row.key.run.family, profile,
              row.key.profile, repeat, row.key.index, row.Get(ElapsedMs), None)
  }

  lemma RequiredAre(row: Row)
    ensures HasAll(row, REQUIRED) <==>
            (row.Get(ElapsedMs) != "" && row.Get(HttpVersion) != "" && row.Get(Endpoint) != "" &&
             row.Get(PayloadBytes) != "" && row.Get(ConnectionReuse) != "" && row.Get(Resumption) != "")
  {
    assert REQUIRED[0] == ElapsedMs && REQUIRED[1] == HttpVersion && REQUIRED[2] == Endpoint;
    assert REQUIRED[3] == PayloadBytes && REQUIRED[4] == ConnectionReuse && REQUIRED[5] == Resumption;
  }

  lemma RequiredForRacesAre(row: Row)
    ensures HasAll(row, REQUIRED_RACE) <==>
            (row.Get(ConfiguredVus) != "" && row.Get(ConfiguredIterations) != "" && row.Get(MaxDuration) != "")
  {
    assert REQUIRED_RACE[0] == ConfiguredVus && REQUIRED_RACE[1] == ConfiguredIterations;
    assert REQUIRED_RACE[2] == MaxDuration;
  }

  lemma EvidentIs(row: Row)
    ensures Evident(row) <==>
            (VerifiedSource(row.Get(GroupSource)) && SupportedVersion(row.Get(TlsVersion)) &&
             SupportedGroup(row.Get(TlsGroup)) && HasAll(row, REQUIRED) &&
             (row.Run().family == Race ==> HasAll(row, REQUIRED_RACE)))
  {
    RequiredAre(row);
    RequiredForRacesAre(row);
  }

  lemma SettingsAre(row: Row)
    ensures CompatibilityOf(row) == SettingsOf(row)
  {
  }

  /** A row that reads so passes the builder's checks, and goes to the slot and execution it reads. */
  lemma RowIsRead(row: Row, scenario: string, stack: Stack, profile: Profile, repeat: nat)
    ensures RowReads(row, scenario, stack, profile, repeat) <==>
            (RowOk(row) && SlotOf(row) == SlotRead(row, scenario, stack, profile, repeat))
    ensures RowReads(row, scenario, stack, profile, repeat) ==>
              ExecutionOf(row) == ExecutionRead(row, scenario, stack, profile, repeat)
  {
    EvidentIs(row);
    SettingsAre(row);
    StackReadsIs(row.key.stack, stack);
    ScenarioReads(row.key.scenario, stack, scenario);
    SlotsArePlayed(row.key.run.family, row.key.profile, row.key.index, profile, repeat);
  }

  /** The checks accept exactly the rows that read as some execution of the plan. */
  lemma RowOkIsRead(row: Row)
    ensures RowOk(row) <==> exists scenario, stack, profile, repeat :: RowReads(row, scenario, stack, profile, repeat)
  {
    if RowOk(row) {
      var (profile, repeat) := ProfileOf(row);
      SettingsAre(row);
      RowIsRead(row, ScenarioOf(row), StackOf(row), profile, repeat);
    }
    forall scenario, stack, profile, repeat: nat | RowReads(row, scenario, stack, profile, repeat)
      ensures RowOk(row)
    {
      RowIsRead(row, scenario, stack, profile, repeat);
    }
  }

  // ------------------------------------------------------------- the rows of a comparison

  /** Every supplied row is the execution it reads as, in the cell and slot it reads as. */
  lemma RowsAreRead(
    ids: multiset<RunId>, rows: multiset<Row>, row: Row)
    returns (scenario: string, stack: Stack, profile: Profile, repeat: nat)
    requires Acceptable(RULES, ids, rows) && row in rows && row.Run() in ids
    ensures RowReads(row, scenario, stack, profile, repeat)
    ensures var cells, slot := CellsFrom(RULES, ids, rows), SlotRead(row, scenario, stack, profile, repeat);
      Occupied(cells, slot) && cells[slot.cell][slot.id] == ExecutionRead(row, scenario, stack, profile, repeat)
  {
    RowOccupies(RULES, ids, rows, row);
    assert row in Supplied(ids, rows) && RULES.ok(row);
    SettingsAre(row);
    scenario, stack := ScenarioOf(row), StackOf(row);
    profile, repeat := ProfileOf(row).0, ProfileOf(row).1;
    RowIsRead(row, scenario, stack, profile, repeat);
  }

  /** Nothing else is in the cells. */
  lemma ExecutionsAreRead(ids: multiset<RunId>, rows: multiset<Row>, slot: Slot)
    returns (row: Row, scenario: string, stack: Stack, profile: Profile, repeat: nat)
    requires Acceptable(RULES, ids, rows) && Occupied(CellsFrom(RULES, ids, rows), slot)
    ensures row in rows && row.Run() in ids && RowReads(row, scenario, stack, profile, repeat)
    ensures slot == SlotRead(row, scenario, stack, profile, repeat)
  {
    OccupiedByRow(RULES, ids, rows, slot);
    row := Placed(Supplied(ids, rows), RULES.ok, RULES.slot)[slot];
    assert row in Supplied(ids, rows) && RULES.ok(row);
    SettingsAre(row);
    scenario, stack := ScenarioOf(row), StackOf(row);
    profile, repeat := ProfileOf(row).0, ProfileOf(row).1;
    RowIsRead(row, scenario, stack, profile, repeat);
  }

  /** The settings that decide whether executions can be compared; races also share their iterations. */
  predicate SameSettings(a: Row, b: Row) {
    && a.Get(HttpVersion) == b.Get(HttpVersion) && a.Get(Endpoint) == b.Get(Endpoint)
    && a.Get(PayloadBytes) == b.Get(PayloadBytes) && a.Get(ConnectionReuse) == b.Get(ConnectionReuse)
    && a.Get(Resumption) == b.Get(Resumption) && a.Get(ConfiguredVus) == b.Get(ConfiguredVus)
    && a.Get(MaxDuration) == b.Get(MaxDuration) && a.Get(ConfiguredRate) == b.Get(ConfiguredRate)
    && a.Get(ConfiguredPeakRate) == b.Get(ConfiguredPeakRate)
    && (a.key.run.family == Race ==> a.Get(ConfiguredIterations) == b.Get(ConfiguredIterations))
  }

  lemma SettingsEqual(a: Row, b: Row)
    requires a.key.run.family == b.key.run.family
    ensures SettingsOf(a) == SettingsOf(b) <==> SameSettings(a, b)
  {
    var x, y := SettingsOf(a), SettingsOf(b);
    if x == y {
      assert x[0].1 == y[0].1 && x[1].1 == y[1].1 && x[2].1 == y[2].1 && x[3].1 == y[3].1 && x[4].1 == y[4].1;
      assert x[5].1 == y[5].1 && x[6].1 == y[6].1 && x[7].1 == y[7].1 && x[8].1 == y[8].1;
      if a.key.run.family == Race {
        assert x[9].1 == y[9].1;
      }
    }
  }

  /** Rows of one cell were run with the same TLS configuration, profile and settings, and only those. */
  lemma CellsShareSettings(
    a: Row, b: Row, scenario: string, stack: Stack, profile: Profile, repeat: nat, scenario': string, stack': Stack,
    profile': Profile, repeat': nat)
    requires RowReads(a, scenario, stack, profile, repeat) && RowReads(b, scenario', stack', profile', repeat')
    ensures SlotOf(a).cell == SlotOf(b).cell <==>
            (a.key.run.family == b.key.run.family && profile == profile' &&
             a.Get(TlsVersion) == b.Get(TlsVersion) && a.Get(TlsGroup) == b.Get(TlsGroup) && SameSettings(a, b))
  {
    RowIsRead(a, scenario, stack, profile, repeat);
    RowIsRead(b, scenario', stack', profile', repeat');
    if a.key.run.family == b.key.run.family {
      SettingsEqual(a, b);
    }
  }

  // ------------------------------------------------------------- rows of one cell

  /** What a row that passes its checks reads as. */
  lemma OneReading(row: Row) returns (scenario: string, stack: Stack, profile: Profile, repeat: nat)
    requires RowOk(row)
    ensures RowReads(row, scenario, stack, profile, repeat)
    ensures scenario == ScenarioOf(row) && stack == StackOf(row) && (profile, repeat) == ProfileOf(row)
    ensures SlotOf(row) == SlotRead(row, scenario, stack, profile, repeat)
    ensures forall scenario', stack', profile', repeat': nat :: RowReads(row, scenario', stack', profile', repeat') ==>
              (scenario', stack', profile', repeat') == (scenario, stack, profile, repeat)
  {
    scenario, stack, profile, repeat := ScenarioOf(row), StackOf(row), ProfileOf(row).0, ProfileOf(row).1;
    SettingsAre(row);
    RowIsRead(row, scenario, stack, profile, repeat);
    forall scenario', stack', profile', repeat': nat | RowReads(row, scenario', stack', profile', repeat')
      ensures (scenario', stack', profile', repeat') == (scenario, stack, profile, repeat)
    {
      RowIsRead(row, scenario', stack', profile', repeat');
    }
  }

  /** A row of the given place that was run in the TLS configuration and with the settings of `a`. */
  predicate Twins(a: Row, b: Row, scenario: string, stack: Stack, profile: Profile, k: nat) {
    && RowReads(b, scenario, stack, profile, k)
    && a.Get(TlsVersion) == b.Get(TlsVersion) && a.Get(TlsGroup) == b.Get(TlsGroup) && SameSettings(a, b)
  }

  ghost predicate HasTwin(
    ids: multiset<RunId>, rows: multiset<Row>, a: Row, scenario: string, stack: Stack, profile: Profile, k: nat)
  {
    exists b :: b in rows && b.key.run in ids && Twins(a, b, scenario, stack, profile, k)
  }

  lemma TwinIsSlot(a: Row, b: Row, scenario: string, stack: Stack, k: nat)
    requires RowOk(a) && RowOk(b)
    ensures SlotOf(b) == Slot(SlotOf(a).cell, SlotId(scenario, stack, k)) <==>
            Twins(a, b, scenario, stack, ProfileOf(a).0, k)
  {
    SettingsAre(a);
    SettingsAre(b);
    RowIsRead(a, ScenarioOf(a), StackOf(a), ProfileOf(a).0, ProfileOf(a).1);
    RowIsRead(b, ScenarioOf(b), StackOf(b), ProfileOf(b).0, ProfileOf(b).1);
    RowIsRead(b, scenario, stack, ProfileOf(a).0, k);
    if a.key.run.family == b.key.run.family {
      SettingsEqual(a, b);
    }
  }

  /** Such a row is supplied exactly when its slot in the cell of `a` is taken. */
  lemma TwinIsPlaced(ids: multiset<RunId>, rows: multiset<Row>, a: Row, scenario: string, stack: Stack, k: nat)
    requires Acceptable(RULES, ids, rows) && RowOk(a)
    ensures HasTwin(ids, rows, a, scenario, stack, ProfileOf(a).0, k) <==>
            Slot(SlotOf(a).cell, SlotId(scenario, stack, k)) in Placed(Supplied(ids, rows), RULES.ok, RULES.slot)
  {
    var placed := Placed(Supplied(ids, rows), RULES.ok, RULES.slot);
    var slot := Slot(SlotOf(a).cell, SlotId(scenario, stack, k));
    if slot in placed {
      var b := placed[slot];
      assert b in Supplied(ids, rows) && RULES.ok(b);
      TwinIsSlot(a, b, scenario, stack, k);
    }
    if b :| b in rows && b.key.run in ids && Twins(a, b, scenario, stack, ProfileOf(a).0, k) {
      SupplyOk(RULES, ids, rows, b);
      TwinIsSlot(a, b, scenario, stack, k);
    }
  }

  lemma RepeatIsSmall(a: Row)
    requires RowOk(a)
    ensures SlotOf(a).id.repeat < 3
  {
    var scenario, stack, profile, repeat := OneReading(a);
  }

  // ------------------------------------------------------------- what is accepted

  ghost predicate IsReadable(row: Row) {
    exists scenario, stack, profile, repeat :: RowReads(row, scenario, stack, profile, repeat)
  }

  /** Two rows read as the same repeat in the same cell. */
  ghost predicate SamePlace(a: Row, b: Row) {
    exists scenario, stack, profile, repeat ::
      && RowReads(a, scenario, stack, profile, repeat) && RowReads(b, scenario, stack, profile, repeat)
      && SlotRead(a, scenario, stack, profile, repeat) == SlotRead(b, scenario, stack, profile, repeat)
  }

  /** The run reports exactly the executions of the plan. */
  ghost predicate ReportsThePlan(rows: multiset<Row>, id: RunId) {
    forall tag, index :: ReportsOne(rows, id, tag, index) <==>
      exists profile, repeat :: Plays(id.family, tag, index, profile, repeat)
  }

  ghost predicate ReportsOne(rows: multiset<Row>, id: RunId, tag: string, index: int) {
    exists row :: row in rows && row.key.run == id && row.key.profile == tag && row.key.index == index
  }

  /** Each run once and with the plan's executions; each of its rows once, readable, and alone in its place. */
  ghost predicate RowsAcceptable(ids: multiset<RunId>, rows: multiset<Row>) {
    && (forall id {:trigger ReportsThePlan(rows, id)} :: id in ids ==> ids[id] == 1 && ReportsThePlan(rows, id))
    && (forall row {:trigger IsReadable(row)} ::
          row in rows && row.key.run in ids ==> rows[row] == 1 && IsReadable(row))
    && (forall a, b {:trigger SamePlace(a, b)} ::
          a in rows && b in rows && a.key.run in ids && b.key.run in ids && SamePlace(a, b) ==> a == b)
  }

  lemma PlaceIsSlot(a: Row, b: Row)
    requires RowOk(a) && RowOk(b)
    ensures SamePlace(a, b) <==> SlotOf(a) == SlotOf(b)
  {
    var (profile, repeat) := ProfileOf(a);
    SettingsAre(a);
    RowIsRead(a, ScenarioOf(a), StackOf(a), profile, repeat);
    if SlotOf(a) == SlotOf(b) {
      var (profile', repeat') := ProfileOf(b);
      SettingsAre(b);
      RowIsRead(b, ScenarioOf(b), StackOf(b), profile', repeat');
      assert RowReads(b, ScenarioOf(a), StackOf(a), profile, repeat);
    }
    if scenario, stack, other, k: nat :|
      RowReads(a, scenario, stack, other, k) && RowReads(b, scenario, stack, other, k) &&
      SlotRead(a, scenario, stack, other, k) == SlotRead(b, scenario, stack, other, k) {
      RowIsRead(a, scenario, stack, other, k);
      RowIsRead(b, scenario, stack, other, k);
    }
  }

  lemma ReportsIs(rows: multiset<Row>, id: RunId)
    ensures ReportsThePlan(rows, id) <==> Reported(rows, id) == ExpectedExecutions(id.family)
  {
    forall tag, index
      ensures ReportsOne(rows, id, tag, index) <==> (tag, index) in Reported(rows, id)
      ensures (tag, index) in ExpectedExecutions(id.family) <==>
              exists profile, repeat :: Plays(id.family, tag, index, profile, repeat)
    {
      ExpectedArePlayed(id.family, tag, index);
      if row :| row in rows && row.key.run == id && row.key.profile == tag && row.key.index == index {
        assert row.Execution() in Reported(rows, id);
      }
    }
    if ReportsThePlan(rows, id) {
      forall x
        ensures x in Reported(rows, id) <==> x in ExpectedExecutions(id.family)
      {
        assert x == (x.0, x.1);
        assert ReportsOne(rows, id, x.0, x.1) <==>
          exists profile, repeat :: Plays(id.family, x.0, x.1, profile, repeat);
      }
    }
  }

  lemma SuppliedAre(ids: multiset<RunId>, rows: multiset<Row>, row: Row)
    ensures row in Supplied(ids, rows) <==> row in rows && row.key.run in ids
    ensures row in Supplied(ids, rows) ==> Supplied(ids, rows)[row] == rows[row]
  {
  }

  lemma RowsOnce(ids: multiset<RunId>, rows: multiset<Row>, row: Row)
    requires RowsAcceptable(ids, rows) && row in Supplied(ids, rows)
    ensures Supplied(ids, rows)[row] == 1 && RowOk(row)
  {
    SuppliedAre(ids, rows, row);
    assert IsReadable(row);
    RowOkIsRead(row);
  }

  lemma ReadableIsConsistent(ids: multiset<RunId>, rows: multiset<Row>)
    requires RowsAcceptable(ids, rows)
    ensures Consistent(Supplied(ids, rows), RowOk, SlotOf)
  {
    forall row | row in Supplied(ids, rows)
      ensures Supplied(ids, rows)[row] == 1 && RowOk(row)
    {
      RowsOnce(ids, rows, row);
    }
    forall a, b | a in Supplied(ids, rows) && b in Supplied(ids, rows) && SlotOf(a) == SlotOf(b)
      ensures a == b
    {
      SuppliedAre(ids, rows, a);
      SuppliedAre(ids, rows, b);
      RowsOnce(ids, rows, a);
      RowsOnce(ids, rows, b);
      PlaceIsSlot(a, b);
    }
  }

  lemma ConsistentRowReads(ids: multiset<RunId>, rows: multiset<Row>, row: Row)
    requires Consistent(Supplied(ids, rows), RowOk, SlotOf) && row in rows && row.key.run in ids
    ensures row in Supplied(ids, rows) && rows[row] == 1 && RowOk(row) && IsReadable(row)
  {
    SuppliedAre(ids, rows, row);
    RowOkIsRead(row);
  }

  lemma ConsistentIsReadable(ids: multiset<RunId>, rows: multiset<Row>)
    requires Consistent(Supplied(ids, rows), RowOk, SlotOf)
    requires forall id :: id in ids ==> ids[id] == 1 && ReportsThePlan(rows, id)
    ensures RowsAcceptable(ids, rows)
  {
    forall row | row in rows && row.key.run in ids
      ensures rows[row] == 1 && IsReadable(row)
    {
      ConsistentRowReads(ids, rows, row);
    }
    forall a, b | a in rows && b in rows && a.key.run in ids && b.key.run in ids && SamePlace(a, b)
      ensures a == b
    {
      ConsistentRowReads(ids, rows, a);
      ConsistentRowReads(ids, rows, b);
      PlaceIsSlot(a, b);
    }
  }

  /** The builder accepts exactly such rows. */
  lemma AcceptableIsRead(ids: multiset<RunId>, rows: multiset<Row>)
    ensures Acceptable(RULES, ids, rows) <==> RowsAcceptable(ids, rows)
  {
    forall id {
      ReportsIs(rows, id);
    }
    if RowsAcceptable(ids, rows) {
      ReadableIsConsistent(ids, rows);
      assert forall id :: id in ids ==> ReportsThePlan(rows, id);
    } else if Acceptable(RULES, ids, rows) {
      ConsistentIsReadable(ids, rows);
    }
  }
}
