/** build_tls_comparison: the cells of the supplied runs as one comparison across TLS configurations. */
module TlsComparison {
  import opened Common
  import opened Workloads
  import opened Metadata
  import opened Cells
  import opened ScenarioGroups
  import opened Notes

  // ------------------------------------------------------------- vocabulary

  /** float(text) when it is finite; `None` where it raises or is not. */
  type Number = string -> Option<real>

  datatype Name = Name(family: Family, profile: Profile)

  const TLS_CONFIGURATIONS: seq<GroupKey> :=
    [GroupKey("1.2", "P-256"), GroupKey("1.2", "X25519"), GroupKey("1.3", "P-256"), GroupKey("1.3", "X25519")]

  predicate IsConfiguration(c: GroupKey) {
    c in TLS_CONFIGURATIONS
  }

  const BYTE_CHART := Name(Baseline, Flat)

  function NameOf(key: CellKey): Name {
    Name(key.family, key.profile)
  }

  /** An execution with the cell it is in. */
  datatype Entry = Entry(key: CellKey, execution: Execution)

  function Entries(key: CellKey, executions: Executions): set<Entry> {
    set id | id in executions :: Entry(key, executions[id])
  }

  /** The entries of the listed cells. */
  ghost function AllEntries(cells: CellMap, keys: seq<CellKey>): set<Entry> {
    set key, id | key in keys && key in cells && id in cells[key] :: Entry(key, cells[key][id])
  }

  function EntryRun(x: Entry): RunId {
    x.execution.run
  }

  /** What must be the same in all executions of a run. */
  function RunIdentity(x: Entry): (string, string, GroupKey) {
    (x.execution.scenarioTag, x.execution.stackTag, KeyOf(x.key))
  }

  function EntryPair(x: Entry): (Name, string, Stack) {
    (NameOf(x.key), x.execution.scenario, x.execution.stack)
  }

  function EntryStackTag(x: Entry): string {
    x.execution.stackTag
  }

  // ------------------------------------------------------------- counters

  /** The last row of every (run, execution index). */
  type RowIndex = map<(RunId, int), Row>

  function RecordKeyOf(row: Row): (RunId, int) {
    (row.Run(), row.key.index)
  }

  ghost predicate IndexesRows(records: RowIndex, rows: seq<Row>) {
    && (forall row :: row in rows ==> RecordKeyOf(row) in records)
    && (forall k :: k in records ==> IsLast(records[k], k, rows))
  }

  ghost predicate IsLast(row: Row, k: (RunId, int), rows: seq<Row>) {
    exists i :: 0 <= i < |rows| && rows[i] == row && RecordKeyOf(row) == k &&
                forall j :: i < j < |rows| ==> RecordKeyOf(rows[j]) != k
  }

  method IndexRows(rows: seq<Row>) returns (records: RowIndex)
    ensures IndexesRows(records, rows)
  {
    records := map[];
    for i := 0 to |rows|
      invariant IndexesRows(records, rows[..i])
    {
      IndexNext(records, rows[..i], rows[i]);
      assert rows[..i + 1] == rows[..i] + [rows[i]];
      records := records[RecordKeyOf(rows[i]) := rows[i]];
    }
    assert rows[..|rows|] == rows;
  }

  lemma StillLast(row: Row, k: (RunId, int), rows: seq<Row>, next: Row)
    requires IsLast(row, k, rows) && RecordKeyOf(next) != k
    ensures IsLast(row, k, rows + [next])
  {
    var i :| 0 <= i < |rows| && rows[i] == row && RecordKeyOf(row) == k && forall j :: i < j < |rows| ==>
        RecordKeyOf(rows[j]) != k;
    assert (rows + [next])[i] == row;
  }

  lemma NowLast(row: Row, rows: seq<Row>)
    ensures IsLast(row, RecordKeyOf(row), rows + [row])
  {
    assert (rows + [row])[|rows|] == row;
  }

  lemma IndexNext(records: RowIndex, rows: seq<Row>, row: Row)
    requires IndexesRows(records, rows)
    ensures IndexesRows(records[RecordKeyOf(row) := row], rows + [row])
  {
    NowLast(row, rows);
    forall k | k in records && k != RecordKeyOf(row)
      ensures IsLast(records[k], k, rows + [row])
    {
      StillLast(records[k], k, rows, row);
    }
  }

  /** exact_count: a non-negative whole number. */
  function Count(text: string, num: Number): Option<nat> {
    match num(text)
    case Some(v) => if v >= 0.0 && v.Floor as real == v then Some(v.Floor) else None
    case None => None
  }

  /** The byte chart counters of a record; `None` where the builder raises. */
  function CountersOf(row: Row, num: Number): Option<Counters> {
    if row.Get(ConfiguredIterations) == "" || row.Get(DataSent) == "" || row.Get(DataReceived) == "" then None else
    match (Count(row.Get(ConfiguredIterations), num), Count(row.Get(DataSent), num), Count(row.Get(DataReceived), num))
    case (Some(requests), Some(sent), Some(received)) => if requests == 0 then None
        else Some(Counters(requests, sent, received))
    case _ => None
  }

  /** The columns of a record read as these counters: whole numbers, and at least one request. */
  predicate Counts(row: Row, num: Number, c: Counters) {
    && row.Get(ConfiguredIterations) != "" && num(row.Get(ConfiguredIterations)) == Some(c.requests as real)
    && row.Get(DataSent) != "" && num(row.Get(DataSent)) == Some(c.sent as real)
    && row.Get(DataReceived) != "" && num(row.Get(DataReceived)) == Some(c.received as real)
    && c.requests > 0
  }

  lemma CountReads(text: string, num: Number, n: nat)
    ensures Count(text, num) == Some(n) <==> num(text) == Some(n as real)
  {
    assert (n as real).Floor == n;
  }

  lemma CountersRead(row: Row, num: Number, c: Counters)
    ensures CountersOf(row, num) == Some(c) <==> Counts(row, num, c)
  {
    CountReads(row.Get(ConfiguredIterations), num, c.requests);
    CountReads(row.Get(DataSent), num, c.sent);
    CountReads(row.Get(DataReceived), num, c.received);
  }

  function RecordCounters(records: RowIndex, num: Number, e: Execution): Option<Counters> {
    if (e.run, e.index) in records then CountersOf(records[(e.run, e.index)], num) else None
  }

  predicate PositiveElapsed(e: Execution, num: Number) {
    match num(e.elapsed)
    case Some(v) => v > 0.0
    case None => false
  }

  /** The checks on one execution that do not involve another. */
  predicate EntryOk(records: RowIndex, num: Number, x: Entry) {
    && PositiveElapsed(x.execution, num)
    && (NameOf(x.key) == BYTE_CHART ==> RecordCounters(records, num, x.execution).Some?)
  }

  function Fill(records: RowIndex, num: Number, x: Entry): Execution {
    if NameOf(x.key) == BYTE_CHART then x.execution.(counters := RecordCounters(records, num, x.execution))
        else x.execution
  }

  function FillAll(records: RowIndex, num: Number, key: CellKey, executions: Executions): Executions {
    map id | id in executions :: Fill(records, num, Entry(key, executions[id]))
  }

  // ------------------------------------------------------------- the executions of one cell

  datatype Noting = Noting(runs: map<RunId, (string, string, GroupKey)>, stacks: map<(Name, string, Stack), string>)

  /** All executions of a run have one identity; a pair has one stack tag in all cells of a profile. */
  ghost predicate EntriesAgree(entries: set<Entry>) {
    Constant(entries, EntryRun, RunIdentity) && Constant(entries, EntryPair, EntryStackTag)
  }

  ghost predicate NotesHold(notes: Noting, seen: set<Entry>) {
    Noted(notes.runs, seen, EntryRun, RunIdentity) && Noted(notes.stacks, seen, EntryPair, EntryStackTag)
  }

  lemma AgreePart(part: set<Entry>, whole: set<Entry>)
    requires part <= whole && EntriesAgree(whole)
    ensures EntriesAgree(part)
  {
  }

  method NoteExecution(
    notes: Noting, x: Entry, records: RowIndex, num: Number, ghost seen: set<Entry>)
    returns (r: Result<Noting>)
    requires NotesHold(notes, seen)
    ensures r.Ok? ==> NotesHold(r.value, seen + {x}) && EntryOk(records, num, x)
    ensures r.Rejected? ==> !EntriesAgree(seen + {x}) || !EntryOk(records, num, x)
  {
    NotedNext(notes.runs, seen, EntryRun, RunIdentity, x);
    NotedNext(notes.stacks, seen, EntryPair, EntryStackTag, x);
    var sameRun, runs := SetDefault(notes.runs, EntryRun(x), RunIdentity(x));
    if !sameRun {
      return Rejected("Inconsistent scenario/stack/TLS metadata");
    }
    var sameStack, stacks := SetDefault(notes.stacks, EntryPair(x), EntryStackTag(x));
    if !sameStack {
      return Rejected("Incompatible runtime stack tags for TLS comparison");
    }
    if !PositiveElapsed(x.execution, num) {
      return Rejected("Non-finite or non-positive elapsed time");
    }
    if NameOf(x.key) == BYTE_CHART && RecordCounters(records, num, x.execution).None? {
      return Rejected("Missing, invalid or zero byte-chart counter");
    }
    r := Ok(Noting(runs, stacks));
  }

  ghost predicate AllOk(records: RowIndex, num: Number, entries: set<Entry>) {
    forall x {:trigger EntryOk(records, num, x)} :: x in entries ==> EntryOk(records, num, x)
  }

  function Restrict(executions: Executions, ids: set<SlotId>): Executions {
    map id | id in ids && id in executions :: executions[id]
  }

  lemma EntriesNext(key: CellKey, executions: Executions, done: set<SlotId>, id: SlotId)
    requires id in executions
    ensures Entries(key, Restrict(executions, done)) + {Entry(key, executions[id])} ==
        Entries(key, Restrict(executions, done + {id}))
    ensures Entries(key, Restrict(executions, done + {id})) <= Entries(key, executions)
  {
    var some, more := Restrict(executions, done), Restrict(executions, done + {id});
    forall x
      ensures x in Entries(key, more) <==> x in Entries(key, some) || x == Entry(key, executions[id])
    {
      if i :| i in some && x == Entry(key, some[i]) {
        assert i in more && more[i] == some[i];
      }
      assert id in more;
    }
  }

  /** What one more execution of the cell adds. */
  lemma NoteNext(
    seen: set<Entry>, key: CellKey, executions: Executions, done: set<SlotId>, id: SlotId, records: RowIndex,
    num: Number)
    requires id in executions
    ensures var x, noted := Entry(key, executions[id]), seen + Entries(key, Restrict(executions, done));
      && noted + {x} == seen + Entries(key, Restrict(executions, done + {id}))
      && (!EntriesAgree(noted + {x}) ==> !EntriesAgree(seen + Entries(key, executions)))
      && (!EntryOk(records, num, x) ==> !AllOk(records, num, Entries(key, executions)))
      && (AllOk(records, num, Entries(key, Restrict(executions, done))) && EntryOk(records, num, x) ==>
            AllOk(records, num, Entries(key, Restrict(executions, done + {id}))))
  {
    var x, noted := Entry(key, executions[id]), seen + Entries(key, Restrict(executions, done));
    EntriesNext(key, executions, done, id);
    assert x in Entries(key, executions);
    if EntriesAgree(seen + Entries(key, executions)) {
      AgreePart(noted + {x}, seen + Entries(key, executions));
    }
  }

  /** The loop over the executions of a source cell; a dict has no order here. */
  method NoteCell(
    notes: Noting, key: CellKey, executions: Executions, records: RowIndex, num: Number, ghost seen: set<Entry>)
    returns (r: Result<Noting>)
    requires NotesHold(notes, seen)
    ensures r.Ok? ==>
              NotesHold(r.value, seen + Entries(key, executions)) && AllOk(records, num, Entries(key, executions))
    ensures r.Rejected? ==> !EntriesAgree(seen + Entries(key, executions)) || !AllOk(records, num,
        Entries(key, executions))
  {
    r := Ok(notes);
    var done: set<SlotId> := {};
    assert seen + Entries(key, Restrict(executions, done)) == seen;
    while done != executions.Keys && r.Ok?
      invariant done <= executions.Keys
      invariant r.Ok? ==> NotesHold(r.value, seen + Entries(key, Restrict(executions, done)))
      invariant r.Ok? ==> AllOk(records, num, Entries(key, Restrict(executions, done)))
      invariant r.Rejected? ==> !EntriesAgree(seen + Entries(key, executions)) || !AllOk(records, num,
          Entries(key, executions))
      decreases |executions.Keys - done|
    {
      var id :| id in executions && id !in done;
      NoteNext(seen, key, executions, done, id, records, num);
      r := NoteExecution(r.value, Entry(key, executions[id]), records, num,
          seen + Entries(key, Restrict(executions, done)));
      done := done + {id};
    }
    assert r.Ok? ==> Restrict(executions, done) == executions;
  }

  // ------------------------------------------------------------- cells into profiles

  datatype Profiled = Profiled(compatibility: Compatibility, configurations: map<GroupKey, Executions>)

  type Profiles = map<Name, Profiled>

  function SourceKey(name: Name, compatibility: Compatibility, configuration: GroupKey): CellKey {
    CellKey(configuration.version, configuration.group, name.family, name.profile, compatibility)
  }

  /** The cells of one profile have one set of compatible settings. */
  ghost predicate ProfilesAgree(keys: set<CellKey>) {
    forall a, b {:trigger NameOf(a), NameOf(b)} :: a in keys && b in keys && NameOf(a) == NameOf(b) ==>
        a.compatibility == b.compatibility
  }

  /** Every (scenario, stack) of a cell has its three Profile Runs. */
  predicate Complete(executions: Executions) {
    forall id {:trigger RepeatsIn(executions, id.scenario, id.stack)} :: id in executions ==>
        RepeatsIn(executions, id.scenario, id.stack) == {0, 1, 2}
  }

  /** The listed cells, and only they, are the configurations of their profiles. */
  ghost predicate ProfilesHold(profiles: Profiles, keys: seq<CellKey>, cells: CellMap) {
    && (forall key :: key in keys ==> key in cells)
    && (forall key {:trigger ProfileHas(profiles, key, cells[key])} :: key in keys ==>
        ProfileHas(profiles, key, cells[key]))
    && (forall name {:trigger ProfileIs(profiles[name], name, keys)} :: name in profiles ==>
        ProfileIs(profiles[name], name, keys))
  }

  ghost predicate ProfileHas(profiles: Profiles, key: CellKey, executions: Executions) {
    && NameOf(key) in profiles && profiles[NameOf(key)].compatibility == key.compatibility
    && KeyOf(key) in profiles[NameOf(key)].configurations
    && profiles[NameOf(key)].configurations[KeyOf(key)] == executions
  }

  ghost predicate ProfileIs(profiled: Profiled, name: Name, keys: seq<CellKey>) {
    && profiled.configurations != map[]
    && forall c :: c in profiled.configurations ==> SourceKey(name, profiled.compatibility, c) in keys
  }

  function AddProfile(profiles: Profiles, key: CellKey, executions: Executions): Profiles {
    var profiled := if NameOf(key) in profiles then profiles[NameOf(key)] else Profiled(key.compatibility, map[]);
    profiles[NameOf(key) := profiled.(configurations := profiled.configurations[KeyOf(key) := executions])]
  }

  /** A profile with other settings comes from an earlier cell that does not agree with this one. */
  lemma SettingsDiffer(profiles: Profiles, keys: seq<CellKey>, cells: CellMap, key: CellKey)
    requires ProfilesHold(profiles, keys, cells) && key in cells && forall k :: k in keys ==> k in cells
    requires NameOf(key) in profiles && profiles[NameOf(key)].compatibility != key.compatibility
    ensures !ProfilesAgree(cells.Keys)
  {
    var profiled := profiles[NameOf(key)];
    assert ProfileIs(profiled, NameOf(key), keys);
    var c :| c in profiled.configurations;
    var other := SourceKey(NameOf(key), profiled.compatibility, c);
    assert other in cells && NameOf(other) == NameOf(key);
  }

  /** The check for a duplicate configuration never fires: the cell would be there twice. */
  lemma NoDuplicateConfiguration(profiles: Profiles, keys: seq<CellKey>, cells: CellMap, key: CellKey)
    requires ProfilesHold(profiles, keys, cells) && key !in keys
    requires NameOf(key) in profiles && profiles[NameOf(key)].compatibility == key.compatibility
    ensures KeyOf(key) !in profiles[NameOf(key)].configurations
  {
    assert ProfileIs(profiles[NameOf(key)], NameOf(key), keys);
    assert SourceKey(NameOf(key), key.compatibility, KeyOf(key)) == key;
  }

  lemma AddedHas(profiles: Profiles, keys: seq<CellKey>, cells: CellMap, key: CellKey, k: CellKey)
    requires ProfilesHold(profiles, keys, cells) && key in cells && key !in keys
    requires NameOf(key) in profiles ==> profiles[NameOf(key)].compatibility == key.compatibility
    requires k in keys || k == key
    ensures k in cells && ProfileHas(AddProfile(profiles, key, cells[key]), k, cells[k])
  {
    if k in keys {
      assert ProfileHas(profiles, k, cells[k]);
      if NameOf(k) == NameOf(key) {
        assert KeyOf(k) == KeyOf(key) ==> k == key;
      }
    }
  }

  lemma AddedIs(profiles: Profiles, keys: seq<CellKey>, cells: CellMap, key: CellKey, name: Name)
    requires ProfilesHold(profiles, keys, cells) && key in cells
    requires NameOf(key) in profiles ==> profiles[NameOf(key)].compatibility == key.compatibility
    requires name in AddProfile(profiles, key, cells[key])
    ensures ProfileIs(AddProfile(profiles, key, cells[key])[name], name, keys + [key])
  {
    var added := AddProfile(profiles, key, cells[key]);
    if name in profiles {
      assert ProfileIs(profiles[name], name, keys);
    }
    if name == NameOf(key) {
      assert KeyOf(key) in added[name].configurations;
      assert SourceKey(name, key.compatibility, KeyOf(key)) == key;
    }
  }

  lemma AddProfileHolds(profiles: Profiles, keys: seq<CellKey>, cells: CellMap, key: CellKey)
    requires ProfilesHold(profiles, keys, cells) && key in cells && key !in keys
    requires NameOf(key) in profiles ==> profiles[NameOf(key)].compatibility == key.compatibility
    ensures ProfilesHold(AddProfile(profiles, key, cells[key]), keys + [key], cells)
  {
    var added := AddProfile(profiles, key, cells[key]);
    forall k | k in keys + [key]
      ensures k in cells && ProfileHas(added, k, cells[k])
    {
      AddedHas(profiles, keys, cells, key, k);
    }
    forall name | name in added
      ensures ProfileIs(added[name], name, keys + [key])
    {
      AddedIs(profiles, keys, cells, key, name);
    }
  }

  // ------------------------------------------------------------- all cells

  datatype Merge = Merge(profiles: Profiles, order: seq<Name>, notes: Noting)

  function Filled(records: RowIndex, num: Number, cells: CellMap): CellMap {
    map key | key in cells :: FillAll(records, num, key, cells[key])
  }

  ghost predicate AllComplete(cells: CellMap, keys: seq<CellKey>) {
    && (forall key :: key in keys ==> key in cells)
    && (forall key {:trigger Complete(cells[key])} :: key in keys ==> Complete(cells[key]))
  }

  ghost predicate Listed(profiles: Profiles, order: seq<Name>) {
    Distinct(order) && ToSet(order) == profiles.Keys
  }

  /** The first cells of the summary passed all checks and stand in their profiles. */
  ghost predicate Merged(cells: CellMap, records: RowIndex, num: Number, keys: seq<CellKey>, m: Merge) {
    && ProfilesHold(m.profiles, keys, Filled(records, num, cells))
    && NotesHold(m.notes, AllEntries(cells, keys))
    && AllComplete(cells, keys)
    && AllOk(records, num, AllEntries(cells, keys))
    && Listed(m.profiles, m.order)
  }

  ghost function Merges(cells: CellMap, records: RowIndex, num: Number, keys: seq<CellKey>): iset<Merge> {
    iset m: Merge | Merged(cells, records, num, keys, m)
  }

  ghost function EntriesIn(cells: CellMap): set<Entry> {
    set key, id | key in cells && id in cells[key] :: Entry(key, cells[key][id])
  }

  /** What the cells have to satisfy, given the records. */
  ghost predicate Comparable(cells: CellMap, records: RowIndex, num: Number) {
    && ProfilesAgree(cells.Keys)
    && (forall key {:trigger Complete(cells[key])} :: key in cells ==> Complete(cells[key]))
    && EntriesAgree(EntriesIn(cells))
    && AllOk(records, num, EntriesIn(cells))
  }

  ghost function Comparables(records: RowIndex, num: Number): iset<CellMap> {
    iset cells: CellMap | Comparable(cells, records, num)
  }

  lemma AllEntriesNext(cells: CellMap, keys: seq<CellKey>, key: CellKey)
    requires key in cells
    ensures AllEntries(cells, keys + [key]) == AllEntries(cells, keys) + Entries(key, cells[key])
    ensures AllEntries(cells, keys + [key]) <= EntriesIn(cells)
  {
    forall x
      ensures x in AllEntries(cells, keys + [key]) <==> x in AllEntries(cells, keys) || x in Entries(key, cells[key])
    {
      if x in Entries(key, cells[key]) {
        var id :| id in cells[key] && x == Entry(key, cells[key][id]);
        assert key in keys + [key];
      }
    }
  }

  /** A cell that fails its checks shows that the cells are not comparable. */
  lemma NotedCellRefutes(cells: CellMap, records: RowIndex, num: Number, keys: seq<CellKey>, key: CellKey)
    requires key in cells
    requires !EntriesAgree(AllEntries(cells, keys) + Entries(key, cells[key])) || !AllOk(records, num,
        Entries(key, cells[key]))
    ensures !Comparable(cells, records, num)
  {
    AllEntriesNext(cells, keys, key);
    if Comparable(cells, records, num) {
      AgreePart(AllEntries(cells, keys + [key]), EntriesIn(cells));
    }
  }

  function Merging(
    records: RowIndex, num: Number, m: Merge, key: CellKey, executions: Executions, notes: Noting): Merge
  {
    Merge(AddProfile(m.profiles, key, FillAll(records, num, key, executions)), AppendNew(m.order, NameOf(key)), notes)
  }

  lemma MergedNext(
    cells: CellMap, records: RowIndex, num: Number, keys: seq<CellKey>, m: Merge, key: CellKey, notes: Noting)
    requires Merged(cells, records, num, keys, m) && key in cells && key !in keys && Complete(cells[key])
    requires NameOf(key) in m.profiles ==> m.profiles[NameOf(key)].compatibility == key.compatibility
    requires NotesHold(notes, AllEntries(cells, keys) + Entries(key, cells[key]))
    requires AllOk(records, num, Entries(key, cells[key]))
    ensures Merged(cells, records, num, keys + [key], Merging(records, num, m, key, cells[key], notes))
  {
    AllEntriesNext(cells, keys, key);
    AddProfileHolds(m.profiles, keys, Filled(records, num, cells), key);
  }

  method MergeCell(cells: CellMap, records: RowIndex, num: Number, m: Merge, key: CellKey, ghost keys: seq<CellKey>)
    returns (r: Result<Merge>)
    requires m in Merges(cells, records, num, keys) && key in cells && key !in keys
    requires forall k :: k in keys ==> k in cells
    ensures r.Ok? ==> r.value in Merges(cells, records, num, keys + [key])
    ensures r.Rejected? ==> cells !in Comparables(records, num)
  {
    var executions := cells[key];
    if NameOf(key) in m.profiles {
      if m.profiles[NameOf(key)].compatibility != key.compatibility {
        SettingsDiffer(m.profiles, keys, Filled(records, num, cells), key);
        return Rejected("Incompatible TLS comparison settings");
      }
      NoDuplicateConfiguration(m.profiles, keys, Filled(records, num, cells), key);
      assert KeyOf(key) !in m.profiles[NameOf(key)].configurations;
    }
    if !Complete(executions) {
      return Rejected("Incomplete Profile Runs");
    }
    var notes := NoteCell(m.notes, key, executions, records, num, AllEntries(cells, keys));
    if notes.Rejected? {
      NotedCellRefutes(cells, records, num, keys, key);
      return Rejected(notes.reason);
    }
    MergedNext(cells, records, num, keys, m, key, notes.value);
    r := Ok(Merging(records, num, m, key, executions, notes.value));
  }

  lemma NothingMerged(cells: CellMap, records: RowIndex, num: Number)
    ensures Merge(map[], [], Noting(map[], map[])) in Merges(cells, records, num, [])
  {
  }

  lemma AllMerged(cells: CellMap, records: RowIndex, num: Number, keys: seq<CellKey>, m: Merge)
    requires m in Merges(cells, records, num, keys) && forall key :: key in keys <==> key in cells
    ensures Comparable(cells, records, num)
  {
    assert AllEntries(cells, keys) == EntriesIn(cells);
    NotedIsConstant(m.notes.runs, EntriesIn(cells), EntryRun, RunIdentity);
    NotedIsConstant(m.notes.stacks, EntriesIn(cells), EntryPair, EntryStackTag);
    var filled := Filled(records, num, cells);
    assert filled.Keys == cells.Keys;
    forall a, b | a in cells && b in cells && NameOf(a) == NameOf(b)
      ensures a.compatibility == b.compatibility
    {
      assert ProfileHas(m.profiles, a, filled[a]) && ProfileHas(m.profiles, b, filled[b]);
    }
  }

  lemma OrderNext(cells: CellMap, order: seq<CellKey>, i: nat)
    requires i < |order| && Distinct(order) && forall key :: key in order <==> key in cells
    ensures order[i] !in order[..i] && order[i] in cells && order[..i + 1] == order[..i] + [order[i]]
    ensures forall key :: key in order[..i] ==> key in cells
  {
  }

  method MergeCellAt(
    cells: CellMap, order: seq<CellKey>, i: nat, records: RowIndex, num: Number, m: Merge)
    returns (r: Result<Merge>)
    requires i < |order| && Distinct(order) && forall key :: key in order <==> key in cells
    requires m in Merges(cells, records, num, order[..i])
    ensures r.Ok? ==> r.value in Merges(cells, records, num, order[..i + 1])
    ensures r.Rejected? ==> cells !in Comparables(records, num)
  {
    OrderNext(cells, order, i);
    r := MergeCell(cells, records, num, m, order[i], order[..i]);
  }

  method MergeCells(cells: CellMap, order: seq<CellKey>, records: RowIndex, num: Number) returns (r: Result<Merge>)
    requires Distinct(order) && forall key :: key in order <==> key in cells
    ensures r.Ok? ==> r.value in Merges(cells, records, num, order)
    ensures r.Rejected? ==> cells !in Comparables(records, num)
  {
    r := Ok(Merge(map[], [], Noting(map[], map[])));
    NothingMerged(cells, records, num);
    var i := 0;
    while i < |order| && r.Ok?
      invariant 0 <= i <= |order|
      invariant r.Ok? ==> r.value in Merges(cells, records, num, order[..i])
      invariant r.Rejected? ==> cells !in Comparables(records, num)
    {
      r := MergeCellAt(cells, order, i, records, num, r.value);
      i := i + 1;
    }
    assert order[..|order|] == order;
  }
}
