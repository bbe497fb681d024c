/**
  Runs of the importer: one invocation after another, each of which may stop at any step.

  An invocation checks the marker of every requested artifact, imports the ones without a marker
  (every summary before any raw batch, raw files in any interleaving), and only when all of that is
  stored records the markers one by one.
 */
module ImportRuns {
  import opened Common
  import opened RawImport
  import opened ImportProtocol

  type Digest = string

  /** A raw file with the tags of its record; `skip` when it is a warm-up and warm-ups are skipped. */
  datatype RawFile = RawFile(lines: seq<Line>, recordTags: TagMap, skip: bool)

  /** The import of a raw file: the batches written for it, and how it ended. */
  datatype FileImport = FileImport(file: RawFile, writes: Stream, outcome: Outcome) {
    /** write_raw_file returned; otherwise it raised, and with it the Python process. */
    predicate Succeeded() {
      outcome.Imported? || outcome.WarmupSkipped?
    }
  }

  /** What importing each artifact writes: its summary points, and its raw files. */
  datatype World = World(summaries: Digest -> Stream, imports: Digest -> seq<FileImport>)

  /** Every file is imported as `RawImport.WriteRawFile` does it. */
  ghost predicate Genuine(world: World) {
    forall d, x :: x in world.imports(d) ==>
      FileWritten(x.file.lines, x.file.recordTags, x.file.skip, x.writes, x.outcome)
  }

  function Files(world: World, digest: Digest): seq<Stream> {
    var imports := world.imports(digest);
    seq(|imports|, i requires 0 <= i < |imports| => imports[i].writes)
  }

  predicate AllSucceeded(world: World, digest: Digest) {
    forall x :: x in world.imports(digest) ==> x.Succeeded()
  }

  function StreamsOf(world: World, digest: Digest): seq<Stream> {
    [world.summaries(digest)] + Files(world, digest)
  }

  function SummariesOf(world: World, queue: seq<Digest>): seq<Stream> {
    seq(|queue|, i requires 0 <= i < |queue| => world.summaries(queue[i]))
  }

  function FilesOf(world: World, queue: seq<Digest>): seq<Stream> {
    if queue == [] then [] else Files(world, queue[0]) + FilesOf(world, queue[1..])
  }

  datatype Phase =
    | Idle
    | Checking(requested: seq<Digest>, checked: nat, queue: seq<Digest>)
    | Importing(requested: seq<Digest>, queue: seq<Digest>, streams: seq<Stream>)
    | Recording(requested: seq<Digest>, queue: seq<Digest>, recorded: nat)

  /** `attempted` remembers which artifacts an import was ever started for. */
  datatype State = State(store: Store, markers: set<Digest>, phase: Phase, attempted: set<Digest>)

  const EMPTY := State(map[], {}, Idle, {})

  datatype Step =
    | Start(requested: seq<Digest>)
    | Check            // look up the next marker
    | Pull             // all markers looked up: fetch and unpack what is queued
    | WriteBatch(stream: nat)
    | ImportDone       // the Python process exits with success: no file was refused
    | Record           // write the next marker
    | Finish
    | Crash

  ghost predicate Enabled(world: World, s: State, step: Step) {
    match (s.phase, step)
    case (Idle, Start(_)) => true
    case (Checking(requested, checked, _), Check) => checked < |requested|
    case (Checking(requested, checked, queue), Pull) => checked == |requested| && queue != []
    case (Checking(requested, checked, queue), Finish) => checked == |requested| && queue == []
    case (Importing(_, queue, streams), WriteBatch(i)) =>
      CanWrite(streams, i) && (i < |queue| || forall j :: 0 <= j < |queue| && j < |streams| ==> streams[j] == [])
    case (Importing(_, queue, streams), ImportDone) =>
      Exhausted(streams) && forall d :: d in queue ==> AllSucceeded(world, d)
    case (Recording(_, queue, recorded), Record) => recorded < |queue|
    case (Recording(_, queue, recorded), Finish) => recorded == |queue|
    case (_, Crash) => true
    case _ => false
  }

  ghost function Next(world: World, s: State, step: Step): State
    requires Enabled(world, s, step)
  {
    match step
    case Start(requested) => s.(phase := Checking(requested, 0, []))
    case Check =>
      var digest := s.phase.requested[s.phase.checked];
      var queue := if digest in s.markers then s.phase.queue else s.phase.queue + [digest];
      s.(phase := Checking(s.phase.requested, s.phase.checked + 1, queue))
    case Pull =>
      var queue := s.phase.queue;
      s.(phase := Importing(s.phase.requested, queue, SummariesOf(world, queue) + FilesOf(world, queue)),
         attempted := s.attempted + ToSet(queue))
    case WriteBatch(i) =>
      s.(store := Apply(s.phase.streams[i][0], s.store), phase := s.phase.(streams := Written(s.phase.streams, i)))
    case ImportDone => s.(phase := Recording(s.phase.requested, s.phase.queue, 0))
    case Record =>
      s.(markers := s.markers + {s.phase.queue[s.phase.recorded]}, phase := s.phase.(recorded := s.phase.recorded + 1))
    case Finish => s.(phase := Idle)
    case Crash => s.(phase := Idle)
  }

  ghost predicate ValidRun(world: World, s: State, steps: seq<Step>)
    decreases |steps|
  {
    steps == [] || (Enabled(world, s, steps[0]) && ValidRun(world, Next(world, s, steps[0]), steps[1..]))
  }

  ghost function Run(world: World, s: State, steps: seq<Step>): State
    requires ValidRun(world, s, steps)
    decreases |steps|
  {
    if steps == [] then s else Run(world, Next(world, s, steps[0]), steps[1..])
  }

  // ------------------------------------------------------------- what an artifact promises

  /** A complete import of the artifact leaves `fields` under `key`. */
  ghost predicate Promises(world: World, digest: Digest, key: PointKey, fields: map<string, real>) {
    exists stream :: stream in StreamsOf(world, digest) && key in Final(stream) && Final(stream)[key] == fields
  }

  /** No point key belongs to two artifacts, and the files of one artifact agree on shared keys. */
  ghost predicate KeysApart(world: World) {
    forall d, e, key, v, w :: Promises(world, d, key, v) && Promises(world, e, key, w) ==> d == e && v == w
  }

  ghost predicate Holds(world: World, digest: Digest, store: Store) {
    forall key, fields :: Promises(world, digest, key, fields) ==> key in store && store[key] == fields
  }

  ghost predicate PromisedBy(world: World, digests: set<Digest>, key: PointKey, fields: map<string, real>) {
    exists d :: d in digests && Promises(world, d, key, fields)
  }

  /** Everything still to be written is promised by the queue. */
  ghost predicate Pending(world: World, queue: set<Digest>, streams: seq<Stream>) {
    forall stream, key :: stream in streams && key in Final(stream) ==>
        PromisedBy(world, queue, key, Final(stream)[key])
  }

  ghost predicate Settled(streams: seq<Stream>, key: PointKey) {
    forall stream :: stream in streams ==> key !in Final(stream)
  }

  /** Keys of the queue that no remaining batch mentions already have their final value. */
  ghost predicate SettledHold(world: World, queue: set<Digest>, streams: seq<Stream>, store: Store) {
    forall key, fields :: PromisedBy(world, queue, key, fields) && Settled(streams, key) ==>
        key in store && store[key] == fields
  }

  ghost predicate PhaseOk(world: World, s: State) {
    match s.phase
    case Idle => true
    case Checking(requested, checked, queue) =>
      checked <= |requested| && ToSet(queue) !! s.markers &&
      forall i :: 0 <= i < checked ==> requested[i] in s.markers || requested[i] in queue
    case Importing(requested, queue, streams) =>
      ToSet(queue) !! s.markers && ToSet(queue) <= s.attempted &&
      (forall d :: d in requested ==> d in s.markers || d in queue) &&
      Pending(world, ToSet(queue), streams) && SettledHold(world, ToSet(queue), streams, s.store)
    case Recording(requested, queue, recorded) =>
      recorded <= |queue| &&
      (forall d :: d in requested ==> d in s.markers || d in queue[recorded..]) &&
      (forall d :: d in queue ==> Holds(world, d, s.store) && d in s.attempted && AllSucceeded(world, d))
  }

  ghost predicate Inv(world: World, s: State) {
    && (forall d :: d in s.markers ==> Holds(world, d, s.store) && d in s.attempted && AllSucceeded(world, d))
    && (forall key :: key in s.store ==> exists fields :: PromisedBy(world, s.attempted, key, fields))
    && PhaseOk(world, s)
  }

  // ------------------------------------------------------------- every step keeps the invariant

  lemma {:induction false} FilesBelong(world: World, queue: seq<Digest>, stream: Stream)
    ensures stream in FilesOf(world, queue) <==> exists d :: d in queue && stream in Files(world, d)
  {
    if queue == [] {
    } else {
      FilesBelong(world, queue[1..], stream);
      assert queue == [queue[0]] + queue[1..];
    }
  }

  lemma QueueStreams(world: World, queue: seq<Digest>, stream: Stream)
    ensures stream in SummariesOf(world, queue) + FilesOf(world, queue) <==>
            exists d :: d in queue && stream in StreamsOf(world, d)
  {
    FilesBelong(world, queue, stream);
    if stream in SummariesOf(world, queue) {
      var i :| 0 <= i < |queue| && SummariesOf(world, queue)[i] == stream;
      assert stream in StreamsOf(world, queue[i]);
    }
    if d :| d in queue && stream in StreamsOf(world, d) {
      var i :| 0 <= i < |queue| && queue[i] == d;
      assert SummariesOf(world, queue)[i] == world.summaries(d);
    }
  }

  lemma PullStartsPending(world: World, queue: seq<Digest>, store: Store)
    ensures var streams := SummariesOf(world, queue) + FilesOf(world, queue);
      Pending(world, ToSet(queue), streams) && SettledHold(world, ToSet(queue), streams, store)
  {
    var streams := SummariesOf(world, queue) + FilesOf(world, queue);
    forall stream, key | stream in streams && key in Final(stream)
      ensures PromisedBy(world, ToSet(queue), key, Final(stream)[key])
    {
      QueueStreams(world, queue, stream);
      var d :| d in queue && stream in StreamsOf(world, d);
      assert Promises(world, d, key, Final(stream)[key]);
    }
    forall key, fields | PromisedBy(world, ToSet(queue), key, fields)
      ensures !Settled(streams, key)
    {
      var d :| d in queue && Promises(world, d, key, fields);
      var stream :| stream in StreamsOf(world, d) && key in Final(stream);
      QueueStreams(world, queue, stream);
    }
  }

  lemma WriteKeepsPending(world: World, queue: set<Digest>, streams: seq<Stream>, i: nat)
    requires Pending(world, queue, streams) && CanWrite(streams, i)
    ensures Pending(world, queue, Written(streams, i))
  {
    OneWrite(streams, i, map[]);
    var rest := Written(streams, i);
    forall stream, key | stream in rest && key in Final(stream)
      ensures PromisedBy(world, queue, key, Final(stream)[key])
    {
      if stream !in streams {
        assert streams[i] in streams && Final(streams[i])[key] == Final(stream)[key];
      }
    }
  }

  lemma WriteKeepsSettled(world: World, queue: set<Digest>, streams: seq<Stream>, i: nat, store: Store)
    requires KeysApart(world) && CanWrite(streams, i)
    requires Pending(world, queue, streams) && SettledHold(world, queue, streams, store)
    ensures SettledHold(world, queue, Written(streams, i), Apply(streams[i][0], store))
  {
    OneWrite(streams, i, store);
    var rest := Written(streams, i);
    forall key, fields | PromisedBy(world, queue, key, fields) && Settled(rest, key)
      ensures key in Apply(streams[i][0], store) && Apply(streams[i][0], store)[key] == fields
    {
      assert rest[i] in rest && streams[i] in streams;
      if key in Final(streams[i]) {
        assert PromisedBy(world, queue, key, Final(streams[i])[key]);
      } else {
        assert Settled(streams, key);
      }
    }
  }

  lemma WriteKeepsHeld(world: World, queue: set<Digest>, streams: seq<Stream>, i: nat, store: Store, d: Digest)
    requires KeysApart(world) && CanWrite(streams, i) && Pending(world, queue, streams)
    requires d !in queue && Holds(world, d, store)
    ensures Holds(world, d, Apply(streams[i][0], store))
  {
    OneWrite(streams, i, store);
    forall key | key in Final(streams[i])
      ensures forall fields :: !Promises(world, d, key, fields)
    {
      assert streams[i] in streams;
      assert PromisedBy(world, queue, key, Final(streams[i])[key]);
    }
  }

  lemma WriteKeepsKeysPromised(
    world: World, attempted: set<Digest>, queue: set<Digest>, streams: seq<Stream>, i: nat, store: Store)
    requires CanWrite(streams, i) && Pending(world, queue, streams) && queue <= attempted
    requires forall key :: key in store ==> exists fields :: PromisedBy(world, attempted, key, fields)
    ensures forall key :: key in Apply(streams[i][0], store) ==>
        exists fields :: PromisedBy(world, attempted, key, fields)
  {
    OneWrite(streams, i, store);
    forall key | key in Apply(streams[i][0], store) && key !in store
      ensures exists fields :: PromisedBy(world, attempted, key, fields)
    {
      assert streams[i] in streams;
      assert PromisedBy(world, queue, key, Final(streams[i])[key]);
      assert PromisedBy(world, attempted, key, Final(streams[i])[key]);
    }
  }

  lemma DoneHolds(world: World, queue: set<Digest>, streams: seq<Stream>, store: Store, d: Digest)
    requires SettledHold(world, queue, streams, store) && Exhausted(streams) && d in queue
    ensures Holds(world, d, store)
  {
    forall key, fields | Promises(world, d, key, fields)
      ensures key in store && store[key] == fields
    {
      assert PromisedBy(world, queue, key, fields) && Settled(streams, key);
    }
  }

  lemma StepKeepsInv(world: World, s: State, step: Step)
    requires KeysApart(world) && Inv(world, s) && Enabled(world, s, step)
    ensures Inv(world, Next(world, s, step))
  {
    match (s.phase, step)
    case (Importing(_, queue, streams), WriteBatch(i)) =>
      WriteKeepsPending(world, ToSet(queue), streams, i);
      WriteKeepsSettled(world, ToSet(queue), streams, i, s.store);
      WriteKeepsKeysPromised(world, s.attempted, ToSet(queue), streams, i, s.store);
      forall d | d in s.markers {
        WriteKeepsHeld(world, ToSet(queue), streams, i, s.store, d);
      }
    case (Importing(_, queue, streams), ImportDone) =>
      forall d | d in queue {
        DoneHolds(world, ToSet(queue), streams, s.store, d);
      }
    case (Checking(_, _, queue), Pull) =>
      PullStartsPending(world, queue, s.store);
      MorePromised(world, s.attempted, s.attempted + ToSet(queue), s.store);
    case _ =>
  }

  lemma MorePromised(world: World, few: set<Digest>, many: set<Digest>, store: Store)
    requires few <= many
    requires forall key :: key in store ==> exists fields :: PromisedBy(world, few, key, fields)
    ensures forall key :: key in store ==> exists fields :: PromisedBy(world, many, key, fields)
  {
    forall key | key in store
      ensures exists fields :: PromisedBy(world, many, key, fields)
    {
      var fields :| PromisedBy(world, few, key, fields);
      assert PromisedBy(world, many, key, fields);
    }
  }

  // ------------------------------------------------------------- every run

  lemma {:induction false} RunKeepsInv(world: World, s: State, steps: seq<Step>)
    requires KeysApart(world) && Inv(world, s) && ValidRun(world, s, steps)
    ensures Inv(world, Run(world, s, steps))
    decreases |steps|
  {
    if steps == [] {
    } else {
      StepKeepsInv(world, s, steps[0]);
      RunKeepsInv(world, Next(world, s, steps[0]), steps[1..]);
    }
  }

  /**
    Whatever invocations ran and wherever they crashed, an artifact with a completion marker is
    stored in full: every one of its point keys is there with its final value.
   */
  lemma MarkedIsStored(world: World, steps: seq<Step>, digest: Digest)
    requires KeysApart(world) && ValidRun(world, EMPTY, steps)
    requires digest in Run(world, EMPTY, steps).markers
    ensures Holds(world, digest, Run(world, EMPTY, steps).store)
  {
    RunKeepsInv(world, EMPTY, steps);
  }

  /** The file's last value for each of its point keys, straight from its lines. */
  function LastValues(file: RawFile): Store {
    Apply(Points(file.lines, file.recordTags), map[])
  }

  lemma SucceededIsWhole(x: FileImport)
    requires FileWritten(x.file.lines, x.file.recordTags, x.file.skip, x.writes, x.outcome) && x.Succeeded()
    requires !x.file.skip
    ensures PointLines(x.file.lines) > 0 && Good(x.file.lines, x.file.recordTags) == |x.file.lines|
    ensures Final(x.writes) == LastValues(x.file)
  {
    assert x.file.lines[..|x.file.lines|] == x.file.lines;
    BatchesAreTheirPoints(x.writes, map[]);
  }

  /**
    From the lines of a file to its marker: a file of a marked artifact that is not skipped has
    observations and no refused line, and every point of its lines is stored with its last value.
   */
  lemma MarkedFilesAreStored(world: World, steps: seq<Step>, digest: Digest, x: FileImport)
    requires Genuine(world) && KeysApart(world) && ValidRun(world, EMPTY, steps)
    requires digest in Run(world, EMPTY, steps).markers && x in world.imports(digest) && !x.file.skip
    ensures PointLines(x.file.lines) > 0
    ensures forall line :: line in x.file.lines ==> !Refused(line, x.file.recordTags)
    ensures var store := Run(world, EMPTY, steps).store;
      forall key :: key in LastValues(x.file) ==> key in store && store[key] == LastValues(x.file)[key]
  {
    RunKeepsInv(world, EMPTY, steps);
    SucceededIsWhole(x);
    var imports := world.imports(digest);
    var i :| 0 <= i < |imports| && imports[i] == x;
    assert Files(world, digest)[i] == x.writes && x.writes in StreamsOf(world, digest);
    forall key | key in LastValues(x.file)
      ensures Promises(world, digest, key, LastValues(x.file)[key])
    {
    }
  }

  // ------------------------------------------------------------- from a line to the store

  /** Every point's key is stored, with the fields of the last point of that key. */
  lemma {:induction false} LastPointStays(points: seq<Point>, k: nat)
    requires k < |points|
    ensures points[k].key in Apply(points, map[])
    ensures (forall j :: k < j < |points| ==> points[j].key != points[k].key) ==>
              Apply(points, map[])[points[k].key] == points[k].fields
  {
    var n := |points| - 1;
    if k == n {
    } else {
      LastPointStays(points[..n], k);
      assert forall j :: k < j < n ==> points[..n][j] == points[j];
    }
  }

  /** The line behind the j-th point. */
  lemma {:induction false} LineOfPoint(lines: seq<Line>, j: nat) returns (m: nat)
    requires j < PointLines(lines)
    ensures m < |lines| && lines[m].PointLine? && PointLines(lines[..m]) == j
  {
    var n := |lines| - 1;
    if lines[n].PointLine? && PointLines(lines[..n]) == j {
      m := n;
    } else {
      m := LineOfPoint(lines[..n], j);
      assert lines[..n][..m] == lines[..m];
    }
  }

  /** No later line makes a point of this key. */
  ghost predicate LastOfKey(file: RawFile, n: nat, key: PointKey) {
    forall m, q :: n < m < |file.lines| && TellsOf(file.lines[m], file.recordTags, q) ==> q.key != key
  }

  lemma LineIsStored(file: RawFile, n: nat) returns (p: Point)
    requires n < |file.lines| && file.lines[n].PointLine?
    requires forall line :: line in file.lines ==> !Refused(line, file.recordTags)
    ensures TellsOf(file.lines[n], file.recordTags, p) && p.key in LastValues(file)
    ensures LastOfKey(file, n, p.key) ==> LastValues(file)[p.key] == p.fields
  {
    var points, k := Points(file.lines, file.recordTags), PointLines(file.lines[..n]);
    PointOfLine(file.lines, file.recordTags, n);
    p := points[k];
    LastPointStays(points, k);
    if LastOfKey(file, n, p.key) {
      forall j | k < j < |points|
        ensures points[j].key != p.key
      {
        var m := LineOfPoint(file.lines, j);
        PointOfLine(file.lines, file.recordTags, m);
        if m <= n {
          PointLinesGrow(file.lines, m, n);
          assert false;
        }
      }
    }
  }

  /**
    Every Point line of a file of a marked artifact that was not skipped has its point stored: its
    value, unless a later line of the file has the same key.
   */
  lemma MarkedLinesAreStored(world: World, steps: seq<Step>, digest: Digest, x: FileImport, n: nat) returns (p: Point)
    requires Genuine(world) && KeysApart(world) && ValidRun(world, EMPTY, steps)
    requires digest in Run(world, EMPTY, steps).markers && x in world.imports(digest) && !x.file.skip
    requires n < |x.file.lines| && x.file.lines[n].PointLine?
    ensures TellsOf(x.file.lines[n], x.file.recordTags, p) && p.key in Run(world, EMPTY, steps).store
    ensures LastOfKey(x.file, n, p.key) ==>
              Run(world, EMPTY, steps).store[p.key] == map["value" := x.file.lines[n].value.value]
  {
    MarkedFilesAreStored(world, steps, digest, x);
    p := LineIsStored(x.file, n);
  }

  // ------------------------------------------------------------- summaries come first

  function StreamsFor(world: World, queue: seq<Digest>): seq<Stream> {
    SummariesOf(world, queue) + FilesOf(world, queue)
  }

  /** While something of a summary is still to be written, nothing of a raw file is. */
  ghost predicate SummariesLead(world: World, s: State) {
    s.phase.Importing? ==>
      var queue, streams := s.phase.queue, s.phase.streams;
      && |streams| == |StreamsFor(world, queue)|
      && ((forall j :: 0 <= j < |queue| ==> streams[j] == []) ||
          (forall j :: |queue| <= j < |streams| ==> streams[j] == StreamsFor(world, queue)[j]))
  }

  lemma {:induction false} RunKeepsSummariesLeading(world: World, s: State, steps: seq<Step>)
    requires SummariesLead(world, s) && ValidRun(world, s, steps)
    ensures SummariesLead(world, Run(world, s, steps))
    decreases |steps|
  {
    if steps == [] {
    } else {
      RunKeepsSummariesLeading(world, Next(world, s, steps[0]), steps[1..]);
    }
  }

  /** In every reachable state, a raw file of which a batch was written has every summary point before it. */
  lemma SummariesFirst(world: World, steps: seq<Step>, i: nat, j: nat)
    requires ValidRun(world, EMPTY, steps) && Run(world, EMPTY, steps).phase.Importing?
    requires i < |Run(world, EMPTY, steps).phase.queue| <= j < |Run(world, EMPTY, steps).phase.streams|
    ensures var phase := Run(world, EMPTY, steps).phase;
      && |phase.streams| == |StreamsFor(world, phase.queue)|
      && (phase.streams[j] != StreamsFor(world, phase.queue)[j] ==> phase.streams[i] == [])
  {
    RunKeepsSummariesLeading(world, EMPTY, steps);
  }

  // ------------------------------------------------------------- equality with a clean import

  /** Some order in which one uninterrupted import of the artifacts writes its batches. */
  ghost predicate CleanImport(world: World, digests: seq<Digest>, clean: Stream) {
    Interleaving(SummariesOf(world, digests) + FilesOf(world, digests), clean)
  }

  /** The key belongs to one of the artifacts. */
  ghost predicate Covered(world: World, digests: seq<Digest>, key: PointKey) {
    exists fields :: PromisedBy(world, ToSet(digests), key, fields)
  }

  lemma StreamsPromise(world: World, digests: seq<Digest>, stream: Stream, key: PointKey)
    requires stream in SummariesOf(world, digests) + FilesOf(world, digests) && key in Final(stream)
    ensures PromisedBy(world, ToSet(digests), key, Final(stream)[key])
  {
    QueueStreams(world, digests, stream);
    var d :| d in digests && stream in StreamsOf(world, d);
    assert d in ToSet(digests) && Promises(world, d, key, Final(stream)[key]);
  }

  lemma StreamsAgree(world: World, digests: seq<Digest>)
    requires KeysApart(world)
    ensures Agree(SummariesOf(world, digests) + FilesOf(world, digests))
  {
    var streams := SummariesOf(world, digests) + FilesOf(world, digests);
    forall a, b, key | a in streams && b in streams && key in Final(a) && key in Final(b)
      ensures Final(a)[key] == Final(b)[key]
    {
      StreamsPromise(world, digests, a, key);
      StreamsPromise(world, digests, b, key);
    }
  }

  /** A clean import stores exactly the keys of its artifacts, each with the value the artifact promises. */
  lemma CleanStore(world: World, digests: seq<Digest>, clean: Stream, key: PointKey)
    requires KeysApart(world) && CleanImport(world, digests, clean)
    ensures key in ApplyAll(clean, map[]) <==> Covered(world, digests, key)
    ensures key in ApplyAll(clean, map[]) ==> PromisedBy(world, ToSet(digests), key, ApplyAll(clean, map[])[key])
  {
    var streams := SummariesOf(world, digests) + FilesOf(world, digests);
    StreamsAgree(world, digests);
    InterleavingLands(streams, clean, map[]);
    if stream :| stream in streams && key in Final(stream) {
      StreamsPromise(world, digests, stream, key);
    }
    if Covered(world, digests, key) {
      var fields :| PromisedBy(world, ToSet(digests), key, fields);
      var d :| d in ToSet(digests) && Promises(world, d, key, fields);
      var stream :| stream in StreamsOf(world, d) && key in Final(stream);
      QueueStreams(world, digests, stream);
    }
  }

  /**
    On the keys of marked artifacts the store is one clean import of them, whatever else ran or
    crashed; and the whole store is that import exactly when no stored key lies outside them.
   */
  lemma MarkedStoreIsClean(world: World, steps: seq<Step>, digests: seq<Digest>, clean: Stream)
    requires KeysApart(world) && ValidRun(world, EMPTY, steps) && CleanImport(world, digests, clean)
    requires ToSet(digests) <= Run(world, EMPTY, steps).markers
    ensures var store, once := Run(world, EMPTY, steps).store, ApplyAll(clean, map[]);
      && (forall key :: key in once ==> key in store && store[key] == once[key])
      && (store == once <==> forall key :: key in store ==> Covered(world, digests, key))
  {
    RunKeepsInv(world, EMPTY, steps);
    var store, once := Run(world, EMPTY, steps).store, ApplyAll(clean, map[]);
    forall key
      ensures key in once <==> Covered(world, digests, key)
      ensures key in once ==> key in store && store[key] == once[key]
    {
      CleanStore(world, digests, clean, key);
      if key in once {
        var d :| d in ToSet(digests) && Promises(world, d, key, once[key]);
      }
    }
  }

  /** It does when every artifact that was ever attempted is among the marked ones. */
  lemma AttemptedStoreIsClean(world: World, steps: seq<Step>, digests: seq<Digest>, clean: Stream)
    requires KeysApart(world) && ValidRun(world, EMPTY, steps) && CleanImport(world, digests, clean)
    requires Run(world, EMPTY, steps).attempted <= ToSet(digests) <= Run(world, EMPTY, steps).markers
    ensures Run(world, EMPTY, steps).store == ApplyAll(clean, map[])
  {
    RunKeepsInv(world, EMPTY, steps);
    MarkedStoreIsClean(world, steps, digests, clean);
    var s := Run(world, EMPTY, steps);
    forall key | key in s.store
      ensures Covered(world, digests, key)
    {
      var fields :| PromisedBy(world, s.attempted, key, fields);
      assert PromisedBy(world, ToSet(digests), key, fields);
    }
  }

  lemma FinishedIsMarked(world: World, steps: seq<Step>)
    requires KeysApart(world) && ValidRun(world, EMPTY, steps) && Enabled(world, Run(world, EMPTY, steps), Finish)
    ensures ToSet(Run(world, EMPTY, steps).phase.requested) <= Run(world, EMPTY, steps).markers
  {
    RunKeepsInv(world, EMPTY, steps);
    var s := Run(world, EMPTY, steps);
    forall d | d in s.phase.requested
      ensures d in s.markers
    {
      if s.phase.Checking? {
        var i :| 0 <= i < |s.phase.requested| && s.phase.requested[i] == d;
      }
    }
  }

  /**
    An invocation that finishes leaves every requested artifact marked and stored: on their keys the
    store is one clean import of them, and it is that import as a whole exactly when no other
    artifact left a point.
   */
  lemma FinishedImportIsClean(world: World, steps: seq<Step>, clean: Stream)
    requires KeysApart(world) && ValidRun(world, EMPTY, steps) && Enabled(world, Run(world, EMPTY, steps), Finish)
    requires CleanImport(world, Run(world, EMPTY, steps).phase.requested, clean)
    ensures var s, once := Run(world, EMPTY, steps), ApplyAll(clean, map[]);
      && (forall d :: d in s.phase.requested ==> d in s.markers && Holds(world, d, s.store))
      && (forall key :: key in once ==> key in s.store && s.store[key] == once[key])
      && (s.store == once <==> forall key :: key in s.store ==> Covered(world, s.phase.requested, key))
  {
    RunKeepsInv(world, EMPTY, steps);
    FinishedIsMarked(world, steps);
    MarkedStoreIsClean(world, steps, Run(world, EMPTY, steps).phase.requested, clean);
    assert forall d :: d in Run(world, EMPTY, steps).phase.requested ==>
        d in ToSet(Run(world, EMPTY, steps).phase.requested);
  }

  // ------------------------------------------------------------- one invocation

  lemma {:induction false} RunExtends(world: World, s: State, steps: seq<Step>, step: Step)
    requires ValidRun(world, s, steps) && Enabled(world, Run(world, s, steps), step)
    ensures ValidRun(world, s, steps + [step])
    ensures Run(world, s, steps + [step]) == Next(world, Run(world, s, steps), step)
    decreases |steps|
  {
    if steps == [] {
      assert (steps + [step])[1..] == [];
    } else {
      RunExtends(world, Next(world, s, steps[0]), steps[1..], step);
      assert (steps + [step])[1..] == steps[1..] + [step];
    }
  }

  lemma NamedStore(name: string, store: Store)
    ensures Final([[PointNamed(name)]]) == map[PointNamed(name).key := map[]]
    ensures Apply([PointNamed(name)], store) == store[PointNamed(name).key := map[]]
  {
    var stream: Stream := [[PointNamed(name)]];
    assert [PointNamed(name)][..0] == [] && stream[1..] == [];
    assert Apply(stream[0], map[]) == map[PointNamed(name).key := map[]];
    assert ApplyAll(stream, map[]) == ApplyAll(stream[1..], Apply(stream[0], map[]));
  }

  lemma NamedKeysApart()
    ensures KeysApart(TWO_ARTIFACTS) && Genuine(TWO_ARTIFACTS)
  {
    forall d, key, fields | Promises(TWO_ARTIFACTS, d, key, fields)
      ensures key == PointNamed(d).key && fields == map[]
    {
      NamedStore(d, map[]);
    }
  }

  /** One invocation for one artifact, up to the step before its import is recorded as done. */
  lemma ImportOne(s: State, name: Digest) returns (steps: seq<Step>)
    requires s.phase == Idle && name !in s.markers
    ensures ValidRun(TWO_ARTIFACTS, s, steps)
    ensures Run(TWO_ARTIFACTS, s, steps) ==
            State(s.store[PointNamed(name).key := map[]], s.markers, Importing([name], [name], [[]]),
                s.attempted + {name})
  {
    var world := TWO_ARTIFACTS;
    RunExtends(world, s, [], Start([name]));
    var s1 := s.(phase := Checking([name], 0, []));
    assert [] + [Start([name])] == [Start([name])] && Run(world, s, [Start([name])]) == s1;
    RunExtends(world, s, [Start([name])], Check);
    var s2 := s.(phase := Checking([name], 1, [name]));
    assert [] + [name] == [name] && Next(world, s1, Check) == s2;
    steps := [Start([name])] + [Check];
    RunExtends(world, s, steps, Pull);
    OneStream(name);
    var s3 := s.(phase := Importing([name], [name], [[[PointNamed(name)]]]), attempted := s.attempted + {name});
    assert Next(world, s2, Pull) == s3;
    steps := steps + [Pull];
    RunExtends(world, s, steps, WriteBatch(0));
    NamedStore(name, s.store);
    assert [[[PointNamed(name)]]][0 := []] == [[]] && [[PointNamed(name)]][1..] == [];
    assert Written([[[PointNamed(name)]]], 0) == [[]];
    steps := steps + [WriteBatch(0)];
  }

  lemma OneStream(name: Digest)
    ensures SummariesOf(TWO_ARTIFACTS, [name]) + FilesOf(TWO_ARTIFACTS, [name]) == [[[PointNamed(name)]]]
    ensures ToSet([name]) == {name}
  {
    assert [name][1..] == [] && FilesOf(TWO_ARTIFACTS, [name]) == [];
    assert SummariesOf(TWO_ARTIFACTS, [name]) == [[[PointNamed(name)]]];
  }

  /**
    An invocation for "a" crashes after its write, one for "b" finishes: the store is not a clean
    import of "b", because the point of "a" is still there.
   */
  lemma CrashLeavesMore() returns (steps: seq<Step>)
    ensures KeysApart(TWO_ARTIFACTS) && Genuine(TWO_ARTIFACTS) && ValidRun(TWO_ARTIFACTS, EMPTY, steps)
    ensures var s := Run(TWO_ARTIFACTS, EMPTY, steps);
      && Enabled(TWO_ARTIFACTS, s, Finish) && s.phase.requested == ["b"]
      && CleanImport(TWO_ARTIFACTS, ["b"], [[PointNamed("b")]])
      && s.store != ApplyAll([[PointNamed("b")]], map[])
  {
    var world := TWO_ARTIFACTS;
    NamedKeysApart();
    var first := ImportOne(EMPTY, "a");
    RunExtends(world, EMPTY, first, Crash);
    var crashed := first + [Crash];
    var second := ImportOne(Run(world, EMPTY, crashed), "b");
    RunsConcat(world, EMPTY, crashed, second);
    steps := crashed + second;
    RunExtends(world, EMPTY, steps, ImportDone);
    steps := steps + [ImportDone];
    RunExtends(world, EMPTY, steps, Record);
    steps := steps + [Record];
    var store := Run(world, EMPTY, steps).store;
    assert PointNamed("a").key in store;
    NamedStore("b", map[]);
    CleanOne("b");
  }

  lemma CleanOne(name: Digest)
    ensures CleanImport(TWO_ARTIFACTS, [name], [[PointNamed(name)]])
    ensures ApplyAll([[PointNamed(name)]], map[]) == map[PointNamed(name).key := map[]]
  {
    NamedStore(name, map[]);
    OneStream(name);
    StreamAlone([[[PointNamed(name)]]], 0);
  }

  lemma {:induction false} RunsConcat(world: World, s: State, first: seq<Step>, second: seq<Step>)
    requires ValidRun(world, s, first) && ValidRun(world, Run(world, s, first), second)
    ensures ValidRun(world, s, first + second)
    ensures Run(world, s, first + second) == Run(world, Run(world, s, first), second)
    decreases |first|
  {
    if first == [] {
      assert first + second == second;
    } else {
      RunsConcat(world, Next(world, s, first[0]), first[1..], second);
      assert (first + second)[1..] == first[1..] + second;
    }
  }

  /** Since an invocation for `requested` started on `before`: the store grew by points of these artifacts only. */
  ghost predicate Within(world: World, requested: seq<Digest>, before: Store, s: State) {
    && !s.phase.Idle? && s.phase.requested == requested
    && (!s.phase.Checking? || s.phase.checked <= |requested|)
    && (forall d :: d in s.phase.queue ==> d in requested)
    && (s.phase.Importing? ==> Pending(world, ToSet(requested), s.phase.streams))
    && before.Keys <= s.store.Keys
    && (forall key :: key in s.store ==> key in before || Covered(world, requested, key))
  }

  lemma WriteStaysWithin(world: World, requested: seq<Digest>, before: Store, s: State, i: nat)
    requires Within(world, requested, before, s) && s.phase.Importing? && CanWrite(s.phase.streams, i)
    ensures Within(world, requested, before,
                   s.(store := Apply(s.phase.streams[i][0], s.store),
                      phase := s.phase.(streams := Written(s.phase.streams, i))))
  {
    var streams := s.phase.streams;
    OneWrite(streams, i, s.store);
    WriteKeepsPending(world, ToSet(requested), streams, i);
    forall key | key in Apply(streams[i][0], s.store) && key !in s.store
      ensures Covered(world, requested, key)
    {
      assert streams[i] in streams && key in Final(streams[i]);
      assert PromisedBy(world, ToSet(requested), key, Final(streams[i])[key]);
    }
  }

  lemma PullStaysWithin(world: World, requested: seq<Digest>, queue: seq<Digest>, store: Store)
    requires forall d :: d in queue ==> d in requested
    ensures Pending(world, ToSet(requested), SummariesOf(world, queue) + FilesOf(world, queue))
  {
    PullStartsPending(world, queue, store);
    forall key, fields | PromisedBy(world, ToSet(queue), key, fields)
      ensures PromisedBy(world, ToSet(requested), key, fields)
    {
      var d :| d in ToSet(queue) && Promises(world, d, key, fields);
      assert d in ToSet(requested);
    }
  }

  /** A step of the invocation stays within it, or it ends. */
  lemma StepStaysWithin(world: World, requested: seq<Digest>, before: Store, s: State, step: Step)
    requires Within(world, requested, before, s) && Enabled(world, s, step) && !step.Start?
    ensures Next(world, s, step).phase.Idle? || Within(world, requested, before, Next(world, s, step))
  {
    match step
    case WriteBatch(i) => WriteStaysWithin(world, requested, before, s, i);
    case Pull => PullStaysWithin(world, requested, s.phase.queue, s.store);
    case _ =>
  }

  predicate NoStart(steps: seq<Step>) {
    forall step :: step in steps ==> !step.Start?
  }

  lemma {:induction false} RunStaysWithin(
    world: World, requested: seq<Digest>, before: Store, s: State, steps: seq<Step>)
    requires s.phase.Idle? || Within(world, requested, before, s)
    requires NoStart(steps) && ValidRun(world, s, steps)
    ensures Run(world, s, steps).phase.Idle? || Within(world, requested, before, Run(world, s, steps))
    decreases |steps|
  {
    if steps == [] {
    } else {
      assert steps[0] in steps;
      if !s.phase.Idle? {
        StepStaysWithin(world, requested, before, s, steps[0]);
      }
      RunStaysWithin(world, requested, before, Next(world, s, steps[0]), steps[1..]);
    }
  }

  /**
    An invocation that finishes leaves the store as one clean import of the requested artifacts would,
    exactly when every key stored before it belongs to one of them.
   */
  lemma InvocationIsClean(
    world: World, before: seq<Step>, requested: seq<Digest>, later: seq<Step>, clean: Stream)
    requires KeysApart(world) && CleanImport(world, requested, clean)
    requires ValidRun(world, EMPTY, before) && Run(world, EMPTY, before).phase.Idle?
    requires var started := Next(world, Run(world, EMPTY, before), Start(requested));
      NoStart(later) && ValidRun(world, started, later) && Enabled(world, Run(world, started, later), Finish)
    ensures var started := Next(world, Run(world, EMPTY, before), Start(requested));
      Run(world, started, later).store == ApplyAll(clean, map[]) <==>
      forall key :: key in Run(world, EMPTY, before).store ==> Covered(world, requested, key)
  {
    var idle := Run(world, EMPTY, before);
    var started := Next(world, idle, Start(requested));
    RunExtends(world, EMPTY, before, Start(requested));
    RunsConcat(world, EMPTY, before + [Start(requested)], later);
    RunStaysWithin(world, requested, idle.store, started, later);
    FinishedImportIsClean(world, before + [Start(requested)] + later, clean);
  }

  /**
    Since an invocation for `requested` started on `before`: in the order requested, and as often as
    requested, the queue has what was not marked then; only what was queued is marked since.
   */
  ghost predicate SkipsMarked(requested: seq<Digest>, before: State, s: State) {
    && !s.phase.Idle? && s.phase.requested == requested
    && (s.phase.Checking? ==> s.phase.checked <= |requested| && s.store == before.store)
    && (!s.phase.Checking? ==> s.phase.queue != [])
    && s.phase.queue ==
         Keep(requested[..if s.phase.Checking? then s.phase.checked else |requested|],
              ToSet(requested) - before.markers)
    && (s.phase.Recording? ==> s.phase.recorded <= |s.phase.queue|)
    && s.markers == before.markers + (if s.phase.Recording? then ToSet(s.phase.queue[..s.phase.recorded]) else {})
  }

  lemma CheckSkipsMarked(world: World, requested: seq<Digest>, before: State, s: State)
    requires SkipsMarked(requested, before, s) && Enabled(world, s, Check)
    ensures SkipsMarked(requested, before, Next(world, s, Check))
  {
    var checked := s.phase.checked;
    assert requested[checked] in ToSet(requested);
    assert requested[..checked + 1][..checked] == requested[..checked];
    assert requested[..checked + 1][checked] == requested[checked];
  }

  lemma StepSkipsMarked(world: World, requested: seq<Digest>, before: State, s: State, step: Step)
    requires SkipsMarked(requested, before, s) && Enabled(world, s, step) && !step.Start?
    ensures Next(world, s, step).phase.Idle? || SkipsMarked(requested, before, Next(world, s, step))
  {
    match step
    case Check => CheckSkipsMarked(world, requested, before, s);
    case Record =>
      var queue, n := s.phase.queue, s.phase.recorded;
      assert queue[..n + 1] == queue[..n] + [queue[n]];
    case _ =>
  }

  lemma {:induction false} RunSkipsMarked(
    world: World, requested: seq<Digest>, before: State, s: State, steps: seq<Step>)
    requires s.phase.Idle? || SkipsMarked(requested, before, s)
    requires NoStart(steps) && ValidRun(world, s, steps)
    ensures Run(world, s, steps).phase.Idle? || SkipsMarked(requested, before, Run(world, s, steps))
    decreases |steps|
  {
    if steps != [] {
      assert steps[0] in steps;
      if !s.phase.Idle? {
        StepSkipsMarked(world, requested, before, s, steps[0]);
      }
      RunSkipsMarked(world, requested, before, Next(world, s, steps[0]), steps[1..]);
    }
  }

  /**
    An invocation that finishes adds markers for exactly the requested artifacts; while it imports, its
    queue is what was requested without a marker. If all were marked before, it changes nothing.
   */
  lemma InvocationSkipsMarked(
    world: World, before: State, requested: seq<Digest>, later: seq<Step>)
    requires before.phase.Idle? && NoStart(later) && ValidRun(world, Next(world, before, Start(requested)), later)
    ensures var s := Run(world, Next(world, before, Start(requested)), later);
      && (s.phase.Importing? ==> s.phase.queue == Keep(requested, ToSet(requested) - before.markers))
      && (Enabled(world, s, Finish) ==> s.markers == before.markers + ToSet(requested))
      && (!s.phase.Idle? && ToSet(requested) <= before.markers ==>
            s.store == before.store && s.markers == before.markers)
  {
    var started := Next(world, before, Start(requested));
    var s := Run(world, started, later);
    RunSkipsMarked(world, requested, before, started, later);
    var unmarked := ToSet(requested) - before.markers;
    assert requested[..|requested|] == requested;
    KeepElements(requested, unmarked);
    if s.phase.Recording? && Enabled(world, s, Finish) {
      assert s.phase.queue[..|s.phase.queue|] == s.phase.queue;
    }
    if !s.phase.Idle? && ToSet(requested) <= before.markers {
      assert unmarked == {};
      KeepNothing(requested[..if s.phase.Checking? then s.phase.checked else |requested|]);
    }
  }

  // ------------------------------------------------------------- a crash that leaves more

  /** Each artifact is one summary point named after it. */
  const TWO_ARTIFACTS := World(d => [[PointNamed(d)]], d => [])

  function PointNamed(name: string): Point {
    Point(PointKey(name, map[], 0), map[])
  }

}
