/** Timeline datasets: run origins, one-second buckets and gap-separated segments. */
module Timelines {
  import opened Common
  import opened Workloads

  const SECOND := 1_000_000_000
  const GAP := 60 * SECOND

  // ------------------------------------------------------------- elapsed seconds

  /** elapsed_bucket_ns: whole seconds, truncated toward zero. */
  function ElapsedBucket(time: int, origin: int): int {
    var delta := time - origin;
    if delta >= 0 then delta / SECOND * SECOND else -(-delta / SECOND * SECOND)
  }

  lemma ElapsedBucketBounds(time: int, later: int, origin: int)
    requires time <= later
    ensures ElapsedBucket(time, origin) <= ElapsedBucket(later, origin)
    ensures -SECOND < ElapsedBucket(time, origin) - (time - origin) < SECOND
    ensures ElapsedBucket(time, origin) < 0 <==> time - origin <= -SECOND
  {
  }

  // ------------------------------------------------------------- reading rows

  /** One aggregate row; `None` and "" are the absent columns. */
  datatype AggregateRow = AggregateRow(time: Option<int>, value: string, profile: string, index: int)

  /** When each execution of a run started, and when the run did. */
  datatype RunOrigin = RunOrigin(origin: int, executions: map<(string, int), int>)

  /** Which rows a chart shows: a whole run, or one profile with repeats aligned to their own start. */
  datatype View = WholeRun | OneProfile(profile: Profile)

  datatype Reading = Skipped | Faulty | Kept(repeat: Option<nat>, bucket: int, value: real)

  function Bucketed(row: AggregateRow, repeat: Option<nat>, origin: int, num: string -> Option<real>): Reading
    requires row.time.Some?
  {
    var bucket := ElapsedBucket(row.time.value, origin);
    if bucket < 0 then Skipped else
    match num(row.value)
    case None => Faulty
    case Some(x) => Kept(repeat, bucket, x)
  }

  function ReadRow(
    row: AggregateRow, family: Family, run: RunOrigin, view: View, num: string -> Option<real>): Reading
  {
    if row.time.None? || row.value == "" then Skipped
    else if view.WholeRun? then Bucketed(row, None, run.origin, num)
    else
      match ProfileSlot(family, row.profile, row.index)
      case None => Faulty
      case Some((profile, repeat)) =>
        if profile != view.profile then Skipped
        else if (row.profile, row.index) !in run.executions then Faulty
        else Bucketed(row, Some(repeat), run.executions[(row.profile, row.index)], num)
  }

  ghost predicate IsEarliest(run: RunOrigin) {
    && (exists k :: k in run.executions && run.executions[k] == run.origin)
    && (forall k :: k in run.executions ==> run.origin <= run.executions[k])
  }

  /**
    A whole-run timeline drops a row that has a time and a value exactly when it is stamped a full
    second or more before the run's first request.
   */
  lemma WholeRunDropsOnlyEarlyRows(row: AggregateRow, family: Family, run: RunOrigin, num: string -> Option<real>)
    requires row.time.Some? && row.value != "" && IsEarliest(run)
    ensures ReadRow(row, family, run, WholeRun, num).Skipped? <==>
            forall k :: k in run.executions ==> row.time.value <= run.executions[k] - SECOND
  {
    ElapsedBucketBounds(row.time.value, row.time.value, run.origin);
    if ReadRow(row, family, run, WholeRun, num).Skipped? {
      assert row.time.value <= run.origin - SECOND;
    }
  }

  // ------------------------------------------------------------- run origins

  /** The first request of one execution; rows of runs that are not compared are ignored. */
  datatype OriginRow = OriginRow(run: RunId, scenario: string, stack: string, profile: string, index: int, time: int) {
    function Key(): (string, int) {
      (profile, index)
    }
  }

  type Identities = map<RunId, (string, string)>
  type Origins = map<RunId, RunOrigin>

  /** Rows of compared runs carry the run's own tags, and no execution is reported twice. */
  ghost predicate OriginsOnce(expected: Identities, rows: multiset<OriginRow>) {
    && (forall row :: row in rows && row.run in expected ==>
          rows[row] == 1 && expected[row.run] == (row.scenario, row.stack))
    && (forall row, other :: row in rows && other in rows && row.run in expected && SameOrigin(row, other) ==>
        row == other)
  }

  predicate SameOrigin(row: OriginRow, other: OriginRow) {
    row.run == other.run && row.Key() == other.Key()
  }

  function ReportedBy(rows: multiset<OriginRow>, run: RunId): set<(string, int)> {
    set row | row in rows && row.run == run :: row.Key()
  }

  /** Every compared run reports exactly its family's executions, each once and under its own tags. */
  ghost predicate OriginsAcceptable(expected: Identities, rows: multiset<OriginRow>) {
    && OriginsOnce(expected, rows)
    && forall run :: run in expected ==> ReportedBy(rows, run) == ExpectedExecutions(run.family)
  }

  function RowOf(expected: Identities, run: RunId, key: (string, int), time: int): OriginRow
    requires run in expected
  {
    OriginRow(run, expected[run].0, expected[run].1, key.0, key.1, time)
  }

  ghost predicate HasOrigin(rows: multiset<OriginRow>, row: OriginRow) {
    row in rows
  }

  /** A run's entry holds exactly the times reported for it. */
  ghost predicate EntryOf(
    expected: Identities, rows: multiset<OriginRow>, run: RunId, executions: map<(string, int), int>)
    requires run in expected
  {
    forall key, time :: HasOrigin(rows, RowOf(expected, run, key, time)) <==>
        key in executions && executions[key] == time
  }

  /** What has been read from `rows`: every reported time, and the exact minimum of each run. */
  ghost predicate OriginsOf(expected: Identities, rows: multiset<OriginRow>, origins: Origins) {
    && origins.Keys <= expected.Keys
    && (forall run :: run in origins ==> IsEarliest(origins[run]))
    && (forall run :: run in expected ==>
          EntryOf(expected, rows, run, if run in origins then origins[run].executions else map[]))
  }

  lemma OriginsOncePart(expected: Identities, part: multiset<OriginRow>, rest: multiset<OriginRow>)
    requires OriginsOnce(expected, part + rest)
    ensures OriginsOnce(expected, part)
  {
    forall row | row in part
      ensures row in part + rest && part[row] <= (part + rest)[row]
    {
    }
  }

  function AddTime(entry: Option<RunOrigin>, key: (string, int), time: int): RunOrigin {
    match entry
    case None => RunOrigin(time, map[key := time])
    case Some(e) => RunOrigin(if time < e.origin then time else e.origin, e.executions[key := time])
  }

  function Entry(origins: Origins, run: RunId): Option<RunOrigin> {
    if run in origins then Some(origins[run]) else None
  }

  lemma AddTimeKeepsEarliest(entry: Option<RunOrigin>, key: (string, int), time: int)
    requires entry.Some? ==> IsEarliest(entry.value) && key !in entry.value.executions
    ensures IsEarliest(AddTime(entry, key, time))
  {
    assert AddTime(entry, key, time).executions[key] == time;
    if entry.Some? {
      var k :| k in entry.value.executions && entry.value.executions[k] == entry.value.origin;
      assert AddTime(entry, key, time).executions[k] == entry.value.origin;
    }
  }

  lemma AddRowKeepsEntries(
    expected: Identities, rows: multiset<OriginRow>, row: OriginRow, run: RunId,
    executions: map<(string, int), int>)
    requires run in expected && EntryOf(expected, rows, run, executions)
    ensures row.run != run ==> EntryOf(expected, rows + multiset{row}, run, executions)
    ensures row.run == run && expected[run] == (row.scenario, row.stack) && row.Key() !in executions ==>
            EntryOf(expected, rows + multiset{row}, run, executions[row.Key() := row.time])
  {
    forall key, time
      ensures HasOrigin(rows + multiset{row}, RowOf(expected, run, key, time)) <==>
              HasOrigin(rows, RowOf(expected, run, key, time)) || RowOf(expected, run, key, time) == row
    {
    }
  }

  lemma NextOrigin(expected: Identities, rows: multiset<OriginRow>, origins: Origins, row: OriginRow)
    requires OriginsOnce(expected, rows) && OriginsOf(expected, rows, origins) && row.run in expected
    ensures OriginsOnce(expected, rows + multiset{row}) <==>
            (expected[row.run] == (row.scenario, row.stack) &&
             !(row.run in origins && row.Key() in origins[row.run].executions))
  {
    var now := rows + multiset{row};
    assert row in now && EntryOf(expected, rows, row.run, if row.run in origins then origins[row.run].executions
        else map[]);
    if row.run in origins && row.Key() in origins[row.run].executions {
      var other := RowOf(expected, row.run, row.Key(), origins[row.run].executions[row.Key()]);
      assert HasOrigin(rows, other) && other in now && SameOrigin(row, other);
      assert other == row ==> now[row] >= 2;
    } else if expected[row.run] == (row.scenario, row.stack) {
      forall other | other in rows && other.run == row.run
        ensures !SameOrigin(row, other)
      {
        assert HasOrigin(rows, RowOf(expected, row.run, other.Key(), other.time));
      }
    }
  }

  method AddOrigin(
    expected: Identities, ghost rows: multiset<OriginRow>, origins: Origins, row: OriginRow)
    returns (r: Result<Origins>)
    requires OriginsOnce(expected, rows) && OriginsOf(expected, rows, origins)
    ensures r.Ok? <==> OriginsOnce(expected, rows + multiset{row})
    ensures r.Ok? ==> OriginsOf(expected, rows + multiset{row}, r.value)
  {
    if row.run in expected {
      NextOrigin(expected, rows, origins, row);
      if expected[row.run] != (row.scenario, row.stack) {
        return Rejected("Raw origin does not match summary identity");
      }
      var entry := Entry(origins, row.run);
      if entry.Some? && row.Key() in entry.value.executions {
        return Rejected("Duplicate execution origin");
      }
      AddTimeKeepsEarliest(entry, row.Key(), row.time);
      r := Ok(origins[row.run := AddTime(entry, row.Key(), row.time)]);
    } else {
      r := Ok(origins);
    }
    forall run | run in expected {
      AddRowKeepsEntries(expected, rows, row, run, if run in origins then origins[run].executions else map[]);
    }
  }

  method ReadOrigins(expected: Identities, rows: seq<OriginRow>) returns (r: Result<Origins>)
    ensures r.Ok? <==> OriginsOnce(expected, multiset(rows))
    ensures r.Ok? ==> OriginsOf(expected, multiset(rows), r.value)
  {
    var origins: Origins := map[];
    for i := 0 to |rows|
      invariant OriginsOnce(expected, multiset(rows[..i])) && OriginsOf(expected, multiset(rows[..i]), origins)
    {
      assert rows[..i + 1] == rows[..i] + [rows[i]] && rows == rows[..i + 1] + rows[i + 1..];
      var added := AddOrigin(expected, multiset(rows[..i]), origins, rows[i]);
      if added.Rejected? {
        if OriginsOnce(expected, multiset(rows)) {
          OriginsOncePart(expected, multiset(rows[..i + 1]), multiset(rows[i + 1..]));
        }
        return Rejected(added.reason);
      }
      origins := added.value;
    }
    assert rows[..|rows|] == rows;
    r := Ok(origins);
  }

  predicate CompleteRun(origins: Origins, run: RunId) {
    run in origins && origins[run].executions.Keys == ExpectedExecutions(run.family)
  }

  lemma CompleteRunReports(expected: Identities, rows: multiset<OriginRow>, origins: Origins, run: RunId)
    requires OriginsOnce(expected, rows) && OriginsOf(expected, rows, origins) && run in expected
    ensures CompleteRun(origins, run) <==> ReportedBy(rows, run) == ExpectedExecutions(run.family)
  {
    var executions := if run in origins then origins[run].executions else map[];
    assert EntryOf(expected, rows, run, executions);
    forall row | row in rows && row.run == run
      ensures row.Key() in executions
    {
      assert HasOrigin(rows, RowOf(expected, run, row.Key(), row.time));
    }
    forall key | key in executions
      ensures key in ReportedBy(rows, run)
    {
      assert HasOrigin(rows, RowOf(expected, run, key, executions[key]));
    }
    assert ReportedBy(rows, run) == executions.Keys;
    FirstExecution(run.family);
  }

  method ParseOrigins(expected: Identities, rows: seq<OriginRow>) returns (r: Result<Origins>)
    ensures r.Ok? <==> OriginsAcceptable(expected, multiset(rows))
    ensures r.Ok? ==> r.value.Keys == expected.Keys && OriginsOf(expected, multiset(rows), r.value)
  {
    r := ReadOrigins(expected, rows);
    if r.Ok? {
      forall run | run in expected
        ensures CompleteRun(r.value, run) <==> ReportedBy(multiset(rows), run) == ExpectedExecutions(run.family)
      {
        CompleteRunReports(expected, multiset(rows), r.value, run);
      }
      if exists run :: run in expected && run !in r.value {
        return Rejected("Missing raw origins");
      }
      if exists run :: run in r.value && r.value[run].executions.Keys != ExpectedExecutions(run.family) {
        return Rejected("raw execution origins differ");
      }
    }
  }

  /** The times that a run's origins hold are those of its origin rows. */
  lemma OriginRows(
    expected: Identities, rows: multiset<OriginRow>, origins: Origins, run: RunId, latest: int)
    requires OriginsOnce(expected, rows) && OriginsOf(expected, rows, origins) && run in origins
    ensures (forall key :: key in origins[run].executions ==> latest <= origins[run].executions[key]) <==>
            (forall origin :: origin in rows && origin.run == run ==> latest <= origin.time)
  {
    var executions := origins[run].executions;
    assert EntryOf(expected, rows, run, executions);
    forall origin | origin in rows && origin.run == run
      ensures origin.Key() in executions && executions[origin.Key()] == origin.time
    {
      assert HasOrigin(rows, RowOf(expected, run, origin.Key(), origin.time));
    }
    forall key | key in executions
      ensures RowOf(expected, run, key, executions[key]) in rows
    {
      assert HasOrigin(rows, RowOf(expected, run, key, executions[key]));
    }
  }

  /**
    With the origins that were read for the compared runs, a whole-run timeline drops a row that has a
    time and a value exactly when it is stamped a full second or more before every origin of its run.
   */
  lemma EarlyRowsAreBeforeEveryOrigin(
    expected: Identities, rows: multiset<OriginRow>, origins: Origins, run: RunId, row: AggregateRow,
    num: string -> Option<real>)
    requires OriginsAcceptable(expected, rows) && OriginsOf(expected, rows, origins) && run in origins
    requires row.time.Some? && row.value != ""
    ensures ReadRow(row, run.family, origins[run], WholeRun, num).Skipped? <==>
            forall origin :: origin in rows && origin.run == run ==> row.time.value <= origin.time - SECOND
  {
    WholeRunDropsOnlyEarlyRows(row, run.family, origins[run], num);
    OriginRows(expected, rows, origins, run, row.time.value + SECOND);
  }

  // ------------------------------------------------------------- where a row goes

  /** A row `offset` nanoseconds after an origin belongs to its whole second; a full second early is too early. */
  predicate GoesTo(offset: int, bucket: int) {
    && offset > -1_000_000_000
    && bucket % 1_000_000_000 == 0
    && if offset < 0 then bucket == 0 else bucket <= offset < bucket + 1_000_000_000
  }

  /** The origin that a row is measured from, and the repeat it goes to. */
  predicate MeasuredFrom(
    row: AggregateRow, family: Family, run: RunOrigin, view: View, repeat: Option<nat>, origin: int)
  {
    match view
    case WholeRun => repeat == None && origin == run.origin
    case OneProfile(profile) =>
      && repeat.Some? && Plays(family, row.profile, row.index, profile, repeat.value)
      && (row.profile, row.index) in run.executions && origin == run.executions[(row.profile, row.index)]
  }

  lemma BucketOfOffset(time: int, origin: int, bucket: int)
    ensures GoesTo(time - origin, bucket) <==> ElapsedBucket(time, origin) == bucket && bucket >= 0
  {
  }

  /**
    A timed, valued row is dropped exactly when it is a full second or more before the origin it is
    measured from: for one profile its own execution's, whatever the run's is. Otherwise its value goes
    into its whole second, in its own repeat.
   */
  lemma RowsAlign(
    row: AggregateRow, family: Family, run: RunOrigin, view: View, num: string -> Option<real>, repeat: Option<nat>,
    origin: int)
    requires row.time.Some? && row.value != "" && MeasuredFrom(row, family, run, view, repeat, origin)
    ensures var reading := ReadRow(row, family, run, view, num);
      && (reading.Skipped? <==> row.time.value - origin <= -1_000_000_000)
      && (reading.Faulty? <==> row.time.value - origin > -1_000_000_000 && num(row.value).None?)
      && (reading.Kept? ==>
            reading.repeat == repeat && num(row.value) == Some(reading.value) &&
            GoesTo(row.time.value - origin, reading.bucket))
  {
    BucketOfOffset(row.time.value, origin, ElapsedBucket(row.time.value, origin));
    if view.OneProfile? {
      SlotsArePlayed(family, row.profile, row.index, view.profile, repeat.value);
    }
  }

  /** What else can be wrong with a row, or make it another chart's. */
  lemma RowsElsewhere(row: AggregateRow, family: Family, run: RunOrigin, profile: Profile, num: string -> Option<real>)
    ensures var reading := ReadRow(row, family, run, OneProfile(profile), num);
      && (row.time.None? || row.value == "" ==> reading.Skipped?)
      && (row.time.Some? && row.value != "" ==>
            && ((forall other, repeat :: !Plays(family, row.profile, row.index, other, repeat)) ==> reading.Faulty?)
            && ((exists other, repeat :: Plays(family, row.profile, row.index, other, repeat) && other != profile) ==>
                  reading.Skipped?)
            && ((exists repeat :: Plays(family, row.profile, row.index, profile, repeat)) ==>
                  (row.profile, row.index) !in run.executions ==> reading.Faulty?))
  {
    forall other, repeat: nat
      ensures ProfileSlot(family, row.profile, row.index) == Some((other, repeat)) <==>
              Plays(family, row.profile, row.index, other, repeat)
    {
      SlotsArePlayed(family, row.profile, row.index, other, repeat);
    }
  }

  /** With the origins that were read, the repeats of a profile start at the origin row of their own execution. */
  lemma RepeatsAlignToOriginRows(
    expected: Identities, rows: multiset<OriginRow>, origins: Origins, start: OriginRow, row: AggregateRow,
    profile: Profile, repeat: nat, num: string -> Option<real>)
    requires OriginsAcceptable(expected, rows) && OriginsOf(expected, rows, origins)
    requires start in rows && start.run in origins && (start.profile, start.index) == (row.profile, row.index)
    requires row.time.Some? && row.value != "" && Plays(start.run.family, row.profile, row.index, profile, repeat)
    ensures var reading := ReadRow(row, start.run.family, origins[start.run], OneProfile(profile), num);
      && (reading.Skipped? <==> row.time.value - start.time <= -1_000_000_000)
      && (reading.Kept? ==> reading.repeat == Some(repeat) && GoesTo(row.time.value - start.time, reading.bucket))
  {
    assert EntryOf(expected, rows, start.run, origins[start.run].executions);
    assert HasOrigin(rows, RowOf(expected, start.run, start.Key(), start.time));
    RowsAlign(row, start.run.family, origins[start.run], OneProfile(profile), num, Some(repeat), start.time);
  }

  // ------------------------------------------------------------- segments

  datatype Point = Point(seconds: real, mean: real)

  ghost predicate Increasing(times: seq<int>) {
    forall i, j :: 0 <= i < j < |times| ==> times[i] < times[j]
  }

  function Jump(times: seq<int>, i: nat): nat
    requires 0 < i < |times|
  {
    if times[i] - times[i - 1] > GAP then 1 else 0
  }

  /**
    The segment number of each time: it starts at zero and goes up by one exactly where two
    neighbours are more than 60 seconds apart.
   */
  ghost predicate Labelled(times: seq<int>, labels: seq<nat>) {
    && |labels| == |times|
    && (times != [] ==> labels[0] == 0)
    && forall i {:trigger Jump(times, i)} :: 0 < i < |times| ==> labels[i] == labels[i - 1] + Jump(times, i)
  }

  lemma LabelNext(times: seq<int>, labels: seq<nat>, i: nat, segment: nat)
    requires i < |times| && Labelled(times[..i], labels)
    requires segment == if i == 0 then 0 else labels[i - 1] + Jump(times, i)
    ensures Labelled(times[..i + 1], labels + [segment])
  {
    forall j | 0 < j < i + 1
      ensures (labels + [segment])[j] == (labels + [segment])[j - 1] + Jump(times[..i + 1], j)
    {
      if j < i {
        assert labels[j] == labels[j - 1] + Jump(times[..i], j);
      }
    }
  }

  /** Segments are numbered contiguously, and a segment is one unbroken stretch of the times. */
  lemma {:induction false} LabelsAreContiguous(times: seq<int>, labels: seq<nat>)
    requires Labelled(times, labels) && times != []
    ensures forall i, j :: 0 <= i < j < |labels| ==> labels[i] <= labels[j]
    ensures forall s: nat :: s in labels <==> s <= labels[|labels| - 1]
  {
    var n := |times| - 1;
    if n == 0 {
    } else {
      assert labels[n] == labels[n - 1] + Jump(times, n);
      assert Labelled(times[..n], labels[..n]) by {
        forall i | 0 < i < n
          ensures labels[..n][i] == labels[..n][i - 1] + Jump(times[..n], i)
        {
          assert labels[i] == labels[i - 1] + Jump(times, i);
        }
      }
      LabelsAreContiguous(times[..n], labels[..n]);
      assert labels == labels[..n] + [labels[n]];
    }
  }

  /** The points that carry a label, in order. */
  function Collect(labels: seq<nat>, points: seq<Point>, segment: nat): (ps: seq<Point>)
    requires |labels| == |points|
    ensures ps != [] <==> segment in labels
  {
    if labels == [] then [] else
    var n := |labels| - 1;
    assert labels == labels[..n] + [labels[n]];
    Collect(labels[..n], points[..n], segment) + (if labels[n] == segment then [points[n]] else [])
  }

  function Sum(values: seq<real>): real {
    if values == [] then 0.0 else Sum(values[..|values| - 1]) + values[|values| - 1]
  }

  function Mean(values: seq<real>): real
    requires values != []
  {
    Sum(values) / |values| as real
  }

  function PointAt(time: int, buckets: map<int, seq<real>>): Point
    requires time in buckets && buckets[time] != []
  {
    Point(time as real / SECOND as real, Mean(buckets[time]))
  }

  function PointsAt(times: seq<int>, buckets: map<int, seq<real>>): (ps: seq<Point>)
    requires forall t :: t in times ==> t in buckets && buckets[t] != []
    ensures |ps| == |times|
  {
    seq(|times|, i requires 0 <= i < |times| => PointAt(times[i], buckets))
  }

  type Segments = map<(Option<nat>, nat), seq<Point>>

  /** The segments of one repeat are its labelled points. */
  ghost predicate HoldsRepeat(result: Segments, repeat: Option<nat>, labels: seq<nat>, points: seq<Point>)
    requires |labels| == |points|
  {
    forall s: nat :: if s in labels then (repeat, s) in result && result[(repeat, s)] == Collect(labels, points, s)
                     else (repeat, s) !in result
  }

  /** result.setdefault(key, []).append(point) */
  function Append(result: Segments, key: (Option<nat>, nat), point: Point): Segments {
    result[key := (if key in result then result[key] else []) + [point]]
  }

  lemma AppendPoint(
    result: Segments, repeat: Option<nat>, labels: seq<nat>, points: seq<Point>, segment: nat, point: Point)
    requires |labels| == |points| && HoldsRepeat(result, repeat, labels, points)
    ensures HoldsRepeat(Append(result, (repeat, segment), point), repeat, labels + [segment], points + [point])
  {
    assert (labels + [segment])[..|labels|] == labels && (points + [point])[..|points|] == points;
  }

  lemma AppendTime(result: Segments, repeat: Option<nat>, times: seq<int>, points: seq<Point>, i: nat,
                   labels: seq<nat>, segment: nat)
    requires i < |times| == |points|
    requires Labelled(times[..i], labels) && HoldsRepeat(result, repeat, labels, points[..i])
    requires segment == if i == 0 then 0 else labels[i - 1] + Jump(times, i)
    ensures Labelled(times[..i + 1], labels + [segment])
    ensures HoldsRepeat(Append(result, (repeat, segment), points[i]), repeat, labels + [segment], points[..i + 1])
  {
    LabelNext(times, labels, i, segment);
    AppendPoint(result, repeat, labels, points[..i], segment, points[i]);
    assert points[..i + 1] == points[..i] + [points[i]];
  }

  ghost predicate SameElsewhere(extended: Segments, result: Segments, repeat: Option<nat>) {
    forall r: Option<nat>, s: nat :: r != repeat ==>
      ((r, s) in extended <==> (r, s) in result) && ((r, s) in result ==> extended[(r, s)] == result[(r, s)])
  }

  lemma AppendElsewhere(result: Segments, before: Segments, repeat: Option<nat>, segment: nat, point: Point)
    requires SameElsewhere(result, before, repeat)
    ensures SameElsewhere(Append(result, (repeat, segment), point), before, repeat)
  {
  }

  /** The inner loop over one repeat's sorted buckets. */
  method SegmentRepeat(result: Segments, repeat: Option<nat>, times: seq<int>, points: seq<Point>)
    returns (extended: Segments, ghost labels: seq<nat>)
    requires |times| == |points|
    requires forall s: nat :: (repeat, s) !in result
    ensures Labelled(times, labels) && HoldsRepeat(extended, repeat, labels, points)
    ensures SameElsewhere(extended, result, repeat)
  {
    extended, labels := result, [];
    var segment, previous := 0, None;
    for i := 0 to |times|
      invariant previous == if i == 0 then None else Some(times[i - 1])
      invariant Labelled(times[..i], labels) && segment == if i == 0 then 0 else labels[i - 1]
      invariant HoldsRepeat(extended, repeat, labels, points[..i])
      invariant SameElsewhere(extended, result, repeat)
    {
      if previous.Some? && times[i] - previous.value > GAP {
        segment := segment + 1;
      }
      AppendTime(extended, repeat, times, points, i, labels, segment);
      AppendElsewhere(extended, result, repeat, segment, points[i]);
      extended := Append(extended, (repeat, segment), points[i]);
      labels := labels + [segment];
      previous := Some(times[i]);
    }
    assert times[..|times|] == times && points[..|times|] == points;
  }

  // ------------------------------------------------------------- the dataset

  /** The readings of a list of rows, one for each. */
  ghost function Readings(
    rows: seq<AggregateRow>, family: Family, run: RunOrigin, view: View, num: string -> Option<real>): seq<Reading>
  {
    seq(|rows|, i requires 0 <= i < |rows| => ReadRow(rows[i], family, run, view, num))
  }

  /** All values of one bucket, in row order. */
  ghost function ValuesAt(readings: seq<Reading>, repeat: Option<nat>, bucket: int): seq<real> {
    if readings == [] then [] else
    var last := readings[|readings| - 1];
    ValuesAt(readings[..|readings| - 1], repeat, bucket) +
    (if last.Kept? && last.repeat == repeat && last.bucket == bucket then [last.value] else [])
  }

  type Buckets = map<(Option<nat>, int), seq<real>>

  ghost predicate Bucket(buckets: Buckets, readings: seq<Reading>) {
    forall repeat: Option<nat>, bucket: int ::
      if ValuesAt(readings, repeat, bucket) == [] then (repeat, bucket) !in buckets
      else (repeat, bucket) in buckets && buckets[(repeat, bucket)] == ValuesAt(readings, repeat, bucket)
  }

  ghost predicate NoFault(readings: seq<Reading>) {
    forall r :: r in readings ==> !r.Faulty?
  }

  lemma AppendReading(buckets: Buckets, readings: seq<Reading>, r: Reading)
    requires Bucket(buckets, readings)
    ensures !r.Kept? ==> Bucket(buckets, readings + [r])
    ensures r.Kept? ==>
      var key := (r.repeat, r.bucket);
      var sofar := if key in buckets then buckets[key] else [];
      Bucket(buckets[key := sofar + [r.value]], readings + [r])
  {
    assert (readings + [r])[..|readings|] == readings;
  }

  method FillBuckets(rows: seq<AggregateRow>, family: Family, run: RunOrigin, view: View, num: string -> Option<real>)
    returns (r: Result<Buckets>)
    ensures var readings := Readings(rows, family, run, view, num);
      && (r.Ok? <==> NoFault(readings))
      && (r.Ok? ==> Bucket(r.value, readings))
  {
    var buckets: Buckets := map[];
    ghost var readings := Readings(rows, family, run, view, num);
    for i := 0 to |rows|
      invariant NoFault(readings[..i]) && Bucket(buckets, readings[..i])
    {
      var reading := ReadRow(rows[i], family, run, view, num);
      assert readings[i] == reading && reading in readings && readings[..i + 1] == readings[..i] + [reading];
      AppendReading(buckets, readings[..i], reading);
      match reading {
        case Skipped =>
        case Faulty => return Rejected("Unexpected execution or non-finite value");
        case Kept(repeat, bucket, value) =>
          var sofar := if (repeat, bucket) in buckets then buckets[(repeat, bucket)] else [];
          buckets := buckets[(repeat, bucket) := sofar + [value]];
      }
    }
    assert readings[..|rows|] == readings;
    r := Ok(buckets);
  }

  function Itself(t: int): int {
    t
  }

  /** The distinct bucket times of one repeat, in increasing order. */
  method SortTimes(buckets: Buckets, repeat: Option<nat>) returns (sorted: seq<int>)
    ensures Increasing(sorted) && forall t :: t in sorted <==> (repeat, t) in buckets
  {
    var keys := set key | key in buckets && key.0 == repeat;
    var todo, listed := keys, [];
    while todo != {}
      invariant todo <= keys && Distinct(listed)
      invariant forall t :: t in listed <==> (repeat, t) in keys - todo
      decreases |todo|
    {
      var key :| key in todo;
      todo, listed := todo - {key}, listed + [key.1];
    }
    sorted := SortBy(listed, Itself);
    SortedDistinct(listed, sorted);
  }

  lemma SortedDistinct(listed: seq<int>, sorted: seq<int>)
    requires Distinct(listed) && multiset(sorted) == multiset(listed)
    requires SortedBy(sorted, Itself)
    ensures Increasing(sorted) && forall t :: t in sorted <==> t in listed
  {
    DistinctIffNoRepeats(listed);
    DistinctIffNoRepeats(sorted);
    forall t
      ensures t in sorted <==> t in listed
    {
      assert t in multiset(sorted) <==> t in multiset(listed);
    }
  }

  ghost function Values(times: seq<int>, readings: seq<Reading>, repeat: Option<nat>): map<int, seq<real>> {
    map t | t in times :: ValuesAt(readings, repeat, t)
  }

  /**
    What the timeline shows of one repeat: `times` are its distinct buckets in order, `labels` their
    segments, and each point is the mean of every value read into its bucket.
   */
  ghost predicate ShowsRepeat(
    result: Segments, readings: seq<Reading>, repeat: Option<nat>, times: seq<int>, labels: seq<nat>)
  {
    && Increasing(times)
    && (forall t :: t in times <==> ValuesAt(readings, repeat, t) != [])
    && Labelled(times, labels)
    && HoldsRepeat(result, repeat, labels, PointsAt(times, Values(times, readings, repeat)))
  }

  ghost predicate TimelineShown(result: Segments, readings: seq<Reading>, repeat: Option<nat>) {
    exists times, labels :: ShowsRepeat(result, readings, repeat, times, labels)
  }

  lemma StillShown(before: Segments, after: Segments, readings: seq<Reading>, added: Option<nat>, repeat: Option<nat>)
    requires SameElsewhere(after, before, added) && repeat != added && TimelineShown(before, readings, repeat)
    ensures TimelineShown(after, readings, repeat)
  {
    var times, labels :| ShowsRepeat(before, readings, repeat, times, labels);
    assert ShowsRepeat(after, readings, repeat, times, labels);
  }

  lemma NothingToShow(result: Segments, readings: seq<Reading>, repeat: Option<nat>)
    requires forall t :: ValuesAt(readings, repeat, t) == []
    requires forall s: nat :: (repeat, s) !in result
    ensures TimelineShown(result, readings, repeat)
  {
    assert ShowsRepeat(result, readings, repeat, [], []);
  }

  /** The buckets of one repeat, sorted and segmented. */
  method ShowRepeat(
    result: Segments, buckets: Buckets, repeat: Option<nat>, ghost readings: seq<Reading>)
    returns (extended: Segments)
    requires Bucket(buckets, readings)
    requires forall s: nat :: (repeat, s) !in result
    ensures TimelineShown(extended, readings, repeat) && SameElsewhere(extended, result, repeat)
  {
    var times := SortTimes(buckets, repeat);
    var values := map t | t in times :: buckets[(repeat, t)];
    assert values == Values(times, readings, repeat);
    ghost var labels;
    extended, labels := SegmentRepeat(result, repeat, times, PointsAt(times, values));
    assert ShowsRepeat(extended, readings, repeat, times, labels);
  }

  method ParseAggregateRows(
    rows: seq<AggregateRow>, family: Family, run: RunOrigin, view: View, num: string -> Option<real>)
    returns (r: Result<Segments>)
    ensures var readings := Readings(rows, family, run, view, num);
      && (r.Ok? <==> NoFault(readings) && exists reading :: reading in readings && reading.Kept?)
      && (r.Ok? ==> forall repeat :: TimelineShown(r.value, readings, repeat))
  {
    ghost var readings := Readings(rows, family, run, view, num);
    var filled := FillBuckets(rows, family, run, view, num);
    if filled.Rejected? {
      return Rejected(filled.reason);
    }
    var buckets := filled.value;
    KeptIsBucketed(buckets, readings);
    if buckets == map[] {
      return Rejected("No aggregate time-series values");
    }
    var result: Segments := map[];
    var repeats := set key | key in buckets :: key.0;
    var todo := repeats;
    while |todo| > 0
      invariant todo <= repeats
      invariant forall repeat :: repeat in repeats - todo ==> TimelineShown(result, readings, repeat)
      invariant forall repeat: Option<nat>, s: nat :: repeat !in repeats - todo ==> (repeat, s) !in result
      decreases |todo|
    {
      var repeat :| repeat in todo;
      ghost var before := result;
      result := ShowRepeat(result, buckets, repeat, readings);
      forall other | other in repeats - todo
        ensures TimelineShown(result, readings, other)
      {
        StillShown(before, result, readings, repeat, other);
      }
      todo := todo - {repeat};
    }
    forall repeat: Option<nat> | repeat !in repeats
      ensures TimelineShown(result, readings, repeat)
    {
      assert forall t :: (repeat, t) in buckets ==> (repeat, t).0 in repeats;
      NothingToShow(result, readings, repeat);
    }
    r := Ok(result);
  }

  lemma {:induction false} KeptIsBucketed(buckets: Buckets, readings: seq<Reading>)
    requires Bucket(buckets, readings)
    ensures buckets != map[] <==> exists r :: r in readings && r.Kept?
  {
    if buckets == map[] {
    } else {
      var key :| key in buckets;
      KeptHasValue(readings, key.0, key.1);
    }
    forall r | r in readings && r.Kept?
      ensures buckets != map[]
    {
      KeptHasValue(readings, r.repeat, r.bucket);
      assert (r.repeat, r.bucket) in buckets;
    }
  }

  lemma {:induction false} KeptHasValue(readings: seq<Reading>, repeat: Option<nat>, bucket: int)
    ensures ValuesAt(readings, repeat, bucket) != [] <==>
            exists r :: r in readings && r.Kept? && r.repeat == repeat && r.bucket == bucket
  {
    if readings == [] {
    } else {
      KeptHasValue(readings[..|readings| - 1], repeat, bucket);
      assert readings == readings[..|readings| - 1] + [readings[|readings| - 1]];
    }
  }

  // ------------------------------------------------------------- what a chart shows of a row

  /** The whole second, and the mean of its values. */
  predicate IsMean(p: Point, bucket: int, values: seq<real>) {
    p.seconds * 1_000_000_000.0 == bucket as real && p.mean * |values| as real == Sum(values)
  }

  ghost predicate HasPoint(result: Segments, repeat: Option<nat>, bucket: int, values: seq<real>) {
    exists s: nat, i: nat ::
      (repeat, s) in result && i < |result[(repeat, s)]| && IsMean(result[(repeat, s)][i], bucket, values)
  }

  lemma {:induction false} CollectHas(labels: seq<nat>, points: seq<Point>, i: nat) returns (j: nat)
    requires |labels| == |points| && i < |labels|
    ensures j < |Collect(labels, points, labels[i])| && Collect(labels, points, labels[i])[j] == points[i]
  {
    var n := |labels| - 1;
    if i == n {
      j := |Collect(labels[..n], points[..n], labels[n])|;
    } else {
      j := CollectHas(labels[..n], points[..n], i);
    }
  }

  lemma LabelledIsHeld(result: Segments, repeat: Option<nat>, labels: seq<nat>, points: seq<Point>, i: nat)
    returns (j: nat)
    requires |labels| == |points| && i < |labels| && HoldsRepeat(result, repeat, labels, points)
    ensures (repeat, labels[i]) in result && j < |result[(repeat, labels[i])]|
    ensures result[(repeat, labels[i])][j] == points[i]
  {
    j := CollectHas(labels, points, i);
    assert labels[i] in labels;
  }

  lemma PointIsMean(bucket: int, buckets: map<int, seq<real>>)
    requires bucket in buckets && buckets[bucket] != []
    ensures IsMean(PointAt(bucket, buckets), bucket, buckets[bucket])
  {
  }

  /** Every bucket with values is a point of its repeat. */
  lemma BucketIsShown(result: Segments, readings: seq<Reading>, repeat: Option<nat>, bucket: int)
    requires TimelineShown(result, readings, repeat) && ValuesAt(readings, repeat, bucket) != []
    ensures HasPoint(result, repeat, bucket, ValuesAt(readings, repeat, bucket))
  {
    var times, labels :| ShowsRepeat(result, readings, repeat, times, labels);
    var values := Values(times, readings, repeat);
    var i :| 0 <= i < |times| && times[i] == bucket;
    var j := LabelledIsHeld(result, repeat, labels, PointsAt(times, values), i);
    PointIsMean(bucket, values);
  }

  lemma {:induction false} ReadingIsValue(readings: seq<Reading>, k: nat)
    requires k < |readings| && readings[k].Kept?
    ensures readings[k].value in ValuesAt(readings, readings[k].repeat, readings[k].bucket)
  {
    var n := |readings| - 1;
    if k == n {
    } else {
      ReadingIsValue(readings[..n], k);
    }
  }

  /** A row that is not too early is in the chart, in its own repeat and at its own whole second. */
  lemma RowIsDrawn(
    rows: seq<AggregateRow>, family: Family, run: RunOrigin, view: View, num: string -> Option<real>, result: Segments,
    k: nat, repeat: Option<nat>, origin: int)
    requires k < |rows| && rows[k].time.Some? && num(rows[k].value).Some? && rows[k].value != ""
    requires MeasuredFrom(rows[k], family, run, view, repeat, origin)
    requires rows[k].time.value - origin > -1_000_000_000
    requires TimelineShown(result, Readings(rows, family, run, view, num), repeat)
    ensures exists bucket, values ::
              GoesTo(rows[k].time.value - origin, bucket) && num(rows[k].value).value in values &&
              HasPoint(result, repeat, bucket, values)
  {
    var readings := Readings(rows, family, run, view, num);
    RowsAlign(rows[k], family, run, view, num, repeat, origin);
    ReadingIsValue(readings, k);
    BucketIsShown(result, readings, repeat, readings[k].bucket);
  }

  /** A new segment starts exactly after more than 60 seconds without a point. */
  lemma SegmentsSplitAtGaps(times: seq<int>, labels: seq<nat>, i: nat)
    requires Labelled(times, labels) && 0 < i < |times|
    ensures labels[i] == labels[i - 1] + if times[i] - times[i - 1] > 60_000_000_000 then 1 else 0
  {
    assert labels[i] == labels[i - 1] + Jump(times, i);
  }

  /** Sum adds up its values, in any grouping. */
  lemma {:induction false} SumConcat(a: seq<real>, b: seq<real>)
    ensures Sum([]) == 0.0 && (forall x :: Sum([x]) == x) && Sum(a + b) == Sum(a) + Sum(b)
  {
    forall x: real
      ensures Sum([x]) == x
    {
      assert [x][..0] == [];
    }
    if b == [] {
      assert a + b == a;
    } else {
      SumConcat(a, b[..|b| - 1]);
      assert (a + b)[..|a + b| - 1] == a + b[..|b| - 1];
    }
  }
}
