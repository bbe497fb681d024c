/** Writing one raw result file: tag verification, batching, and the last-write-wins point store. */
module RawImport {
  import opened Common

  type TagMap = map<string, string>

  /** A point's identity in the database. */
  datatype PointKey = PointKey(measurement: string, tags: TagMap, time: int)
  datatype Point = Point(key: PointKey, fields: map<string, real>)

  /** One line of the file; a value that is not a number is `None`. */
  datatype Line = OtherLine | PointLine(metric: string, tags: TagMap, time: int, value: Option<real>)

  const BATCH := 25000

  /** The identity tags that are copied from the record onto every point. */
  predicate Enriched(tag: string) {
    StartsWith(tag, "wtt_tls_group_") || tag == "wtt_run_name" || tag == "wtt_execution_index"
  }

  function Enrich(tags: TagMap, recordTags: TagMap, seen: set<string>, enriched: string -> bool): TagMap {
    tags + map tag | tag in seen && tag in recordTags && enriched(tag) :: recordTags[tag]
  }

  /** Tags that a line and its record both have are equal. */
  predicate TagsAgree(tags: TagMap, recordTags: TagMap) {
    TagsAgreeOn(tags, recordTags, recordTags.Keys)
  }

  predicate TagsAgreeOn(tags: TagMap, recordTags: TagMap, seen: set<string>) {
    forall tag :: tag in seen && tag in recordTags && tag in tags ==> tags[tag] == recordTags[tag]
  }

  lemma EnrichOne(tags: TagMap, recordTags: TagMap, seen: set<string>, tag: string, enriched: string -> bool)
    requires tag in recordTags && tag !in seen && TagsAgreeOn(tags, recordTags, seen)
    ensures var before := Enrich(tags, recordTags, seen, enriched);
      && Enrich(tags, recordTags, seen + {tag}, enriched) ==
          (if enriched(tag) then before[tag := recordTags[tag]] else before)
      && ((tag in before ==> before[tag] == recordTags[tag]) <==> TagsAgreeOn(tags, recordTags, seen + {tag}))
  {
  }

  /** The loop over the record's tags, whose keys it visits in any order. */
  method VerifyTags(tags: TagMap, recordTags: TagMap, enriched: string -> bool) returns (r: Result<TagMap>)
    ensures r.Ok? <==> TagsAgree(tags, recordTags)
    ensures r.Ok? ==> r.value == Enrich(tags, recordTags, recordTags.Keys, enriched)
  {
    var todo, verified := recordTags.Keys, tags;
    ghost var seen := {};
    assert verified == Enrich(tags, recordTags, seen, enriched);
    while todo != {}
      invariant forall tag :: tag in recordTags.Keys <==> tag in todo || tag in seen
      invariant todo !! seen
      invariant TagsAgreeOn(tags, recordTags, seen) && verified == Enrich(tags, recordTags, seen, enriched)
      decreases |todo|
    {
      var tag :| tag in todo;
      EnrichOne(tags, recordTags, seen, tag, enriched);
      if tag in verified && verified[tag] != recordTags[tag] {
        return Rejected("Raw/record metadata disagree");
      }
      if enriched(tag) {
        verified := verified[tag := recordTags[tag]];
      }
      todo, seen := todo - {tag}, seen + {tag};
    }
    assert seen == recordTags.Keys;
    r := Ok(verified);
  }

  /** The stored form of a line, or why it is refused. */
  function Convert(line: Line, recordTags: TagMap): Result<Point>
    requires line.PointLine?
  {
    if !TagsAgree(line.tags, recordTags) then Rejected("Raw/record metadata disagree")
    else if line.value.None? then Rejected("could not convert string to float")
    else Ok(Point(PointKey("k6_raw", map["metric" := line.metric] +
        Enrich(line.tags, recordTags, recordTags.Keys, Enriched), line.time),
                  map["value" := line.value.value]))
  }

  predicate Refused(line: Line, recordTags: TagMap) {
    line.PointLine? && Convert(line, recordTags).Rejected?
  }

  method ConvertLine(line: Line, recordTags: TagMap) returns (r: Result<Point>)
    requires line.PointLine?
    ensures r == Convert(line, recordTags)
  {
    var tags := VerifyTags(line.tags, recordTags, Enriched);
    if tags.Rejected? {
      return Convert(line, recordTags);
    }
    match line.value {
      case None => r := Rejected("could not convert string to float");
      case Some(value) =>
        var key := PointKey("k6_raw", map["metric" := line.metric] + tags.value, line.time);
        r := Ok(Point(key, map["value" := value]));
    }
  }

  /** The points of the lines that are not refused, in order. */
  function Points(lines: seq<Line>, recordTags: TagMap): seq<Point> {
    if lines == [] then [] else Points(lines[..|lines| - 1], recordTags) + PointsOf(lines[|lines| - 1], recordTags)
  }

  function PointsOf(line: Line, recordTags: TagMap): seq<Point> {
    if line.OtherLine? then [] else
    match Convert(line, recordTags)
    case Ok(point) => [point]
    case Rejected(_) => []
  }

  /** How many lines come before the first refused one. */
  function Good(lines: seq<Line>, recordTags: TagMap): (n: nat)
    ensures n <= |lines| && forall i :: 0 <= i < n ==> !Refused(lines[i], recordTags)
    ensures n < |lines| ==> Refused(lines[n], recordTags)
  {
    if lines == [] || Refused(lines[0], recordTags) then 0 else 1 + Good(lines[1..], recordTags)
  }

  function Flatten<T>(batches: seq<seq<T>>): seq<T> {
    if batches == [] then [] else Flatten(batches[..|batches| - 1]) + batches[|batches| - 1]
  }

  /** The number of Point lines. */
  function PointLines(lines: seq<Line>): nat {
    if lines == [] then 0 else PointLines(lines[..|lines| - 1]) + (if lines[|lines| - 1].PointLine? then 1 else 0)
  }

  method CountPoints(lines: seq<Line>) returns (total: nat)
    ensures total == PointLines(lines)
  {
    total := 0;
    for i := 0 to |lines|
      invariant total == PointLines(lines[..i])
    {
      assert lines[..i + 1][..i] == lines[..i];
      if lines[i].PointLine? {
        total := total + 1;
      }
    }
    assert lines[..|lines|] == lines;
  }

  // ------------------------------------------------------------- what a point says of its line

  /** The record's tags that every point carries, by their names. */
  predicate CarriedTag(tag: string) {
    || (|tag| >= 14 && tag[..14] == "wtt_tls_group_")
    || tag == "wtt_run_name"
    || tag == "wtt_execution_index"
  }

  /** The line's value and time, its metric, its own tags, and the record's carried ones; nothing else. */
  ghost predicate TellsOf(line: Line, recordTags: TagMap, p: Point) {
    && line.PointLine? && line.value.Some?
    && p.key.measurement == "k6_raw" && p.key.time == line.time
    && p.fields == map["value" := line.value.value]
    && (forall tag :: tag in p.key.tags <==>
          tag == "metric" || tag in line.tags || (tag in recordTags && CarriedTag(tag)))
    && (forall tag :: tag in line.tags ==> p.key.tags[tag] == line.tags[tag])
    && (forall tag :: tag in recordTags && CarriedTag(tag) ==> p.key.tags[tag] == recordTags[tag])
    && ("metric" !in line.tags ==> p.key.tags["metric"] == line.metric)
  }

  /** A line that cannot be stored: it disagrees with its record, or its value is no number. */
  ghost predicate Faulty(line: Line, recordTags: TagMap) {
    && line.PointLine?
    && ((exists tag :: tag in line.tags && tag in recordTags && line.tags[tag] != recordTags[tag]) || line.value.None?)
  }

  lemma ConvertTells(line: Line, recordTags: TagMap)
    requires line.PointLine?
    ensures Convert(line, recordTags).Rejected? <==> Faulty(line, recordTags)
    ensures Convert(line, recordTags).Ok? ==> TellsOf(line, recordTags, Convert(line, recordTags).value)
  {
    CarriedIsEnriched();
    if TagsAgree(line.tags, recordTags) && line.value.Some? {
      var tags := Enrich(line.tags, recordTags, recordTags.Keys, Enriched);
      assert forall tag :: tag in tags <==> tag in line.tags || (tag in recordTags && CarriedTag(tag));
      assert !CarriedTag("metric");
      assert forall tag :: tag in line.tags ==> tags[tag] == line.tags[tag];
    }
  }

  lemma CarriedIsEnriched()
    ensures forall tag :: Enriched(tag) <==> CarriedTag(tag)
  {
    assert |"wtt_tls_group_"| == 14;
  }

  /** Points of lines that have different metrics and carry no metric tag of their own have different keys. */
  lemma MetricsApart(a: Line, b: Line, recordTags: TagMap, p: Point, q: Point)
    requires TellsOf(a, recordTags, p) && TellsOf(b, recordTags, q)
    requires a.metric != b.metric && "metric" !in a.tags && "metric" !in b.tags
    ensures p.key != q.key
  {
  }

  /** The point of the n-th line is the one after those of the Point lines before it. */
  lemma {:induction false} PointOfLine(lines: seq<Line>, recordTags: TagMap, n: nat)
    requires n < |lines| && lines[n].PointLine? && forall line :: line in lines ==> !Refused(line, recordTags)
    ensures |Points(lines, recordTags)| == PointLines(lines) && PointLines(lines[..n]) < PointLines(lines)
    ensures TellsOf(lines[n], recordTags, Points(lines, recordTags)[PointLines(lines[..n])])
  {
    var init, last := lines[..|lines| - 1], lines[|lines| - 1];
    assert last in lines && forall line :: line in init ==> line in lines;
    PointsCounted(init, recordTags);
    if n == |lines| - 1 {
      ConvertTells(last, recordTags);
    } else {
      PointOfLine(init, recordTags, n);
      assert init[..n] == lines[..n];
    }
  }

  lemma {:induction false} PointsCounted(lines: seq<Line>, recordTags: TagMap)
    requires forall line :: line in lines ==> !Refused(line, recordTags)
    ensures |Points(lines, recordTags)| == PointLines(lines)
  {
    if lines == [] {
    } else {
      var init, last := lines[..|lines| - 1], lines[|lines| - 1];
      assert last in lines && forall line :: line in init ==> line in lines;
      PointsCounted(init, recordTags);
    }
  }

  datatype Outcome = WarmupSkipped | NoObservations | Failed(reason: string) | Imported(points: nat)

  ghost predicate FullBatches(writes: seq<seq<Point>>) {
    forall i :: 0 <= i < |writes| ==> |writes[i]| == BATCH
  }

  /** Every point is written, in order; no batch is empty and all but the last are full. */
  ghost predicate WrittenWhole(writes: seq<seq<Point>>, points: seq<Point>) {
    && Flatten(writes) == points
    && (writes != [] ==> FullBatches(writes[..|writes| - 1]) && 0 < |writes[|writes| - 1]| <= BATCH)
  }

  /** The points of as many full batches as there are, and nothing more. */
  ghost predicate WrittenInFullBatches(writes: seq<seq<Point>>, points: seq<Point>) {
    && Flatten(writes) == points[..|points| - |points| % BATCH]
    && FullBatches(writes)
  }

  /** What the import of one raw file writes, and how it ends. */
  ghost predicate FileWritten(
    lines: seq<Line>, recordTags: TagMap, skip: bool, writes: seq<seq<Point>>, outcome: Outcome)
  {
    if skip then writes == [] && outcome == WarmupSkipped
    else if PointLines(lines) == 0 then writes == [] && outcome == NoObservations
    else Stored(lines, recordTags, writes, outcome)
  }

  /** The k-th point written is that of the k-th Point line. */
  ghost predicate PointsTell(lines: seq<Line>, recordTags: TagMap, points: seq<Point>) {
    forall n: nat {:trigger lines[n]} :: n < |lines| && lines[n].PointLine? && PointLines(lines[..n]) < |points| ==>
      TellsOf(lines[n], recordTags, points[PointLines(lines[..n])])
  }

  /** The n-th line is the first faulty one, and what was written are the full batches before it. */
  ghost predicate StopsAt(lines: seq<Line>, recordTags: TagMap, n: nat, points: seq<Point>) {
    && n < |lines| && Faulty(lines[n], recordTags)
    && (forall m :: 0 <= m < n ==> !Faulty(lines[m], recordTags))
    && |points| == PointLines(lines[..n]) / 25000 * 25000
  }

  /** What was written and how it ended, told from the lines. */
  ghost predicate FileTold(
    lines: seq<Line>, recordTags: TagMap, skip: bool, writes: seq<seq<Point>>, outcome: Outcome)
  {
    && PointsTell(lines, recordTags, Flatten(writes))
    && (forall i :: 0 <= i < |writes| ==> 0 < |writes[i]| <= 25000 && (i < |writes| - 1 ==> |writes[i]| == 25000))
    && match outcome
       case WarmupSkipped => skip && writes == []
       case NoObservations => !skip && writes == [] && forall line :: line in lines ==> line.OtherLine?
       case Imported(total) =>
         && !skip && total == |Flatten(writes)| == PointLines(lines) > 0
         && forall line :: line in lines ==> !Faulty(line, recordTags)
       case Failed(_) => !skip && exists n: nat :: StopsAt(lines, recordTags, n, Flatten(writes))
  }

  lemma RefusedIsFaulty(lines: seq<Line>, recordTags: TagMap)
    ensures forall line :: line in lines ==> (Refused(line, recordTags) <==> Faulty(line, recordTags))
  {
    forall line | line in lines && line.PointLine? {
      ConvertTells(line, recordTags);
    }
  }

  lemma {:induction false} NoPointLines(lines: seq<Line>)
    ensures PointLines(lines) == 0 <==> forall line :: line in lines ==> line.OtherLine?
  {
    if lines == [] {
    } else {
      var init, last := lines[..|lines| - 1], lines[|lines| - 1];
      NoPointLines(init);
      assert lines == init + [last] && last in lines;
      assert forall line :: line in init ==> line in lines;
    }
  }

  lemma PointsOfGoodTell(lines: seq<Line>, recordTags: TagMap, good: nat, points: seq<Point>)
    requires good <= |lines| && forall line :: line in lines[..good] ==> !Refused(line, recordTags)
    requires points <= Points(lines[..good], recordTags)
    ensures PointsTell(lines, recordTags, points)
  {
    PointsCounted(lines[..good], recordTags);
    forall n: nat | n < |lines| && lines[n].PointLine? && PointLines(lines[..n]) < |points|
      ensures TellsOf(lines[n], recordTags, points[PointLines(lines[..n])])
    {
      if n < good {
        PointOfLine(lines[..good], recordTags, n);
        assert lines[..good][..n] == lines[..n];
      } else {
        PointLinesGrow(lines, good, n);
        assert false;
      }
    }
  }

  lemma {:induction false} PointLinesGrow(lines: seq<Line>, a: nat, b: nat)
    requires a <= b <= |lines|
    ensures PointLines(lines[..a]) <= PointLines(lines[..b])
    decreases b - a
  {
    if a == b {
    } else {
      PointLinesGrow(lines, a, b - 1);
      assert lines[..b][..b - 1] == lines[..b - 1];
    }
  }

  lemma BatchSizes(writes: seq<seq<Point>>, points: seq<Point>)
    requires WrittenWhole(writes, points) || WrittenInFullBatches(writes, points)
    ensures forall i :: 0 <= i < |writes| ==> 0 < |writes[i]| <= 25000 && (i < |writes| - 1 ==> |writes[i]| == 25000)
  {
    if writes != [] && WrittenWhole(writes, points) {
      assert forall i :: 0 <= i < |writes| - 1 ==> writes[..|writes| - 1][i] == writes[i];
    }
  }

  lemma RefusedStops(lines: seq<Line>, recordTags: TagMap, writes: seq<seq<Point>>, outcome: Outcome)
    requires Stored(lines, recordTags, writes, outcome) && Good(lines, recordTags) < |lines|
    ensures outcome.Failed? && StopsAt(lines, recordTags, Good(lines, recordTags), Flatten(writes))
  {
    RefusedIsFaulty(lines, recordTags);
    PointsCounted(lines[..Good(lines, recordTags)], recordTags);
  }

  lemma RefusedTold(lines: seq<Line>, recordTags: TagMap, writes: seq<seq<Point>>, outcome: Outcome)
    requires Stored(lines, recordTags, writes, outcome) && Good(lines, recordTags) < |lines|
    ensures FileTold(lines, recordTags, false, writes, outcome)
  {
    var good := Good(lines, recordTags);
    PointsOfGoodTell(lines, recordTags, good, Flatten(writes));
    BatchSizes(writes, Points(lines[..good], recordTags));
    RefusedStops(lines, recordTags, writes, outcome);
  }

  lemma ImportedTold(lines: seq<Line>, recordTags: TagMap, writes: seq<seq<Point>>, outcome: Outcome)
    requires Stored(lines, recordTags, writes, outcome) && Good(lines, recordTags) == |lines| && PointLines(lines) > 0
    ensures FileTold(lines, recordTags, false, writes, outcome)
  {
    assert lines[..|lines|] == lines;
    RefusedIsFaulty(lines, recordTags);
    PointsOfGoodTell(lines, recordTags, |lines|, Flatten(writes));
    BatchSizes(writes, Points(lines, recordTags));
  }

  lemma StoredTold(lines: seq<Line>, recordTags: TagMap, writes: seq<seq<Point>>, outcome: Outcome)
    requires Stored(lines, recordTags, writes, outcome) && PointLines(lines) > 0
    ensures FileTold(lines, recordTags, false, writes, outcome)
  {
    if Good(lines, recordTags) < |lines| {
      RefusedTold(lines, recordTags, writes, outcome);
    } else {
      ImportedTold(lines, recordTags, writes, outcome);
    }
  }

  /** The meaning of `FileWritten` without the conversion of a line. */
  lemma WrittenIsTold(
    lines: seq<Line>, recordTags: TagMap, skip: bool, writes: seq<seq<Point>>, outcome: Outcome)
    requires FileWritten(lines, recordTags, skip, writes, outcome)
    ensures FileTold(lines, recordTags, skip, writes, outcome)
  {
    NoPointLines(lines);
    if !skip && PointLines(lines) > 0 {
      StoredTold(lines, recordTags, writes, outcome);
    }
  }

  /**
    The batches written, in order, and how the import of the file ended. A refused line leaves the
    full batches before it stored; otherwise every point of the file is, in order, and the number
    reported is the one the first pass counted.
   */
  method WriteRawFile(lines: seq<Line>, recordTags: TagMap, skip: bool)
    returns (writes: seq<seq<Point>>, outcome: Outcome)
    ensures FileWritten(lines, recordTags, skip, writes, outcome)
    ensures FileTold(lines, recordTags, skip, writes, outcome)
  {
    writes := [];
    NoPointLines(lines);
    if skip {
      return writes, WarmupSkipped;
    }
    var total := CountPoints(lines);
    if total == 0 {
      return writes, NoObservations;
    }
    writes, outcome := WriteBatches(lines, recordTags);
    StoredTold(lines, recordTags, writes, outcome);
  }

  ghost predicate Stored(lines: seq<Line>, recordTags: TagMap, writes: seq<seq<Point>>, outcome: Outcome) {
    var good := Good(lines, recordTags);
    var points := Points(lines[..good], recordTags);
    if good < |lines| then outcome.Failed? && WrittenInFullBatches(writes, points)
    else WrittenWhole(writes, points) && outcome == Imported(PointLines(lines)) && |points| == PointLines(lines)
  }

  /** Full batches are written, the rest of the points read so far wait in `batch`. */
  ghost predicate Progress(points: seq<Point>, writes: seq<seq<Point>>, batch: seq<Point>) {
    && Flatten(writes) + batch == points
    && FullBatches(writes)
    && |batch| == |points| % BATCH
  }

  lemma NextCount(n: nat)
    ensures (n + 1) % BATCH == if n % BATCH + 1 == BATCH then 0 else n % BATCH + 1
  {
  }

  lemma AddPoint(points: seq<Point>, writes: seq<seq<Point>>, batch: seq<Point>, point: Point)
    requires Progress(points, writes, batch)
    ensures |batch| + 1 < BATCH ==> Progress(points + [point], writes, batch + [point])
    ensures |batch| + 1 >= BATCH ==> |batch| + 1 == BATCH && Progress(points + [point], writes + [batch + [point]], [])
  {
    FlattenNext(writes, batch + [point]);
    NextCount(|points|);
    assert Flatten(writes) + (batch + [point]) == points + [point];
  }

  lemma Ended(points: seq<Point>, writes: seq<seq<Point>>, batch: seq<Point>)
    requires Progress(points, writes, batch)
    ensures WrittenInFullBatches(writes, points)
    ensures WrittenWhole(if batch == [] then writes else writes + [batch], points)
  {
    FlattenNext(writes, batch);
    assert points[..|points| - |batch|] == Flatten(writes);
    assert (writes + [batch])[..|writes|] == writes;
  }

  method WriteBatches(lines: seq<Line>, recordTags: TagMap) returns (writes: seq<seq<Point>>, outcome: Outcome)
    ensures Stored(lines, recordTags, writes, outcome)
  {
    var imported, batch := 0, [];
    writes := [];
    for n := 0 to |lines|
      invariant n <= Good(lines, recordTags)
      invariant Progress(Points(lines[..n], recordTags), writes, batch)
      invariant imported == |Points(lines[..n], recordTags)| == PointLines(lines[..n])
    {
      NextLine(lines, recordTags, n);
      if lines[n].OtherLine? {
        continue;
      }
      var point := ConvertLine(lines[n], recordTags);
      if point.Rejected? {
        Ended(Points(lines[..n], recordTags), writes, batch);
        return writes, Failed(point.reason);
      }
      AddPoint(Points(lines[..n], recordTags), writes, batch, point.value);
      batch := batch + [point.value];
      imported := imported + 1;
      if |batch| == BATCH {
        writes, batch := writes + [batch], [];
      }
    }
    assert lines[..|lines|] == lines;
    Ended(Points(lines, recordTags), writes, batch);
    if batch != [] {
      writes := writes + [batch];
    }
    outcome := Imported(imported);
  }

  lemma NextLine(lines: seq<Line>, recordTags: TagMap, n: nat)
    requires n < |lines| && n <= Good(lines, recordTags)
    ensures Points(lines[..n + 1], recordTags) == Points(lines[..n], recordTags) + PointsOf(lines[n], recordTags)
    ensures PointLines(lines[..n + 1]) == PointLines(lines[..n]) + (if lines[n].PointLine? then 1 else 0)
    ensures if Refused(lines[n], recordTags) then Good(lines, recordTags) == n else n + 1 <= Good(lines, recordTags)
  {
    assert lines[..n + 1][..n] == lines[..n];
  }

  lemma FlattenNext<T>(batches: seq<seq<T>>, batch: seq<T>)
    ensures Flatten(batches + [batch]) == Flatten(batches) + batch
  {
    assert (batches + [batch])[..|batches|] == batches;
  }
}
