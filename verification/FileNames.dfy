/** The files of a TLS comparison: no two charts share a name, and cleaning up removes none of them. */
module FileNames {
  import opened Common
  import opened Workloads
  import opened Cells
  import opened TlsComparison
  import opened TlsCells

  datatype SummaryMetric = Http | Tls
  datatype ByteMetric = Sent | Received

  datatype ChartFile =
    | Percentiles(metric: SummaryMetric, name: Name, scenario: string)
    | Bytes(byteMetric: ByteMetric, name: Name, scenario: string)
    | Completion(profile: Profile)

  /** Names that earlier versions of the exporter wrote and this one removes. */
  datatype ObsoleteFile =
    | WithoutMetric(name: Name)
    | WithoutScenario(metric: SummaryMetric, name: Name)
    | FlatBytes(byteMetric: ByteMetric)

  function MetricText(metric: SummaryMetric): string {
    match metric
    case Http => "http"
    case Tls => "tls"
  }

  function ByteMetricText(metric: ByteMetric): string {
    match metric
    case Sent => "sent"
    case Received => "received"
  }

  function Middle(name: Name): string {
    FamilyText(name.family) + "-" + Slug(name.profile)
  }

  function AfterMiddle(scenario: string): string {
    "-" + scenario + ".svg"
  }

  function PercentileName(metric: SummaryMetric, name: Name, tail: string): string {
    "tls-percentiles-" + (MetricText(metric) + "-" + (Middle(name) + tail))
  }

  function ByteName(metric: ByteMetric, name: Name, tail: string): string {
    "tls-bytes-" + (ByteMetricText(metric) + "-" + (Middle(name) + tail))
  }

  function FileName(file: ChartFile): string {
    match file
    case Percentiles(metric, name, scenario) => PercentileName(metric, name, AfterMiddle(scenario))
    case Bytes(metric, name, scenario) => ByteName(metric, name, AfterMiddle(scenario))
    case Completion(profile) => "tls-completion-race-" + (Slug(profile) + ".svg")
  }

  function ObsoleteName(file: ObsoleteFile): string {
    match file
    case WithoutMetric(name) => "tls-percentiles-" + (Middle(name) + ".svg")
    case WithoutScenario(metric, name) => PercentileName(metric, name, ".svg")
    case FlatBytes(metric) => ByteName(metric, BYTE_CHART, ".svg")
  }

  // ------------------------------------------------------------- telling strings apart

  /** The strings differ at a position that both have, so they differ whatever follows. */
  ghost predicate Apart(a: string, b: string) {
    exists i :: 0 <= i < |a| && i < |b| && a[i] != b[i]
  }

  lemma ApartTails(a: string, b: string, x: string, y: string)
    requires Apart(a, b)
    ensures Apart(a + x, b + y) && a + x != b + y
  {
    var i :| 0 <= i < |a| && i < |b| && a[i] != b[i];
    assert (a + x)[i] == a[i] && (b + y)[i] == b[i];
  }

  lemma ApartHeads(prefix: string, a: string, b: string)
    requires Apart(a, b)
    ensures Apart(prefix + a, prefix + b)
  {
    var i :| 0 <= i < |a| && i < |b| && a[i] != b[i];
    assert (prefix + a)[|prefix| + i] == a[i] && (prefix + b)[|prefix| + i] == b[i];
  }

  lemma SameHead(prefix: string, x: string, y: string)
    ensures prefix + x == prefix + y <==> x == y
  {
    assert (prefix + x)[|prefix|..] == x && (prefix + y)[|prefix|..] == y;
  }

  lemma FamiliesApart(a: Family, b: Family)
    requires a != b
    ensures Apart(FamilyText(a), FamilyText(b))
  {
    assert FamilyText(a)[0] != FamilyText(b)[0];
  }

  /** The slugs differ early enough that none is a beginning of another. */
  lemma SlugsApart(a: Profile, b: Profile)
    requires a != b
    ensures Apart(Slug(a), Slug(b))
  {
    var s, t := Slug(a), Slug(b);
    assert |s| > 3 && |t| > 3;
    assert s[0] != t[0] || s[1] != t[1] || s[2] != t[2] || s[3] != t[3];
  }

  lemma MiddlesApart(a: Name, b: Name)
    requires a != b
    ensures Apart(Middle(a), Middle(b))
  {
    if a.family != b.family {
      FamiliesApart(a.family, b.family);
      ApartTails(FamilyText(a.family), FamilyText(b.family), "-", "-");
      ApartTails(FamilyText(a.family) + "-", FamilyText(b.family) + "-", Slug(a.profile), Slug(b.profile));
    } else {
      SlugsApart(a.profile, b.profile);
      ApartHeads(FamilyText(a.family) + "-", Slug(a.profile), Slug(b.profile));
    }
  }

  // ------------------------------------------------------------- file names

  lemma SameMiddle(a: Name, b: Name, x: string, y: string)
    ensures Middle(a) + x == Middle(b) + y <==> a == b && x == y
  {
    if a == b {
      SameHead(Middle(a), x, y);
    } else {
      MiddlesApart(a, b);
      ApartTails(Middle(a), Middle(b), x, y);
    }
  }

  lemma SameScenario(scenario: string, other: string)
    ensures AfterMiddle(scenario) == AfterMiddle(other) <==> scenario == other
    ensures AfterMiddle(scenario) != ".svg"
  {
    assert AfterMiddle(scenario)[1..1 + |scenario|] == scenario;
    assert AfterMiddle(other)[1..1 + |other|] == other;
    assert |AfterMiddle(scenario)| == |scenario| + 5;
  }

  lemma MetricsApart(a: string, b: string, x: string, y: string)
    requires a != [] && b != [] && a[0] != b[0]
    ensures a + "-" + x != b + "-" + y
  {
    assert (a + "-" + x)[0] == a[0] && (b + "-" + y)[0] == b[0];
  }

  lemma PercentileNames(metric: SummaryMetric, other: SummaryMetric, a: Name, b: Name, x: string, y: string)
    ensures PercentileName(metric, a, x) == PercentileName(other, b, y) <==> metric == other && a == b && x == y
  {
    SameHead("tls-percentiles-", MetricText(metric) + "-" + (Middle(a) + x), MetricText(other) + "-" + (Middle(b) + y));
    if metric == other {
      SameHead(MetricText(metric) + "-", Middle(a) + x, Middle(b) + y);
      SameMiddle(a, b, x, y);
    } else {
      MetricsApart(MetricText(metric), MetricText(other), Middle(a) + x, Middle(b) + y);
    }
  }

  lemma ByteNames(metric: ByteMetric, other: ByteMetric, a: Name, b: Name, x: string, y: string)
    ensures ByteName(metric, a, x) == ByteName(other, b, y) <==> metric == other && a == b && x == y
  {
    SameHead("tls-bytes-", ByteMetricText(metric) + "-" + (Middle(a) + x),
        ByteMetricText(other) + "-" + (Middle(b) + y));
    if metric == other {
      SameHead(ByteMetricText(metric) + "-", Middle(a) + x, Middle(b) + y);
      SameMiddle(a, b, x, y);
    } else {
      MetricsApart(ByteMetricText(metric), ByteMetricText(other), Middle(a) + x, Middle(b) + y);
    }
  }

  lemma CompletionNames(a: Profile, b: Profile)
    ensures "tls-completion-race-" + (Slug(a) + ".svg") == "tls-completion-race-" + (Slug(b) + ".svg") <==> a == b
  {
    SameHead("tls-completion-race-", Slug(a) + ".svg", Slug(b) + ".svg");
    if a != b {
      SlugsApart(a, b);
      ApartTails(Slug(a), Slug(b), ".svg", ".svg");
    }
  }

  /** The fifth letter tells the three kinds of chart apart. */
  lemma KindLetter(file: ChartFile)
    ensures |FileName(file)| > 4
    ensures FileName(file)[4] == if file.Percentiles? then 'p' else if file.Bytes? then 'b' else 'c'
  {
  }

  lemma ObsoleteLetter(file: ObsoleteFile)
    ensures |ObsoleteName(file)| > 4 && ObsoleteName(file)[4] == if file.FlatBytes? then 'b' else 'p'
  {
  }

  /** Different charts have different names, for all scenario strings. */
  lemma FileNamesDiffer(a: ChartFile, b: ChartFile)
    ensures FileName(a) == FileName(b) <==> a == b
  {
    KindLetter(a);
    KindLetter(b);
    match (a, b)
    case (Percentiles(m, n, s), Percentiles(m', n', s')) =>
      PercentileNames(m, m', n, n', AfterMiddle(s), AfterMiddle(s'));
      SameScenario(s, s');
    case (Bytes(m, n, s), Bytes(m', n', s')) =>
      ByteNames(m, m', n, n', AfterMiddle(s), AfterMiddle(s'));
      SameScenario(s, s');
    case (Completion(p), Completion(p')) =>
      CompletionNames(p, p');
    case _ =>
  }

  /** An old name starts with the family where a new one has the metric. */
  lemma MetricIsNoFamily(metric: SummaryMetric, a: Name, b: Name, x: string, y: string)
    ensures "tls-percentiles-" + (Middle(a) + x) != PercentileName(metric, b, y)
  {
    assert ("tls-percentiles-" + (Middle(a) + x))[16] == FamilyText(a.family)[0];
    assert PercentileName(metric, b, y)[16] == MetricText(metric)[0];
  }

  /** No chart has a name that is cleaned up, for all scenario strings. */
  lemma ObsoleteIsNeverWritten(stale: ObsoleteFile, file: ChartFile)
    ensures ObsoleteName(stale) != FileName(file)
  {
    KindLetter(file);
    ObsoleteLetter(stale);
    match (stale, file)
    case (WithoutMetric(n), Percentiles(m', n', s')) =>
      MetricIsNoFamily(m', n, n', ".svg", AfterMiddle(s'));
    case (WithoutScenario(m, n), Percentiles(m', n', s')) =>
      PercentileNames(m, m', n, n', ".svg", AfterMiddle(s'));
      SameScenario(s', s');
    case (FlatBytes(m), Bytes(m', n', s')) =>
      ByteNames(m, m', BYTE_CHART, n', ".svg", AfterMiddle(s'));
      SameScenario(s', s');
    case _ =>
  }

  // ------------------------------------------------------------- one export

  /** The scenarios of a profile's pairs, each once, in order. */
  function Scenarios(pairs: seq<Pair>): (scenarios: seq<string>)
    ensures Distinct(scenarios) && forall s :: s in scenarios <==> exists pair :: pair in pairs && pair.0 == s
  {
    if pairs == [] then [] else
    var init, last := pairs[..|pairs| - 1], pairs[|pairs| - 1];
    assert pairs == init + [last];
    AppendNew(Scenarios(init), last.0)
  }

  /** A profile to be exported. */
  datatype Plan = Plan(name: Name, scenarios: seq<string>)

  function PlanOf(cell: TlsCell): Plan {
    Plan(cell.name, Scenarios(cell.pairs))
  }

  function PlansOf(cells: seq<TlsCell>): (plans: seq<Plan>)
    ensures |plans| == |cells| && forall i :: 0 <= i < |cells| ==> plans[i] == PlanOf(cells[i])
  {
    seq(|cells|, i requires 0 <= i < |cells| => PlanOf(cells[i]))
  }

  const SUMMARY_METRICS := [Http, Tls]
  const BYTE_METRICS := [Sent, Received]

  lemma EveryMetric(metric: SummaryMetric, byteMetric: ByteMetric)
    ensures metric in SUMMARY_METRICS && byteMetric in BYTE_METRICS && Distinct(SUMMARY_METRICS)
    ensures Distinct(BYTE_METRICS)
  {
    assert SUMMARY_METRICS[if metric == Http then 0 else 1] == metric;
    assert BYTE_METRICS[if byteMetric == Sent then 0 else 1] == byteMetric;
  }

  function PercentileFiles(plan: Plan): (files: seq<ChartFile>) {
    var product := Product(plan.scenarios, SUMMARY_METRICS);
    seq(|product|, i requires 0 <= i < |product| => Percentiles(product[i].1, plan.name, product[i].0))
  }

  function ByteFiles(plan: Plan): (files: seq<ChartFile>) {
    var product := Product(plan.scenarios, BYTE_METRICS);
    seq(|product|, i requires 0 <= i < |product| => Bytes(product[i].1, plan.name, product[i].0))
  }

  /** The charts of a profile: percentiles, byte charts for Baseline Flat only, completion for races only. */
  function FilesOf(plan: Plan): seq<ChartFile> {
    PercentileFiles(plan)
    + (if plan.name == BYTE_CHART then ByteFiles(plan) else [])
    + (if plan.name.family == Race then [Completion(plan.name.profile)] else [])
  }

  /** What a chart has to be to belong to a profile. */
  predicate Belongs(file: ChartFile, plan: Plan) {
    match file
    case Percentiles(_, name, scenario) => name == plan.name && scenario in plan.scenarios
    case Bytes(_, name, scenario) => name == plan.name == BYTE_CHART && scenario in plan.scenarios
    case Completion(profile) => plan.name == Name(Race, profile)
  }

  function ObsoleteOf(plan: Plan): set<ObsoleteFile> {
    {WithoutMetric(plan.name), WithoutScenario(Http, plan.name), WithoutScenario(Tls, plan.name)}
    + (if plan.name == BYTE_CHART && plan.scenarios != [] then {FlatBytes(Sent), FlatBytes(Received)} else {})
  }

  lemma PercentileFilesExact(plan: Plan, file: ChartFile)
    requires Distinct(plan.scenarios)
    ensures Distinct(PercentileFiles(plan))
    ensures file in PercentileFiles(plan) <==>
            (file.Percentiles? && file.name == plan.name && file.scenario in plan.scenarios)
  {
    var product := Product(plan.scenarios, SUMMARY_METRICS);
    ProductElements(plan.scenarios, SUMMARY_METRICS);
    EveryMetric(Http, Sent);
    assert forall i :: 0 <= i < |product| ==> product[i] == (product[i].0, product[i].1);
    if file.Percentiles? && file.name == plan.name && file.scenario in plan.scenarios {
      EveryMetric(file.metric, Sent);
      var i :| 0 <= i < |product| && product[i] == (file.scenario, file.metric);
      assert PercentileFiles(plan)[i] == file;
    }
  }

  lemma ByteFilesExact(plan: Plan, file: ChartFile)
    requires Distinct(plan.scenarios)
    ensures Distinct(ByteFiles(plan))
    ensures file in ByteFiles(plan) <==> file.Bytes? && file.name == plan.name && file.scenario in plan.scenarios
  {
    var product := Product(plan.scenarios, BYTE_METRICS);
    ProductElements(plan.scenarios, BYTE_METRICS);
    EveryMetric(Http, Sent);
    assert forall i :: 0 <= i < |product| ==> product[i] == (product[i].0, product[i].1);
    if file.Bytes? && file.name == plan.name && file.scenario in plan.scenarios {
      EveryMetric(Http, file.byteMetric);
      var i :| 0 <= i < |product| && product[i] == (file.scenario, file.byteMetric);
      assert ByteFiles(plan)[i] == file;
    }
  }

  lemma FilesExact(plan: Plan, file: ChartFile)
    requires Distinct(plan.scenarios)
    ensures file in FilesOf(plan) <==> Belongs(file, plan)
  {
    PercentileFilesExact(plan, file);
    ByteFilesExact(plan, file);
  }

  lemma FilesDistinct(plan: Plan)
    requires Distinct(plan.scenarios)
    ensures Distinct(FilesOf(plan))
  {
    PercentileFilesExact(plan, Completion(Linear));
    ByteFilesExact(plan, Completion(Linear));
  }

  // ------------------------------------------------------------- the directory

  function NamesOf(files: seq<ChartFile>): (names: seq<string>)
    ensures |names| == |files| && forall i :: 0 <= i < |files| ==> names[i] == FileName(files[i])
  {
    seq(|files|, i requires 0 <= i < |files| => FileName(files[i]))
  }

  /** The names of a profile's charts. */
  function PlanNames(plan: Plan): set<string> {
    ToSet(NamesOf(FilesOf(plan)))
  }

  /** The old names that are removed once a profile is exported. */
  function PlanObsolete(plan: Plan): set<string> {
    set file | file in ObsoleteOf(plan) :: ObsoleteName(file)
  }

  ghost function AllNames(plans: seq<Plan>): set<string> {
    Union(plans, PlanNames)
  }

  ghost function AllObsolete(plans: seq<Plan>): set<string> {
    Union(plans, PlanObsolete)
  }

  /** [a-z0-9]+(-[a-z0-9]+)* */
  predicate ValidSlug(scenario: string) {
    && scenario != "" && scenario[0] != '-' && scenario[|scenario| - 1] != '-'
    && (forall i :: 0 <= i < |scenario| ==>
          scenario[i] == '-' || 'a' <= scenario[i] <= 'z' || '0' <= scenario[i] <= '9')
    && (forall i :: 0 <= i < |scenario| - 1 ==> scenario[i] != '-' || scenario[i + 1] != '-')
  }

  predicate ValidPlan(plan: Plan) {
    forall s :: s in plan.scenarios ==> ValidSlug(s)
  }

  /** The profiles differ and list each scenario once. */
  ghost predicate Exportables(plans: seq<Plan>) {
    && (forall i, j :: 0 <= i < j < |plans| ==> plans[i].name != plans[j].name)
    && (forall plan :: plan in plans ==> Distinct(plan.scenarios))
  }

  lemma NamedFile(files: seq<ChartFile>, name: string) returns (file: ChartFile)
    requires name in NamesOf(files)
    ensures file in files && FileName(file) == name
  {
    var i :| 0 <= i < |files| && NamesOf(files)[i] == name;
    file := files[i];
  }

  /** Cleaning up never removes a chart of any profile of the export. */
  lemma CleanupSparesCharts(plans: seq<Plan>, others: seq<Plan>)
    ensures AllObsolete(plans) !! AllNames(others)
  {
    forall name | name in AllObsolete(plans) && name in AllNames(others)
      ensures false
    {
      var plan :| plan in plans && name in PlanObsolete(plan);
      var stale :| stale in ObsoleteOf(plan) && name == ObsoleteName(stale);
      var other :| other in others && name in PlanNames(other);
      var file := NamedFile(FilesOf(other), name);
      ObsoleteIsNeverWritten(stale, file);
    }
  }

  lemma NamesDistinct(files: seq<ChartFile>)
    requires Distinct(files)
    ensures Distinct(NamesOf(files))
  {
    forall i, j | 0 <= i < j < |files|
      ensures NamesOf(files)[i] != NamesOf(files)[j]
    {
      FileNamesDiffer(files[i], files[j]);
    }
  }

  /** Charts of different profiles have different names. */
  lemma ProfilesShareNoName(plan: Plan, other: Plan, file: ChartFile, another: ChartFile)
    requires Distinct(plan.scenarios) && Distinct(other.scenarios) && plan.name != other.name
    requires file in FilesOf(plan) && another in FilesOf(other)
    ensures FileName(file) != FileName(another)
  {
    FilesExact(plan, file);
    FilesExact(other, another);
    FileNamesDiffer(file, another);
  }

  // ------------------------------------------------------------- one profile

  /** Whether the file of a name, when there is one, can be kept; None when it is no chart at all. */
  type Reuse = string -> Option<bool>

  /** A chart that has to be drawn: not on disk, or not reusable. */
  function Fresh(disk: set<string>, reusable: Reuse): ChartFile -> bool {
    file => !(FileName(file) in disk && reusable(FileName(file)) == Some(true))
  }

  /** A file on disk under the chart's name can be read as a chart. */
  function Readable(disk: set<string>, reusable: Reuse): ChartFile -> bool {
    file => FileName(file) in disk ==> reusable(FileName(file)).Some?
  }

  predicate AllReadable(plan: Plan, disk: set<string>, reusable: Reuse) {
    forall file :: file in FilesOf(plan) ==> Readable(disk, reusable)(file)
  }

  /** The charts of a profile: those that are there and can be kept, and those to draw. */
  datatype Split = Split(reused: seq<ChartFile>, pending: seq<ChartFile>)

  /**
    An invalid scenario is refused when the names are built, a file that cannot be read when it is
    looked at, both before anything is drawn.
   */
  method PlanCharts(plan: Plan, disk: set<string>, reusable: Reuse) returns (r: Result<Split>)
    ensures r.Ok? <==> ValidPlan(plan) && AllReadable(plan, disk, reusable)
    ensures r.Ok? ==> r.value.pending == Filter(FilesOf(plan), Fresh(disk, reusable))
    ensures r.Ok? ==> r.value.reused == Filter(FilesOf(plan), Not(Fresh(disk, reusable)))
  {
    if !ValidPlan(plan) {
      return Rejected("Invalid scenario for TLS comparison filename");
    }
    r := SplitFiles(FilesOf(plan), disk, reusable);
  }

  method SplitFiles(files: seq<ChartFile>, disk: set<string>, reusable: Reuse) returns (r: Result<Split>)
    ensures r.Ok? <==> forall file :: file in files ==> Readable(disk, reusable)(file)
    ensures r.Ok? ==> r.value.pending == Filter(files, Fresh(disk, reusable))
    ensures r.Ok? ==> r.value.reused == Filter(files, Not(Fresh(disk, reusable)))
  {
    var reused, pending := [], [];
    for i := 0 to |files|
      invariant forall file :: file in files[..i] ==> Readable(disk, reusable)(file)
      invariant pending == Filter(files[..i], Fresh(disk, reusable))
      invariant reused == Filter(files[..i], Not(Fresh(disk, reusable)))
    {
      assert files[..i + 1][..i] == files[..i];
      PrefixNext(files, i);
      var keep := Some(false);
      if FileName(files[i]) in disk {
        keep := reusable(FileName(files[i]));
      }
      if keep.None? {
        assert files[i] in files && !Readable(disk, reusable)(files[i]);
        return Rejected("Invalid SVG provenance");
      }
      if keep.value {
        reused := reused + [files[i]];
      } else {
        pending := pending + [files[i]];
      }
    }
    assert files[..|files|] == files;
    r := Ok(Split(reused, pending));
  }

  method WriteNames(disk: set<string>, pending: seq<string>) returns (after: set<string>)
    ensures after == disk + ToSet(pending)
  {
    after := disk;
    for i := 0 to |pending|
      invariant after == disk + ToSet(pending[..i])
    {
      PrefixNext(pending, i);
      after := after + {pending[i]};
    }
    assert pending[..|pending|] == pending;
  }

  /** What is left of the names of a profile once the pending charts are written. */
  lemma SplitNames(plan: Plan, disk: set<string>, reusable: Reuse, split: Split)
    requires Distinct(plan.scenarios) && split.pending == Filter(FilesOf(plan), Fresh(disk, reusable))
    requires split.reused == Filter(FilesOf(plan), Not(Fresh(disk, reusable)))
    ensures disk + ToSet(NamesOf(split.pending)) == disk + PlanNames(plan)
    ensures Distinct(NamesOf(split.reused + split.pending))
    ensures ToSet(NamesOf(split.reused + split.pending)) == PlanNames(plan)
  {
    var files, both := FilesOf(plan), split.reused + split.pending;
    FilesDistinct(plan);
    SplitExact(files, Fresh(disk, reusable));
    NamesDistinct(both);
    SameNames(files, both);
    NamesOfConcat(split.reused, split.pending);
    forall name | name in ToSet(NamesOf(split.reused))
      ensures name in disk
    {
      var i :| 0 <= i < |split.reused| && NamesOf(split.reused)[i] == name;
      FilterHas(files, Not(Fresh(disk, reusable)), split.reused[i]);
    }
  }

  lemma SameNames(files: seq<ChartFile>, others: seq<ChartFile>)
    requires forall file :: file in files <==> file in others
    ensures ToSet(NamesOf(files)) == ToSet(NamesOf(others))
  {
    forall name
      ensures name in ToSet(NamesOf(files)) <==> name in ToSet(NamesOf(others))
    {
      NameListed(files, name);
      NameListed(others, name);
    }
  }

  lemma NameListed(files: seq<ChartFile>, name: string)
    ensures name in NamesOf(files) <==> exists file :: file in files && FileName(file) == name
  {
    if name in NamesOf(files) {
      var i :| 0 <= i < |files| && NamesOf(files)[i] == name;
      assert files[i] in files;
    }
    if file :| file in files && FileName(file) == name {
      var i :| 0 <= i < |files| && files[i] == file;
      assert NamesOf(files)[i] == name;
    }
  }

  lemma NamesOfConcat(a: seq<ChartFile>, b: seq<ChartFile>)
    ensures ToSet(NamesOf(a + b)) == ToSet(NamesOf(a)) + ToSet(NamesOf(b))
  {
    forall name
      ensures name in ToSet(NamesOf(a + b)) <==> name in ToSet(NamesOf(a)) || name in ToSet(NamesOf(b))
    {
      NameListed(a, name);
      NameListed(b, name);
      NameListed(a + b, name);
    }
  }

  /** Writing the pending charts of a profile, then removing its old names. */
  method WriteCharts(plan: Plan, pending: seq<ChartFile>, disk: set<string>) returns (after: set<string>)
    ensures after == (disk + ToSet(NamesOf(pending))) - PlanObsolete(plan)
  {
    after := WriteNames(disk, NamesOf(pending));
    after := after - PlanObsolete(plan);
  }

  /** The directory after some profiles: old names gone, every chart there, nothing else touched. */
  ghost function Exported(disk: set<string>, plans: seq<Plan>): set<string> {
    (disk - AllObsolete(plans)) + AllNames(plans)
  }

  lemma ExportedNext(disk: set<string>, plans: seq<Plan>, i: nat)
    requires i < |plans|
    ensures (Exported(disk, plans[..i]) + PlanNames(plans[i])) - PlanObsolete(plans[i]) ==
        Exported(disk, plans[..i + 1])
  {
    UnionNext(plans, i, PlanNames);
    UnionNext(plans, i, PlanObsolete);
    CleanupSparesCharts(plans[..i + 1], plans[..i + 1]);
  }

  lemma DisjointConcat(a: seq<string>, b: seq<string>)
    requires Distinct(a) && Distinct(b) && ToSet(a) !! ToSet(b)
    ensures Distinct(a + b) && ToSet(a + b) == ToSet(a) + ToSet(b)
  {
    assert forall i :: 0 <= i < |a| ==> a[i] in ToSet(a);
    assert forall i :: 0 <= i < |b| ==> b[i] in ToSet(b);
  }

  lemma NameIsNew(plans: seq<Plan>, i: nat, name: string)
    requires Exportables(plans) && i < |plans|
    requires name in AllNames(plans[..i])
    ensures name !in PlanNames(plans[i])
  {
    if name in PlanNames(plans[i]) {
      var file := NamedFile(FilesOf(plans[i]), name);
      var other :| other in plans[..i] && name in PlanNames(other);
      var j :| 0 <= j < i && plans[j] == other;
      var another := NamedFile(FilesOf(other), name);
      ProfilesShareNoName(other, plans[i], another, file);
    }
  }

  /** The first `i` profiles are exported. */
  ghost predicate Progress(plans: seq<Plan>, i: nat, disk: set<string>, generated: seq<string>, after: set<string>)
    requires i <= |plans|
  {
    Distinct(generated) && ToSet(generated) == AllNames(plans[..i]) && after == Exported(disk, plans[..i])
  }

  lemma GeneratedOnce(plans: seq<Plan>, i: nat, generated: seq<string>, more: seq<string>)
    requires Exportables(plans) && i < |plans|
    requires Distinct(generated) && ToSet(generated) == AllNames(plans[..i])
    requires Distinct(more) && ToSet(more) == PlanNames(plans[i])
    ensures Distinct(generated + more) && ToSet(generated + more) == AllNames(plans[..i + 1])
  {
    forall name | name in AllNames(plans[..i]) {
      NameIsNew(plans, i, name);
    }
    DisjointConcat(generated, more);
    UnionNext(plans, i, PlanNames);
  }

  lemma ProgressNext(
    plans: seq<Plan>, i: nat, disk: set<string>, generated: seq<string>, after: set<string>, more: seq<string>,
    now: set<string>)
    requires Exportables(plans) && i < |plans| && Progress(plans, i, disk, generated, after)
    requires Distinct(more) && ToSet(more) == PlanNames(plans[i])
    requires now == (after + PlanNames(plans[i])) - PlanObsolete(plans[i])
    ensures Progress(plans, i + 1, disk, generated + more, now)
  {
    GeneratedOnce(plans, i, generated, more);
    ExportedNext(disk, plans, i);
  }

  /** The charts of a profile are not touched by the export of the profiles before it. */
  lemma FreshUntouched(plans: seq<Plan>, i: nat, disk: set<string>, reusable: Reuse, file: ChartFile)
    requires Exportables(plans) && i < |plans| && file in FilesOf(plans[i])
    ensures Fresh(Exported(disk, plans[..i]), reusable)(file) == Fresh(disk, reusable)(file)
    ensures Readable(Exported(disk, plans[..i]), reusable)(file) == Readable(disk, reusable)(file)
  {
    NameListed(FilesOf(plans[i]), FileName(file));
    assert FileName(file) in PlanNames(plans[i]);
    if FileName(file) in AllNames(plans[..i]) {
      NameIsNew(plans, i, FileName(file));
      assert false;
    }
    assert FileName(file) !in AllObsolete(plans[..i]) by {
      CleanupSparesCharts(plans[..i], plans);
    }
  }

  /** The profiles of an accepted comparison can be exported together. */
  lemma PlansOfComparison(cells: CellMap, order: seq<string>, result: seq<TlsCell>)
    requires Compares(cells, order, result)
    ensures Exportables(PlansOf(result))
  {
    forall i, j | 0 <= i < j < |result|
      ensures result[i].name != result[j].name
    {
      assert TlsRank(result[i]) < TlsRank(result[j]);
    }
  }
}
