/** The names of TLS charts, spelled out. */
module ChartNames {
  import opened Workloads
  import opened TlsComparison
  import opened FileNames

  /** A profile in a file name, after its family. */
  function PathOf(profile: Profile): string {
    match profile
    case Linear => "baseline-linear"
    case Flat => "baseline-flat"
    case Sine => "baseline-sine"
    case Fixed100 => "linear-fixed-100-vus"
    case Expandable1000 => "linear-expandable-1000-vus"
    case Vus10 => "race-10-vus"
    case Vus100 => "race-100-vus"
    case Vus1000 => "race-1000-vus"
  }

  lemma PathIs(name: Name)
    requires name.family == FamilyOf(name.profile)
    ensures Middle(name) == PathOf(name.profile)
  {
    match name.profile
    case Linear => assert "baseline" + "-" + "linear" == "baseline-linear";
    case Flat => assert "baseline" + "-" + "flat" == "baseline-flat";
    case Sine => assert "baseline" + "-" + "sine" == "baseline-sine";
    case Fixed100 => assert "linear" + "-" + "fixed-100-vus" == "linear-fixed-100-vus";
    case Expandable1000 => assert "linear" + "-" + "expandable-1000-vus" == "linear-expandable-1000-vus";
    case Vus10 => assert "race" + "-" + "10-vus" == "race-10-vus";
    case Vus100 => assert "race" + "-" + "100-vus" == "race-100-vus";
    case Vus1000 => assert "race" + "-" + "1000-vus" == "race-1000-vus";
  }

  lemma Joined(a: string, b: string, c: string, d: string, ab: string)
    requires a + b + "-" == ab
    ensures a + (b + "-" + (c + d)) == ab + (c + d)
  {
    assert a + (b + "-" + (c + d)) == (a + b + "-") + (c + d);
  }

  lemma PercentileNameIs(metric: SummaryMetric, name: Name, tail: string)
    requires name.family == FamilyOf(name.profile)
    ensures PercentileName(metric, name, tail) ==
            (match metric case Http => "tls-percentiles-http-" case Tls => "tls-percentiles-tls-")
            + (PathOf(name.profile) + tail)
  {
    PathIs(name);
    match metric
    case Http => Joined("tls-percentiles-", "http", PathOf(name.profile), tail, "tls-percentiles-http-");
    case Tls => Joined("tls-percentiles-", "tls", PathOf(name.profile), tail, "tls-percentiles-tls-");
  }

  lemma ByteNameIs(metric: ByteMetric, name: Name, tail: string)
    requires name.family == FamilyOf(name.profile)
    ensures ByteName(metric, name, tail) ==
            (match metric case Sent => "tls-bytes-sent-" case Received => "tls-bytes-received-")
            + (PathOf(name.profile) + tail)
  {
    PathIs(name);
    match metric
    case Sent => Joined("tls-bytes-", "sent", PathOf(name.profile), tail, "tls-bytes-sent-");
    case Received => Joined("tls-bytes-", "received", PathOf(name.profile), tail, "tls-bytes-received-");
  }

  /** The name of a chart: its kind and metric, its profile, and its scenario. */
  function NameRead(file: ChartFile): string {
    match file
    case Percentiles(Http, name, scenario) =>
      "tls-percentiles-http-" + (PathOf(name.profile) + ("-" + scenario + ".svg"))
    case Percentiles(Tls, name, scenario) => "tls-percentiles-tls-" + (PathOf(name.profile) + ("-" + scenario + ".svg"))
    case Bytes(Sent, name, scenario) => "tls-bytes-sent-" + (PathOf(name.profile) + ("-" + scenario + ".svg"))
    case Bytes(Received, name, scenario) => "tls-bytes-received-" + (PathOf(name.profile) + ("-" + scenario + ".svg"))
    case Completion(Vus10) => "tls-completion-race-10-vus.svg"
    case Completion(Vus100) => "tls-completion-race-100-vus.svg"
    case Completion(Vus1000) => "tls-completion-race-1000-vus.svg"
    case Completion(_) => ""
  }

  /** A profile of the family it belongs to; completion is charted for races. */
  predicate IsChart(file: ChartFile) {
    match file
    case Percentiles(_, name, _) => name.family == FamilyOf(name.profile)
    case Bytes(_, name, _) => name.family == FamilyOf(name.profile)
    case Completion(profile) => FamilyOf(profile) == Race
  }

  lemma ChartNameIs(file: ChartFile)
    requires IsChart(file)
    ensures FileName(file) == NameRead(file)
  {
    match file
    case Percentiles(metric, name, scenario) => PercentileNameIs(metric, name, AfterMiddle(scenario));
    case Bytes(metric, name, scenario) => ByteNameIs(metric, name, AfterMiddle(scenario));
    case Completion(profile) => CompletionNameIs(profile);
  }

  lemma CompletionNameIs(profile: Profile)
    requires FamilyOf(profile) == Race
    ensures FileName(Completion(profile)) == NameRead(Completion(profile))
  {
    match profile
    case Vus10 => assert "tls-completion-race-" + ("10-vus" + ".svg") == "tls-completion-race-10-vus.svg";
    case Vus100 => assert "tls-completion-race-" + ("100-vus" + ".svg") == "tls-completion-race-100-vus.svg";
    case Vus1000 => assert "tls-completion-race-" + ("1000-vus" + ".svg") == "tls-completion-race-1000-vus.svg";
  }

  /** The names that disappear with the export of a profile, and no other. */
  function ObsoleteRead(plan: Plan): set<string> {
    {"tls-percentiles-" + (PathOf(plan.name.profile) + ".svg"),
     "tls-percentiles-http-" + (PathOf(plan.name.profile) + ".svg"),
     "tls-percentiles-tls-" + (PathOf(plan.name.profile) + ".svg")}
    + if plan.name == Name(Baseline, Flat) && plan.scenarios != [] then
        {"tls-bytes-sent-" + ("baseline-flat" + ".svg"), "tls-bytes-received-" + ("baseline-flat" + ".svg")}
      else {}
  }

  lemma ObsoleteNameIs(stale: ObsoleteFile, plan: Plan)
    requires plan.name.family == FamilyOf(plan.name.profile) && stale in ObsoleteOf(plan)
    ensures ObsoleteName(stale) in ObsoleteRead(plan)
  {
    PathIs(plan.name);
    match stale
    case WithoutMetric(name) =>
    case WithoutScenario(metric, name) => PercentileNameIs(metric, name, ".svg");
    case FlatBytes(metric) => ByteNameIs(metric, Name(Baseline, Flat), ".svg");
  }

  lemma ObsoleteAre(plan: Plan)
    requires plan.name.family == FamilyOf(plan.name.profile)
    ensures PlanObsolete(plan) == ObsoleteRead(plan)
  {
    forall name | name in PlanObsolete(plan)
      ensures name in ObsoleteRead(plan)
    {
      var stale :| stale in ObsoleteOf(plan) && name == ObsoleteName(stale);
      ObsoleteNameIs(stale, plan);
    }
    PathIs(plan.name);
    PercentileNameIs(Http, plan.name, ".svg");
    PercentileNameIs(Tls, plan.name, ".svg");
    assert ObsoleteName(WithoutMetric(plan.name)) in PlanObsolete(plan);
    assert ObsoleteName(WithoutScenario(Http, plan.name)) in PlanObsolete(plan);
    assert ObsoleteName(WithoutScenario(Tls, plan.name)) in PlanObsolete(plan);
    if plan.name == Name(Baseline, Flat) && plan.scenarios != [] {
      ByteNameIs(Sent, plan.name, ".svg");
      ByteNameIs(Received, plan.name, ".svg");
      assert ObsoleteName(FlatBytes(Sent)) in PlanObsolete(plan);
      assert ObsoleteName(FlatBytes(Received)) in PlanObsolete(plan);
    }
  }

  // ------------------------------------------------------------- scenarios in names

  predicate IsWord(s: string) {
    |s| > 0 && forall i :: 0 <= i < |s| ==> 'a' <= s[i] <= 'z' || '0' <= s[i] <= '9'
  }

  /** Words of lower-case letters and digits, joined by single hyphens. */
  predicate AreWords(s: string)
    decreases |s|
  {
    IsWord(s) || exists i :: 0 < i < |s| && s[i] == '-' && IsWord(s[..i]) && AreWords(s[i + 1..])
  }

  /** A scenario can be part of a file name exactly when it is such words. */
  lemma {:induction false} SlugIsWords(s: string)
    ensures ValidSlug(s) <==> AreWords(s)
    decreases |s|
  {
    if i :| 0 < i < |s| && s[i] == '-' && IsWord(s[..i]) && AreWords(s[i + 1..]) {
      SlugIsWords(s[i + 1..]);
      WordThenSlug(s, i);
    }
    if ValidSlug(s) && !IsWord(s) {
      var i := FirstHyphen(s, 0);
      SlugAfterHyphen(s, i);
      SlugIsWords(s[i + 1..]);
    }
  }

  lemma WordThenSlug(s: string, i: nat)
    requires 0 < i < |s| && s[i] == '-' && IsWord(s[..i]) && ValidSlug(s[i + 1..])
    ensures ValidSlug(s)
  {
    var word, rest := s[..i], s[i + 1..];
    assert forall j :: 0 <= j < i ==> s[j] == word[j];
    assert forall j :: i < j < |s| ==> s[j] == rest[j - i - 1];
  }

  lemma SlugAfterHyphen(s: string, i: nat)
    requires ValidSlug(s) && 0 < i < |s| - 1 && s[i] == '-'
    ensures ValidSlug(s[i + 1..])
  {
    var rest := s[i + 1..];
    assert forall j :: 0 <= j < |rest| ==> rest[j] == s[j + i + 1];
  }

  lemma {:induction false} FirstHyphen(s: string, from: nat) returns (i: nat)
    requires ValidSlug(s) && !IsWord(s) && from < |s| && forall j :: 0 <= j < from ==> s[j] != '-'
    ensures 0 < i < |s| - 1 && s[i] == '-' && IsWord(s[..i])
    decreases |s| - from
  {
    if s[from] == '-' {
      i := from;
      assert forall j :: 0 <= j < i ==> s[..i][j] == s[j];
    } else {
      assert (forall j :: 0 <= j < |s| ==> s[j] != '-') ==> IsWord(s);
      i := FirstHyphen(s, from + 1);
    }
  }
}
