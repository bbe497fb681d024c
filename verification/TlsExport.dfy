/** export_tls_comparison and the checks of render_tls_chart: what an accepted comparison guarantees them. */
module TlsExport {
  import opened Common
  import opened Workloads
  import opened Cells
  import opened ScenarioGroups
  import opened TlsComparison
  import opened TlsCells

  // ------------------------------------------------------------- cell_executions

  /** The keys of a cell say which repeat an execution is. */
  predicate Keyed(executions: Executions) {
    forall id :: id in executions ==> executions[id].repeat == id.repeat
  }

  predicate Selects(id: SlotId, scenario: string, stack: Stack) {
    id.scenario == scenario && id.stack == stack
  }

  function RepeatRank(e: Execution): int {
    e.repeat
  }

  /** A list of the selected executions among `ids`, in any order. */
  ghost predicate Lists(
    list: seq<Execution>, executions: Executions, ids: set<SlotId>, scenario: string, stack: Stack)
  {
    && (forall i, j :: 0 <= i < j < |list| ==> list[i].repeat != list[j].repeat)
    && (forall e :: e in list ==> IsAt(executions, ids, scenario, stack, e))
    && (forall id :: id in ids && id in executions && Selects(id, scenario, stack) ==> executions[id] in list)
  }

  ghost predicate IsAt(executions: Executions, ids: set<SlotId>, scenario: string, stack: Stack, e: Execution) {
    var id := SlotId(scenario, stack, e.repeat);
    id in ids && id in executions && executions[id] == e
  }

  lemma ListsNext(
    list: seq<Execution>, executions: Executions, ids: set<SlotId>, scenario: string, stack: Stack, id: SlotId)
    requires Lists(list, executions, ids, scenario, stack) && Keyed(executions) && id in executions && id !in ids
    ensures Lists(if Selects(id, scenario, stack) then list + [executions[id]]
        else list, executions, ids + {id}, scenario, stack)
  {
    if Selects(id, scenario, stack) {
      var e := executions[id];
      assert id == SlotId(scenario, stack, e.repeat);
      forall i | 0 <= i < |list|
        ensures list[i].repeat != e.repeat
      {
        assert list[i] in list && IsAt(executions, ids, scenario, stack, list[i]);
      }
      assert forall x :: x in list + [e] <==> x in list || x == e;
    }
  }

  /** The executions of one (scenario, stack), by repeat. */
  function ThreeRuns(executions: Executions, scenario: string, stack: Stack): (runs: seq<Execution>)
    requires forall k: nat :: k < 3 ==> SlotId(scenario, stack, k) in executions
    ensures |runs| == 3 && forall k: nat :: k < 3 ==> runs[k] == executions[SlotId(scenario, stack, k)]
  {
    [executions[SlotId(scenario, stack, 0)], executions[SlotId(scenario, stack, 1)],
        executions[SlotId(scenario, stack, 2)]]
  }

  predicate HasThreeRuns(executions: Executions, scenario: string, stack: Stack) {
    RepeatsIn(executions, scenario, stack) == {0, 1, 2}
  }

  lemma InRepeats(executions: Executions, scenario: string, stack: Stack, k: nat)
    ensures k in RepeatsIn(executions, scenario, stack) <==> SlotId(scenario, stack, k) in executions
  {
    if k in RepeatsIn(executions, scenario, stack) {
      var id :| id in executions && id.scenario == scenario && id.stack == stack && id.repeat == k;
      assert id == SlotId(scenario, stack, k);
    }
    if SlotId(scenario, stack, k) in executions {
      assert SlotId(scenario, stack, k).repeat in RepeatsIn(executions, scenario, stack);
    }
  }

  function RepeatsOf(list: seq<Execution>): (repeats: seq<nat>)
    ensures |repeats| == |list| && forall i :: 0 <= i < |list| ==> repeats[i] == list[i].repeat
  {
    seq(|list|, i requires 0 <= i < |list| => list[i].repeat)
  }

  lemma RepeatListed(list: seq<Execution>, executions: Executions, scenario: string, stack: Stack, k: nat)
    requires Lists(list, executions, executions.Keys, scenario, stack) && Keyed(executions)
    ensures k in RepeatsOf(list) <==> k in RepeatsIn(executions, scenario, stack)
  {
    InRepeats(executions, scenario, stack, k);
    if k in RepeatsOf(list) {
      var i :| 0 <= i < |list| && RepeatsOf(list)[i] == k;
      assert list[i] in list && IsAt(executions, executions.Keys, scenario, stack, list[i]);
    }
    if SlotId(scenario, stack, k) in executions {
      var e := executions[SlotId(scenario, stack, k)];
      assert e in list;
      var i :| 0 <= i < |list| && list[i] == e;
      assert RepeatsOf(list)[i] == k;
    }
  }

  lemma Permuted(list: seq<Execution>, sorted: seq<Execution>)
    requires multiset(sorted) == multiset(list)
    requires forall i, j :: 0 <= i < j < |list| ==> list[i].repeat != list[j].repeat
    ensures forall e :: e in sorted <==> e in list
    ensures forall i, j :: 0 <= i < j < |sorted| ==> sorted[i].repeat != sorted[j].repeat
  {
    forall e
      ensures e in sorted <==> e in list
    {
      SameMembers(sorted, list, e);
    }
    DistinctIffNoRepeats(list);
    DistinctIffNoRepeats(sorted);
    forall i, j | 0 <= i < j < |sorted|
      ensures sorted[i].repeat != sorted[j].repeat
    {
      assert sorted[i] in list && sorted[j] in list && sorted[i] != sorted[j];
    }
  }

  lemma ListsPermuted(
    list: seq<Execution>, sorted: seq<Execution>, executions: Executions, ids: set<SlotId>, scenario: string,
    stack: Stack)
    requires Lists(list, executions, ids, scenario, stack) && multiset(sorted) == multiset(list)
    ensures Lists(sorted, executions, ids, scenario, stack)
  {
    Permuted(list, sorted);
  }

  lemma ZeroOneTwo(repeats: seq<nat>)
    requires forall i, j :: 0 <= i < j < |repeats| ==> repeats[i] < repeats[j]
    ensures repeats == [0, 1, 2] <==> forall k: nat :: k in repeats <==> k in {0, 1, 2}
  {
    if forall k: nat :: k in repeats <==> k in {0, 1, 2} {
      OnlyThree(repeats);
    }
    if repeats == [0, 1, 2] {
      assert forall k: nat :: k in [0, 1, 2] <==> k in {0, 1, 2};
    }
  }

  lemma {:induction false} ShortWhenBounded(increasing: seq<nat>, bound: nat)
    requires forall i, j :: 0 <= i < j < |increasing| ==> increasing[i] < increasing[j]
    requires forall k :: k in increasing ==> k < bound
    ensures |increasing| <= bound
  {
    if increasing == [] {
    } else {
      var last := |increasing| - 1;
      assert increasing[last] in increasing;
      ShortWhenBounded(increasing[..last], increasing[last]);
    }
  }

  lemma OnlyThree(repeats: seq<nat>)
    requires forall i, j :: 0 <= i < j < |repeats| ==> repeats[i] < repeats[j]
    requires forall k: nat :: k in repeats <==> k in {0, 1, 2}
    ensures repeats == [0, 1, 2]
  {
    assert 0 in repeats && 1 in repeats && 2 in repeats;
    var a :| 0 <= a < |repeats| && repeats[a] == 0;
    var b :| 0 <= b < |repeats| && repeats[b] == 1;
    var c :| 0 <= c < |repeats| && repeats[c] == 2;
    assert a < b < c;
    forall k | k in repeats
      ensures k < 3
    {
    }
    ShortWhenBounded(repeats, 3);
  }

  lemma SortedRepeats(sorted: seq<Execution>, executions: Executions, scenario: string, stack: Stack)
    requires Lists(sorted, executions, executions.Keys, scenario, stack) && Keyed(executions)
    requires SortedBy(sorted, RepeatRank)
    ensures RepeatsOf(sorted) == [0, 1, 2] <==> HasThreeRuns(executions, scenario, stack)
  {
    var repeats := RepeatsOf(sorted);
    forall k: nat
      ensures k in repeats <==> k in RepeatsIn(executions, scenario, stack)
    {
      RepeatListed(sorted, executions, scenario, stack, k);
    }
    forall i, j | 0 <= i < j < |repeats|
      ensures repeats[i] < repeats[j]
    {
      assert RepeatRank(sorted[i]) <= RepeatRank(sorted[j]);
    }
    ZeroOneTwo(repeats);
  }

  lemma RunAt(sorted: seq<Execution>, executions: Executions, scenario: string, stack: Stack, k: nat)
    requires Lists(sorted, executions, executions.Keys, scenario, stack)
    requires RepeatsOf(sorted) == [0, 1, 2] && k < 3
    ensures |sorted| == 3 && SlotId(scenario, stack, k) in executions
    ensures sorted[k] == executions[SlotId(scenario, stack, k)]
  {
    assert |RepeatsOf(sorted)| == 3 && RepeatsOf(sorted)[k] == k;
    assert sorted[k] in sorted && IsAt(executions, executions.Keys, scenario, stack, sorted[k]);
  }

  lemma SortedRuns(sorted: seq<Execution>, executions: Executions, scenario: string, stack: Stack)
    requires Lists(sorted, executions, executions.Keys, scenario, stack) && RepeatsOf(sorted) == [0, 1, 2]
    ensures forall k: nat :: k < 3 ==> SlotId(scenario, stack, k) in executions
    ensures sorted == ThreeRuns(executions, scenario, stack)
  {
    RunAt(sorted, executions, scenario, stack, 0);
    RunAt(sorted, executions, scenario, stack, 1);
    RunAt(sorted, executions, scenario, stack, 2);
  }

  method ListRuns(executions: Executions, scenario: string, stack: Stack) returns (list: seq<Execution>)
    requires Keyed(executions)
    ensures Lists(list, executions, executions.Keys, scenario, stack)
  {
    list := [];
    var done: set<SlotId> := {};
    while done != executions.Keys
      invariant done <= executions.Keys
      invariant Lists(list, executions, done, scenario, stack)
      decreases |executions.Keys - done|
    {
      var id :| id in executions && id !in done;
      ListsNext(list, executions, done, scenario, stack, id);
      list := if Selects(id, scenario, stack) then list + [executions[id]] else list;
      done := done + {id};
    }
  }

  /** cell_executions: the three Profile Runs of a (scenario, stack) in order, or a refusal. */
  method CellExecutions(executions: Executions, scenario: string, stack: Stack) returns (r: Result<seq<Execution>>)
    requires Keyed(executions)
    ensures r.Ok? <==> HasThreeRuns(executions, scenario, stack)
    ensures r.Ok? ==> forall k: nat :: k < 3 ==> SlotId(scenario, stack, k) in executions
    ensures r.Ok? ==> r.value == ThreeRuns(executions, scenario, stack)
  {
    var list := ListRuns(executions, scenario, stack);
    var sorted := SortBy(list, RepeatRank);
    ListsPermuted(list, sorted, executions, executions.Keys, scenario, stack);
    SortedRepeats(sorted, executions, scenario, stack);
    if RepeatsOf(sorted) != [0, 1, 2] {
      return Rejected("Incomplete executions");
    }
    SortedRuns(sorted, executions, scenario, stack);
    r := Ok(sorted);
  }

  // ------------------------------------------------------------- an exportable comparison

  /** What an accepted comparison says about a source cell. */
  ghost predicate Runnable(executions: Executions, num: Number) {
    && executions != map[] && Keyed(executions) && Complete(executions)
    && forall id :: id in executions ==> PositiveElapsed(executions[id], num)
  }

  /** The counters that the builder gives every execution of a byte chart. */
  predicate HasCounters(e: Execution) {
    e.counters.Some? && e.counters.value.requests > 0
  }

  ghost predicate Counted(executions: Executions) {
    forall id :: id in executions ==> HasCounters(executions[id])
  }

  ghost predicate Exportable(cell: TlsCell, num: Number) {
    && cell.configurations != map[]
    && (forall c {:trigger IsConfiguration(c)} :: c in cell.configurations ==> IsConfiguration(c))
    && (forall c :: c in cell.configurations ==> Runnable(cell.configurations[c], num))
    && (cell.name == BYTE_CHART ==> forall c :: c in cell.configurations ==> Counted(cell.configurations[c]))
    && Distinct(cell.pairs) && ToSet(cell.pairs) == PairsOf(cell.configurations)
  }

  predicate Available(cell: TlsCell, pair: Pair, c: GroupKey) {
    c in cell.configurations && SlotId(pair.0, pair.1, 0) in cell.configurations[c]
  }

  /** The executions behind one row of the chart: three, or none where the configuration was not supplied. */
  ghost predicate RowExecutions(cell: TlsCell, pair: Pair, c: GroupKey, runs: seq<Execution>) {
    if Available(cell, pair, c) then
      (forall k: nat :: k < 3 ==> SlotId(pair.0, pair.1, k) in cell.configurations[c]) &&
      runs == ThreeRuns(cell.configurations[c], pair.0, pair.1)
    else runs == []
  }

  lemma AvailableHasThreeRuns(cell: TlsCell, num: Number, pair: Pair, c: GroupKey)
    requires Exportable(cell, num) && Available(cell, pair, c)
    ensures HasThreeRuns(cell.configurations[c], pair.0, pair.1)
  {
    assert Complete(cell.configurations[c]);
    var id := SlotId(pair.0, pair.1, 0);
    assert RepeatsIn(cell.configurations[c], id.scenario, id.stack) == {0, 1, 2};
  }

  /** tls_configuration_executions: never refuses for an accepted comparison. */
  method TlsConfigurationExecutions(
    cell: TlsCell, pair: Pair, c: GroupKey, ghost num: Number)
    returns (r: Result<seq<Execution>>)
    requires Exportable(cell, num)
    ensures r.Ok? && RowExecutions(cell, pair, c, r.value)
  {
    if !Available(cell, pair, c) {
      return Ok([]);
    }
    AvailableHasThreeRuns(cell, num, pair, c);
    r := CellExecutions(cell.configurations[c], pair.0, pair.1);
  }

  /** Every pair has a row with executions. */
  lemma EveryPairIsAvailable(cell: TlsCell, num: Number, pair: Pair)
    requires Exportable(cell, num) && pair in cell.pairs
    ensures exists c :: IsConfiguration(c) && Available(cell, pair, c)
  {
    assert pair in ToSet(cell.pairs);
    var c, id :| c in cell.configurations && id in cell.configurations[c] && (id.scenario, id.stack) == pair;
    assert Complete(cell.configurations[c]);
    InRepeats(cell.configurations[c], id.scenario, id.stack, 0);
    assert IsConfiguration(c) && Available(cell, pair, c);
  }

  // ------------------------------------------------------------- byte totals

  function Plus(a: Counters, b: Counters): Counters {
    Counters(a.requests + b.requests, a.sent + b.sent, a.received + b.received)
  }

  /** pooled_byte_values: the totals; the chart shows their quotients. */
  function PooledByteValues(runs: seq<Execution>): (r: Result<Counters>)
    ensures r.Ok? ==> r.value.requests > 0
  {
    if |runs| != 3 || (set e | e in runs :: e.repeat) != {0, 1, 2} then
        Rejected("Byte charts require three Profile Runs")
    else if exists e :: e in runs && e.counters.None? then Rejected("KeyError: byte_counters")
    else
      var total := Plus(Plus(runs[0].counters.value, runs[1].counters.value), runs[2].counters.value);
      if total.requests <= 0 then Rejected("Zero recorded requests for byte chart") else Ok(total)
  }

  /** Three executions, one of each repeat, all with counters; the total is theirs, with at least one request. */
  predicate PoolsTo(runs: seq<Execution>, total: Counters) {
    && |runs| == 3 && {runs[0].repeat, runs[1].repeat, runs[2].repeat} == {0, 1, 2}
    && (forall i :: 0 <= i < 3 ==> runs[i].counters.Some?)
    && total.requests ==
       runs[0].counters.value.requests + runs[1].counters.value.requests + runs[2].counters.value.requests
    && total.sent ==
       runs[0].counters.value.sent + runs[1].counters.value.sent + runs[2].counters.value.sent
    && total.received ==
       runs[0].counters.value.received + runs[1].counters.value.received + runs[2].counters.value.received
    && total.requests > 0
  }

  lemma PooledIsTotal(runs: seq<Execution>, total: Counters)
    ensures PooledByteValues(runs) == Ok(total) <==> PoolsTo(runs, total)
  {
    if |runs| == 3 {
      assert forall e :: e in runs <==> e == runs[0] || e == runs[1] || e == runs[2];
      assert (set e | e in runs :: e.repeat) == {runs[0].repeat, runs[1].repeat, runs[2].repeat};
    }
  }

  lemma ThreeRunsPool(runs: seq<Execution>)
    requires |runs| == 3 && runs[0].repeat == 0 && runs[1].repeat == 1 && runs[2].repeat == 2
    requires HasCounters(runs[0]) && HasCounters(runs[1]) && HasCounters(runs[2])
    ensures PooledByteValues(runs) == Ok(Plus(Plus(runs[0].counters.value, runs[1].counters.value),
        runs[2].counters.value))
  {
    assert runs[0] in runs && runs[1] in runs && runs[2] in runs;
    assert (set e | e in runs :: e.repeat) == {0, 1, 2};
  }

  /** The totals of a byte chart are never refused. */
  lemma RunsPool(cell: TlsCell, num: Number, pair: Pair, c: GroupKey, runs: seq<Execution>)
    requires Exportable(cell, num) && cell.name == BYTE_CHART && RowExecutions(cell, pair, c, runs) && runs != []
    ensures PooledByteValues(runs).Ok?
  {
    assert Runnable(cell.configurations[c], num) && Counted(cell.configurations[c]);
    ThreeRunsPool(runs);
  }
}
