/**
  The per-connection HTTP request deadline handler.

  A request read schedules a deadline and queues it; a final response takes the oldest queued
  deadline and gives it back when its write completes; a deadline that fires closes the channel, on
  HTTP/2 only once the reset it writes completes; channelInactive and handlerRemoved cancel everything
  that is still pending. `Step` is the meaning of one event, the class below carries
  the handler's fields, and the lemmas speak about every run of events the environment can choose.
 */
module RequestDeadlines {
  import opened Common

  datatype Status = Live | Fired | Cancelled

  /** A ScheduledFuture: when it is due and whether it can still fire. */
  datatype Timer = Timer(expiry: int, status: Status) {
    /** cancel(false): no effect on a future that already ran. */
    function Cancel(): Timer {
      if status == Live then this.(status := Cancelled) else this
    }
  }

  /**
    A write handed to the channel. What its completion does: a response gives back its `deadline`, the
    reset of a stream closes it because the deadline `closing` had fired, anything else does nothing.
   */
  datatype Write = Write(deadline: Option<nat>, closing: Option<nat>, unfinished: bool)

  /** What the outside sees of a deadline that fired. */
  datatype Output = TimeoutRaised(deadline: nat) | StreamReset(deadline: nat) | Closed(deadline: nat)

  datatype Event =
    | Read(isRequest: bool)
    | WriteMessage(fullResponse: bool, code: int)
    | Complete(write: nat)   // success, failure or cancellation of the write
    | Advance(ticks: nat)
    | Fire(deadline: nat)
    | ChannelInactive
    | HandlerRemoved
  {
    predicate Teardown() {
      ChannelInactive? || HandlerRemoved?
    }

    predicate FinalResponse() {
      WriteMessage? && fullResponse && code >= 200
    }
  }

  /** Deadlines are numbered in the order they were scheduled; `timers` is the executor's table. */
  datatype State = State(
    now: int,
    timers: seq<Timer>,
    awaiting: seq<nat>,
    pending: set<nat>,
    writes: seq<Write>,
    outputs: seq<Output>)

  const INITIAL := State(0, [], [], {}, [], [])

  /** What the event loop can deliver next. */
  predicate Enabled(s: State, e: Event) {
    match e
    case Complete(w) => w < |s.writes| && s.writes[w].unfinished
    case Fire(d) => d < |s.timers| && s.timers[d].status == Live && s.timers[d].expiry <= s.now
    case _ => true
  }

  function CancelAll(timers: seq<Timer>, ds: set<nat>): seq<Timer> {
    seq(|timers|, d requires 0 <= d < |timers| => if d in ds then timers[d].Cancel() else timers[d])
  }

  /** ChannelFutureListener.CLOSE on the write of a reset. */
  function OnComplete(write: Write): seq<Output> {
    match write.closing
    case None => []
    case Some(d) => [Closed(d)]
  }

  function Step(timeout: nat, http2: bool, s: State, e: Event): State
    requires Enabled(s, e)
  {
    match e
    case Read(isRequest) =>
      if !isRequest then s else
      s.(timers := s.timers + [Timer(s.now + timeout, Live)],
         awaiting := s.awaiting + [|s.timers|],
         pending := s.pending + {|s.timers|})
    case WriteMessage(_, _) =>
      if e.FinalResponse() && s.awaiting != [] then
        s.(awaiting := s.awaiting[1..], writes := s.writes + [Write(Some(s.awaiting[0]), None, true)])
      else
        s.(writes := s.writes + [Write(None, None, true)])
    case Complete(w) =>
      var s' := s.(writes := s.writes[w := s.writes[w].(unfinished := false)],
                   outputs := s.outputs + OnComplete(s.writes[w]));
      if s.writes[w].deadline.None? then s' else
      var d := s.writes[w].deadline.value;
      s'.(timers := CancelAll(s.timers, {d}), pending := s.pending - {d})
    case Advance(ticks) => s.(now := s.now + ticks)
    case Fire(d) =>
      var s' := s.(timers := s.timers[d := s.timers[d].(status := Fired)]);
      if http2 then
        s'.(outputs := s.outputs + [TimeoutRaised(d), StreamReset(d)],
            writes := s.writes + [Write(None, Some(d), true)])
      else
        s'.(outputs := s.outputs + [TimeoutRaised(d), Closed(d)])
    case ChannelInactive => Teardown(s)
    case HandlerRemoved => Teardown(s)
  }

  function Teardown(s: State): State {
    s.(timers := CancelAll(s.timers, s.pending), pending := {}, awaiting := [])
  }

  // --------------------------------------------------------------- the handler

  class HttpRequestTimeoutHandler {
    const timeout: nat
    const http2: bool
    // the handler's two collections
    var awaitingResponse: seq<nat>
    var pending: set<nat>
    // the event loop the handler runs on
    var now: int
    var timers: seq<Timer>
    var writes: seq<Write>
    var outputs: seq<Output>

    ghost function Now(): State
      reads this
    {
      State(now, timers, awaitingResponse, pending, writes, outputs)
    }

    constructor (timeout: nat, http2: bool)
      ensures Now() == INITIAL && this.timeout == timeout && this.http2 == http2
    {
      this.timeout, this.http2 := timeout, http2;
      awaitingResponse, pending := [], {};
      now, timers, writes, outputs := 0, [], [], [];
    }

    method Schedule() returns (deadline: nat)
      modifies this`timers
      ensures deadline == old(|timers|) && timers == old(timers) + [Timer(now + timeout, Live)]
    {
      deadline := |timers|;
      timers := timers + [Timer(now + timeout, Live)];
    }

    method CancelDeadline(deadline: nat)
      modifies this`timers
      ensures timers == CancelAll(old(timers), {deadline})
    {
      if deadline < |timers| {
        timers := timers[deadline := timers[deadline].Cancel()];
      }
    }

    method Read(isRequest: bool)
      modifies this
      ensures Now() == Step(timeout, http2, old(Now()), Event.Read(isRequest))
    {
      if isRequest {
        var deadline := Schedule();
        awaitingResponse := awaitingResponse + [deadline];
        pending := pending + {deadline};
      }
    }

    method WriteMessage(fullResponse: bool, code: int)
      modifies this
      ensures Now() == Step(timeout, http2, old(Now()), Event.WriteMessage(fullResponse, code))
    {
      var listener := None;
      if fullResponse && code >= 200 {
        if awaitingResponse != [] {
          listener := Some(awaitingResponse[0]);
          awaitingResponse := awaitingResponse[1..];
        }
      }
      writes := writes + [Write(listener, None, true)];
    }

    method WriteCompleted(w: nat)
      requires Enabled(Now(), Complete(w))
      modifies this
      ensures Now() == Step(timeout, http2, old(Now()), Complete(w))
    {
      var write := writes[w];
      writes := writes[w := write.(unfinished := false)];
      if write.deadline.Some? {
        CancelDeadline(write.deadline.value);
        pending := pending - {write.deadline.value};
      }
      if write.closing.Some? {
        outputs := outputs + [Closed(write.closing.value)];
      }
    }

    method RunDeadline(d: nat)
      requires Enabled(Now(), Fire(d))
      modifies this
      ensures Now() == Step(timeout, http2, old(Now()), Fire(d))
    {
      timers := timers[d := timers[d].(status := Fired)];
      outputs := outputs + [TimeoutRaised(d)];
      if http2 {
        outputs := outputs + [StreamReset(d)];
        writes := writes + [Write(None, Some(d), true)];
      } else {
        outputs := outputs + [Closed(d)];
      }
    }

    method OnChannelInactive()
      modifies this
      ensures Now() == Step(timeout, http2, old(Now()), ChannelInactive)
    {
      CancelDeadlines();
    }

    method OnHandlerRemoved()
      modifies this
      ensures Now() == Step(timeout, http2, old(Now()), HandlerRemoved)
    {
      CancelDeadlines();
    }

    method CancelDeadlines()
      modifies this
      ensures Now() == Teardown(old(Now()))
    {
      ghost var before := timers;
      var todo := pending;
      assert CancelAll(timers, pending - todo) == before;
      while todo != {}
        invariant todo <= pending == old(pending)
        invariant timers == CancelAll(before, pending - todo)
        invariant Now() == old(Now()).(timers := timers)
        decreases |todo|
      {
        var deadline :| deadline in todo;
        CancelDeadline(deadline);
        todo := todo - {deadline};
      }
      assert pending - todo == pending;
      pending := {};
      awaitingResponse := [];
    }
  }

  // ------------------------------------------------------------- runs of events

  ghost predicate ValidRun(timeout: nat, http2: bool, s: State, es: seq<Event>)
    decreases |es|
  {
    es == [] || (Enabled(s, es[0]) && ValidRun(timeout, http2, Step(timeout, http2, s, es[0]), es[1..]))
  }

  ghost function Run(timeout: nat, http2: bool, s: State, es: seq<Event>): State
    requires ValidRun(timeout, http2, s, es)
    decreases |es|
  {
    if es == [] then s else Run(timeout, http2, Step(timeout, http2, s, es[0]), es[1..])
  }

  /**
    The reference the queue is compared with: three numbers that know nothing of deadlines.
    `total` requests so far, `requests` of them since the last teardown, and `matched` final
    responses since the last teardown that found a request to answer.
   */
  datatype Tally = Tally(total: nat, requests: nat, matched: nat) {
    function Next(e: Event): Tally {
      if e.Teardown() then Tally(total, 0, 0)
      else if e.Read? && e.isRequest then Tally(total + 1, requests + 1, matched)
      else if e.WriteMessage? && e.fullResponse && e.code >= 200 && matched < requests then
        Tally(total, requests, matched + 1)
      else this
    }
  }

  function Count(t: Tally, es: seq<Event>): Tally
    decreases |es|
  {
    if es == [] then t else Count(t.Next(es[0]), es[1..])
  }

  const NOTHING := Tally(0, 0, 0)

  /** Deadlines numbered from..below, oldest first. */
  function Numbered(from: nat, below: nat): seq<nat>
    requires from <= below
  {
    seq(below - from, i => from + i)
  }

  ghost predicate UnfinishedSince(s: State, first: nat, d: nat) {
    first <= d && exists w :: 0 <= w < |s.writes| && s.writes[w] == Write(Some(d), None, true)
  }

  /** A deadline is pending exactly while it is queued or its response is still being written. */
  ghost predicate PendingIsOutstanding(s: State, t: Tally)
    requires t.requests <= t.total
  {
    forall d: nat :: d in s.pending <==> d in s.awaiting || UnfinishedSince(s, t.total - t.requests, d)
  }

  /** Deadlines expire in the order they were scheduled. */
  ghost predicate ExpireInOrder(timeout: nat, s: State) {
    && (forall d :: 0 <= d < |s.timers| ==> s.timers[d].expiry <= s.now + timeout)
    && (forall c, d :: 0 <= c < d < |s.timers| ==> s.timers[c].expiry <= s.timers[d].expiry)
  }

  ghost predicate OnlyPendingIsLive(s: State) {
    forall d :: 0 <= d < |s.timers| && s.timers[d].status == Live ==> d in s.pending
  }

  /** No deadline is handed to two writes, nor to a write while it is still queued. */
  ghost predicate WritesTakeOnce(s: State, t: Tally)
    requires t.requests <= t.total
  {
    && (forall w :: 0 <= w < |s.writes| && s.writes[w].deadline.Some? ==>
          s.writes[w].deadline.value < t.total - t.requests + t.matched)
    && (forall v, w :: 0 <= v < w < |s.writes| && s.writes[v].deadline.Some? ==>
          s.writes[v].deadline != s.writes[w].deadline)
  }

  /** What every reachable state satisfies, given what happened so far. */
  ghost predicate Invariant(timeout: nat, s: State, t: Tally) {
    && t.matched <= t.requests <= t.total == |s.timers|
    && s.awaiting == Numbered(t.total - t.requests + t.matched, t.total)
    && PendingIsOutstanding(s, t)
    && ExpireInOrder(timeout, s)
    && OnlyPendingIsLive(s)
    && WritesTakeOnce(s, t)
  }

  lemma AppendingWrite(s: State, write: Write, s': State, first: nat, d: nat)
    requires s'.writes == s.writes + [write]
    ensures UnfinishedSince(s', first, d) <==>
            (UnfinishedSince(s, first, d) || (first <= d && write == Write(Some(d), None, true)))
  {
    assert s'.writes[|s.writes|] == write;
    if UnfinishedSince(s, first, d) {
      var w :| 0 <= w < |s.writes| && s.writes[w] == Write(Some(d), None, true);
      assert s'.writes[w] == Write(Some(d), None, true);
    }
  }

  lemma CompletingWrite(s: State, w: nat, s': State, first: nat, d: nat)
    requires w < |s.writes| && s.writes[w].unfinished
    requires s'.writes == s.writes[w := s.writes[w].(unfinished := false)]
    requires forall v :: 0 <= v < |s.writes| && v != w && s.writes[v].deadline.Some? ==>
        s.writes[v].deadline != s.writes[w].deadline
    ensures UnfinishedSince(s', first, d) <==> UnfinishedSince(s, first, d) && s.writes[w].deadline != Some(d)
  {
    if UnfinishedSince(s, first, d) && s.writes[w].deadline != Some(d) {
      var v :| 0 <= v < |s.writes| && s.writes[v] == Write(Some(d), None, true);
      assert s'.writes[v] == Write(Some(d), None, true);
    }
    if UnfinishedSince(s', first, d) {
      var v :| 0 <= v < |s'.writes| && s'.writes[v] == Write(Some(d), None, true);
      assert v != w && s.writes[v] == Write(Some(d), None, true);
    }
  }

  /** No queued deadline was handed to a write. */
  lemma QueuedIsNotTaken(s: State, t: Tally, w: nat, d: nat)
    requires t.matched <= t.requests <= t.total && WritesTakeOnce(s, t)
    requires s.awaiting == Numbered(t.total - t.requests + t.matched, t.total)
    requires w < |s.writes| && s.writes[w].deadline == Some(d)
    ensures d !in s.awaiting
  {
  }

  lemma CompletingKeepsPending(s: State, t: Tally, w: nat, s': State)
    requires t.matched <= t.requests <= t.total && PendingIsOutstanding(s, t) && WritesTakeOnce(s, t)
    requires s.awaiting == Numbered(t.total - t.requests + t.matched, t.total)
    requires w < |s.writes| && s.writes[w].unfinished
    requires s'.awaiting == s.awaiting && s'.writes == s.writes[w := s.writes[w].(unfinished := false)]
    requires s'.pending == match s.writes[w].deadline case None => s.pending case Some(d) => s.pending - {d}
    ensures PendingIsOutstanding(s', t)
  {
    forall d: nat {
      CompletingWrite(s, w, s', t.total - t.requests, d);
    }
    if s.writes[w].deadline.Some? {
      QueuedIsNotTaken(s, t, w, s.writes[w].deadline.value);
    }
  }

  /** The queue holds the unanswered requests since the last teardown, oldest first. */
  ghost predicate QueueMatches(s: State, t: Tally) {
    && t.matched <= t.requests <= t.total == |s.timers|
    && s.awaiting == Numbered(t.total - t.requests + t.matched, t.total)
  }

  lemma ReadKeepsQueue(timeout: nat, http2: bool, s: State, t: Tally, e: Event)
    requires QueueMatches(s, t) && e.Read?
    ensures QueueMatches(Step(timeout, http2, s, e), t.Next(e))
  {
  }

  lemma WriteKeepsQueue(timeout: nat, http2: bool, s: State, t: Tally, e: Event)
    requires QueueMatches(s, t) && e.WriteMessage?
    ensures QueueMatches(Step(timeout, http2, s, e), t.Next(e))
  {
    assert s.awaiting != [] <==> t.matched < t.requests;
  }

  lemma StepKeepsQueue(timeout: nat, http2: bool, s: State, t: Tally, e: Event)
    requires QueueMatches(s, t) && Enabled(s, e)
    ensures QueueMatches(Step(timeout, http2, s, e), t.Next(e))
  {
    match e
    case Read(_) => ReadKeepsQueue(timeout, http2, s, t, e);
    case WriteMessage(_, _) => WriteKeepsQueue(timeout, http2, s, t, e);
    case _ =>
  }

  lemma WritingKeepsPending(timeout: nat, http2: bool, s: State, t: Tally, e: Event)
    requires Invariant(timeout, s, t) && e.WriteMessage?
    ensures t.Next(e).requests <= t.Next(e).total && PendingIsOutstanding(Step(timeout, http2, s, e), t.Next(e))
  {
    var s' := Step(timeout, http2, s, e);
    forall d: nat {
      AppendingWrite(s, s'.writes[|s.writes|], s', t.total - t.requests, d);
    }
    assert e.FinalResponse() && s.awaiting != [] ==> s.awaiting == [s.awaiting[0]] + s'.awaiting;
  }

  lemma ReadingKeepsPending(timeout: nat, http2: bool, s: State, t: Tally, e: Event)
    requires Invariant(timeout, s, t) && e.Read?
    ensures t.Next(e).requests <= t.Next(e).total && PendingIsOutstanding(Step(timeout, http2, s, e), t.Next(e))
  {
    var s', t' := Step(timeout, http2, s, e), t.Next(e);
    assert t'.total - t'.requests == t.total - t.requests && s'.writes == s.writes;
  }

  lemma TeardownKeepsPending(timeout: nat, http2: bool, s: State, t: Tally, e: Event)
    requires Invariant(timeout, s, t) && e.Teardown()
    ensures PendingIsOutstanding(Step(timeout, http2, s, e), t.Next(e))
  {
    var s' := Step(timeout, http2, s, e);
    forall d: nat
      ensures !UnfinishedSince(s', t.total, d)
    {
    }
  }

  lemma TimeKeepsPending(timeout: nat, http2: bool, s: State, t: Tally, e: Event)
    requires Invariant(timeout, s, t) && Enabled(s, e) && (e.Advance? || e.Fire?)
    ensures t.Next(e) == t && PendingIsOutstanding(Step(timeout, http2, s, e), t)
  {
    var s' := Step(timeout, http2, s, e);
    assert s'.pending == s.pending && s'.awaiting == s.awaiting;
    if s'.writes != s.writes {
      forall d: nat {
        AppendingWrite(s, s'.writes[|s.writes|], s', t.total - t.requests, d);
      }
    }
  }

  lemma AfterCompletion(timeout: nat, http2: bool, s: State, w: nat)
    requires Enabled(s, Complete(w))
    ensures var s' := Step(timeout, http2, s, Complete(w));
      && s'.awaiting == s.awaiting && s'.writes == s.writes[w := s.writes[w].(unfinished := false)]
      && s'.pending == match s.writes[w].deadline case None => s.pending case Some(d) => s.pending - {d}
  {
  }

  lemma CompletionKeepsPending(timeout: nat, http2: bool, s: State, t: Tally, e: Event)
    requires Invariant(timeout, s, t) && Enabled(s, e) && e.Complete?
    ensures t.Next(e) == t && PendingIsOutstanding(Step(timeout, http2, s, e), t)
  {
    AfterCompletion(timeout, http2, s, e.write);
    CompletingKeepsPending(s, t, e.write, Step(timeout, http2, s, e));
  }

  lemma StepKeepsPending(timeout: nat, http2: bool, s: State, t: Tally, e: Event)
    requires Invariant(timeout, s, t) && Enabled(s, e)
    ensures t.Next(e).requests <= t.Next(e).total && PendingIsOutstanding(Step(timeout, http2, s, e), t.Next(e))
  {
    if e.WriteMessage? {
      WritingKeepsPending(timeout, http2, s, t, e);
    } else if e.Complete? {
      CompletionKeepsPending(timeout, http2, s, t, e);
    } else if e.Read? {
      ReadingKeepsPending(timeout, http2, s, t, e);
    } else if e.Teardown() {
      TeardownKeepsPending(timeout, http2, s, t, e);
    } else {
      TimeKeepsPending(timeout, http2, s, t, e);
    }
  }

  lemma StepKeepsExpiryOrder(timeout: nat, http2: bool, s: State, t: Tally, e: Event)
    requires Invariant(timeout, s, t) && Enabled(s, e)
    ensures ExpireInOrder(timeout, Step(timeout, http2, s, e))
  {
  }

  lemma StepKeepsLivePending(timeout: nat, http2: bool, s: State, t: Tally, e: Event)
    requires Invariant(timeout, s, t) && Enabled(s, e)
    ensures OnlyPendingIsLive(Step(timeout, http2, s, e))
  {
  }

  lemma StepKeepsWrites(timeout: nat, http2: bool, s: State, t: Tally, e: Event)
    requires Invariant(timeout, s, t) && Enabled(s, e)
    ensures t.Next(e).requests <= t.Next(e).total && WritesTakeOnce(Step(timeout, http2, s, e), t.Next(e))
  {
  }

  lemma StepKeepsInvariant(timeout: nat, http2: bool, s: State, t: Tally, e: Event)
    requires Invariant(timeout, s, t) && Enabled(s, e)
    ensures Invariant(timeout, Step(timeout, http2, s, e), t.Next(e))
  {
    StepKeepsQueue(timeout, http2, s, t, e);
    StepKeepsPending(timeout, http2, s, t, e);
    StepKeepsExpiryOrder(timeout, http2, s, t, e);
    StepKeepsLivePending(timeout, http2, s, t, e);
    StepKeepsWrites(timeout, http2, s, t, e);
  }

  // ------------------------------------------------------------- every run

  lemma {:induction false} RunKeepsInvariant(timeout: nat, http2: bool, s: State, t: Tally, es: seq<Event>)
    requires Invariant(timeout, s, t) && ValidRun(timeout, http2, s, es)
    ensures Invariant(timeout, Run(timeout, http2, s, es), Count(t, es))
    decreases |es|
  {
    if es == [] {
    } else {
      StepKeepsInvariant(timeout, http2, s, t, es[0]);
      RunKeepsInvariant(timeout, http2, Step(timeout, http2, s, es[0]), t.Next(es[0]), es[1..]);
    }
  }

  ghost predicate Reachable(timeout: nat, http2: bool, es: seq<Event>) {
    ValidRun(timeout, http2, INITIAL, es)
  }

  ghost function After(timeout: nat, http2: bool, es: seq<Event>): State
    requires Reachable(timeout, http2, es)
  {
    Run(timeout, http2, INITIAL, es)
  }

  ghost predicate HasUnfinishedWrite(s: State, d: nat) {
    exists w :: 0 <= w < |s.writes| && s.writes[w] == Write(Some(d), None, true)
  }

  /**
    In every reachable state the queue has no duplicates, is sorted by expiry and is contained in
    `pending`; `pending` is the queue plus the deadlines, read since the last teardown, whose
    response is still being written; and whatever can still fire is pending.
   */
  lemma ReachableStates(timeout: nat, http2: bool, es: seq<Event>)
    requires Reachable(timeout, http2, es)
    ensures var s, t := After(timeout, http2, es), Count(NOTHING, es);
      && t.requests <= t.total == |s.timers|
      && Distinct(s.awaiting)
      && (forall d :: d in s.awaiting ==> d in s.pending && d < |s.timers|)
      && (forall i, j :: 0 <= i < j < |s.awaiting| ==>
            var c, d := s.awaiting[i], s.awaiting[j];
            c < |s.timers| && d < |s.timers| && s.timers[c].expiry <= s.timers[d].expiry)
      && (forall d: nat :: d in s.pending <==>
            d in s.awaiting || (t.total - t.requests <= d && HasUnfinishedWrite(s, d)))
      && (forall d :: 0 <= d < |s.timers| && s.timers[d].status == Live ==> d in s.pending)
  {
    RunKeepsInvariant(timeout, http2, INITIAL, NOTHING, es);
    var s, t := After(timeout, http2, es), Count(NOTHING, es);
    forall d: nat
      ensures UnfinishedSince(s, t.total - t.requests, d) <==> t.total - t.requests <= d && HasUnfinishedWrite(s, d)
    {
    }
  }

  /**
    The n-th request read is given deadline n; with r requests and m answered ones since the last
    teardown, a final response takes the deadline of request m of those r, or none when every one
    of them is answered; any other message takes none.
   */
  ghost predicate AnswersInOrder(timeout: nat, http2: bool, s: State, t: Tally, e: Event) {
    && t.matched <= t.requests <= t.total
    && (e.Read? && e.isRequest ==>
          |s.timers| == t.total && Step(timeout, http2, s, e).timers == s.timers + [Timer(s.now + timeout, Live)])
    && (e.WriteMessage? ==>
          var taken := if e.fullResponse && e.code >= 200 && t.matched < t.requests
                       then Some(t.total - t.requests + t.matched) else None;
          Step(timeout, http2, s, e).writes == s.writes + [Write(taken, None, true)])
  }

  lemma InvariantAnswersInOrder(timeout: nat, http2: bool, s: State, t: Tally, e: Event)
    requires Invariant(timeout, s, t)
    ensures AnswersInOrder(timeout, http2, s, t, e)
  {
    assert t.matched < t.requests <==> s.awaiting != [];
  }

  /** The queue pairs final responses with requests by position, in every reachable state. */
  lemma ResponsesAnswerInOrder(timeout: nat, http2: bool, es: seq<Event>, e: Event)
    requires Reachable(timeout, http2, es)
    ensures AnswersInOrder(timeout, http2, After(timeout, http2, es), Count(NOTHING, es), e)
  {
    RunKeepsInvariant(timeout, http2, INITIAL, NOTHING, es);
    InvariantAnswersInOrder(timeout, http2, After(timeout, http2, es), Count(NOTHING, es), e);
  }

  /**
    A full response with status 200 or above takes the oldest queued deadline, if there is one; any
    other message, an informational response included, leaves the queue alone and takes none.
   */
  lemma OnlyFinalResponsesTake(timeout: nat, http2: bool, es: seq<Event>, full: bool, code: int)
    requires Reachable(timeout, http2, es)
    ensures var s := After(timeout, http2, es); var s' := Step(timeout, http2, s, WriteMessage(full, code));
      && |s'.writes| == |s.writes| + 1 && s'.writes[..|s.writes|] == s.writes
      && s'.timers == s.timers && s'.pending == s.pending
      && (full && code >= 200 && s.awaiting != [] ==>
            [s.awaiting[0]] + s'.awaiting == s.awaiting &&
            s'.writes[|s.writes|] == Write(Some(s.awaiting[0]), None, true))
      && (!(full && code >= 200) || s.awaiting == [] ==>
            s'.awaiting == s.awaiting && s'.writes[|s.writes|] == Write(None, None, true))
  {
    ResponsesAnswerInOrder(timeout, http2, es, WriteMessage(full, code));
  }

  /** A deadline is cancelled by the completion of the one write that took it, or by a teardown. */
  lemma OnlyOwnWriteOrTeardownCancels(timeout: nat, http2: bool, es: seq<Event>, e: Event, d: nat)
    requires Reachable(timeout, http2, es) && Enabled(After(timeout, http2, es), e)
    requires d < |After(timeout, http2, es).timers| && After(timeout, http2, es).timers[d].status != Cancelled
    requires d < |Step(timeout, http2, After(timeout, http2, es), e).timers|
    requires Step(timeout, http2, After(timeout, http2, es), e).timers[d].status == Cancelled
    ensures var s := After(timeout, http2, es);
      e.Teardown() ||
      (e.Complete? && forall w :: 0 <= w < |s.writes| ==> (s.writes[w].deadline == Some(d) <==> w == e.write))
  {
    RunKeepsInvariant(timeout, http2, INITIAL, NOTHING, es);
  }

  /** A request read since the last teardown that is queued or whose final response is still being written. */
  ghost predicate Outstanding(s: State, t: Tally, d: nat)
    requires t.requests <= t.total
  {
    d in s.awaiting || (t.total - t.requests <= d && HasUnfinishedWrite(s, d))
  }

  ghost predicate PendingIsNotCancelled(s: State) {
    forall d :: d in s.pending ==> d < |s.timers| && s.timers[d].status != Cancelled
  }

  lemma StepKeepsUncancelled(timeout: nat, http2: bool, s: State, e: Event)
    requires PendingIsNotCancelled(s) && Enabled(s, e)
    ensures PendingIsNotCancelled(Step(timeout, http2, s, e))
  {
  }

  lemma {:induction false} RunKeepsUncancelled(timeout: nat, http2: bool, s: State, es: seq<Event>)
    requires PendingIsNotCancelled(s) && ValidRun(timeout, http2, s, es)
    ensures PendingIsNotCancelled(Run(timeout, http2, s, es))
    decreases |es|
  {
    if es == [] {
    } else {
      StepKeepsUncancelled(timeout, http2, s, es[0]);
      RunKeepsUncancelled(timeout, http2, Step(timeout, http2, s, es[0]), es[1..]);
    }
  }

  /**
    A deadline can fire exactly when it is due, has not fired yet and its request is outstanding:
    no answered request times out, and no outstanding one loses its deadline.
   */
  lemma TimeoutIffUnanswered(timeout: nat, http2: bool, es: seq<Event>, d: nat)
    requires Reachable(timeout, http2, es) && d < |After(timeout, http2, es).timers|
    ensures Count(NOTHING, es).requests <= Count(NOTHING, es).total
    ensures var s := After(timeout, http2, es);
      Enabled(s, Fire(d)) <==>
      s.timers[d].expiry <= s.now && s.timers[d].status != Fired && Outstanding(s, Count(NOTHING, es), d)
  {
    ReachableStates(timeout, http2, es);
    RunKeepsUncancelled(timeout, http2, INITIAL, es);
  }

  lemma {:induction false} SpentStaysSpent(timeout: nat, http2: bool, s: State, es: seq<Event>, d: nat)
    requires ValidRun(timeout, http2, s, es)
    requires d < |s.timers| && s.timers[d].status != Live
    ensures d < |Run(timeout, http2, s, es).timers| && Run(timeout, http2, s, es).timers[d].status != Live
    decreases |es|
  {
    if es == [] {
    } else {
      SpentStaysSpent(timeout, http2, Step(timeout, http2, s, es[0]), es[1..], d);
    }
  }

  /** Whatever happens after a teardown, no deadline scheduled before it can fire. */
  lemma NoDeadlineSurvivesTeardown(timeout: nat, http2: bool, before: seq<Event>, e: Event, later: seq<Event>, d: nat)
    requires Reachable(timeout, http2, before) && e.Teardown()
    requires ValidRun(timeout, http2, Step(timeout, http2, After(timeout, http2, before), e), later)
    requires d < |After(timeout, http2, before).timers|
    ensures !Enabled(Run(timeout, http2, Step(timeout, http2, After(timeout, http2, before), e), later), Fire(d))
  {
    ReachableStates(timeout, http2, before);
    SpentStaysSpent(timeout, http2, Step(timeout, http2, After(timeout, http2, before), e), later, d);
  }

  /** A final response was matched to request d and its write is complete. */
  ghost predicate Answered(s: State, d: nat) {
    exists w :: 0 <= w < |s.writes| && s.writes[w] == Write(Some(d), None, false)
  }

  /**
    When every request read since the last teardown has a final response whose write completed,
    nothing is kept and nothing can fire.
   */
  lemma AllAnsweredLeavesNothing(timeout: nat, http2: bool, es: seq<Event>)
    requires Reachable(timeout, http2, es)
    requires var t := Count(NOTHING, es);
      forall d :: t.total - t.requests <= d < t.total && d >= 0 ==> Answered(After(timeout, http2, es), d)
    ensures var s := After(timeout, http2, es);
      && s.awaiting == [] && s.pending == {}
      && (forall d :: 0 <= d < |s.timers| ==> s.timers[d].status != Live)
  {
    RunKeepsInvariant(timeout, http2, INITIAL, NOTHING, es);
    var s, t := After(timeout, http2, es), Count(NOTHING, es);
    forall d: nat | t.total - t.requests <= d < t.total
      ensures d !in s.awaiting && d !in s.pending
    {
      assert Answered(s, d);
      var w :| 0 <= w < |s.writes| && s.writes[w] == Write(Some(d), None, false);
      assert forall v :: 0 <= v < |s.writes| && v != w ==> s.writes[v].deadline != Some(d);
    }
    if s.awaiting != [] {
      FirstIn(s.awaiting);
      assert false;
    }
  }

  // ------------------------------------------------------------- what a timeout puts out

  predicate IsFired(s: State, d: nat) {
    d < |s.timers| && s.timers[d].status == Fired
  }

  /** The reset that a fired deadline wrote. */
  ghost predicate IsReset(s: State, w: nat, d: nat) {
    w < |s.writes| && s.writes[w].closing == Some(d)
  }

  ghost predicate HasReset(s: State, d: nat) {
    exists w: nat :: IsReset(s, w, d)
  }

  ghost predicate ResetWritten(s: State, d: nat) {
    exists w: nat :: IsReset(s, w, d) && !s.writes[w].unfinished
  }

  /** On HTTP/2 every deadline that fired wrote one reset; on HTTP/1.1 there is none. */
  ghost predicate OneResetEach(http2: bool, s: State) {
    && (forall w: nat, d: nat {:trigger IsReset(s, w, d)} :: IsReset(s, w, d) ==> http2 && IsFired(s, d))
    && (forall v: nat, w: nat, d: nat {:trigger IsReset(s, v, d), IsReset(s, w, d)} ::
          IsReset(s, v, d) && IsReset(s, w, d) ==> v == w)
    && (http2 ==> forall d: nat {:trigger HasReset(s, d)} {:trigger IsFired(s, d)} :: IsFired(s, d) ==> HasReset(s, d))
  }

  /** The deadlines whose timeout has closed the channel. */
  ghost predicate HasClosed(http2: bool, s: State, d: nat) {
    if http2 then ResetWritten(s, d) else IsFired(s, d)
  }

  /** Exactly these outputs are there. */
  ghost predicate OutputsAre(http2: bool, s: State) {
    forall o: Output {:trigger o in s.outputs} :: o in s.outputs <==>
      match o
      case TimeoutRaised(d) => IsFired(s, d)
      case StreamReset(d) => http2 && IsFired(s, d)
      case Closed(d) => HasClosed(http2, s, d)
  }

  /** A close comes after the reset of its own deadline, on HTTP/1.1 after the exception. */
  ghost predicate ClosesInOrder(http2: bool, outputs: seq<Output>) {
    && Distinct(outputs)
    && forall i {:trigger outputs[i].Closed?} :: 0 <= i < |outputs| && outputs[i].Closed? ==>
         (if http2 then StreamReset(outputs[i].deadline) else TimeoutRaised(outputs[i].deadline)) in outputs[..i]
  }

  ghost predicate Reported(http2: bool, s: State) {
    OneResetEach(http2, s) && OutputsAre(http2, s) && ClosesInOrder(http2, s.outputs)
  }

  /** The two states have fired the same deadlines, written and finished the same resets, and put out the same. */
  ghost predicate SameReports(s: State, s': State) {
    && s'.outputs == s.outputs
    && (forall d: nat {:trigger IsFired(s', d)} :: IsFired(s', d) <==> IsFired(s, d))
    && (forall w: nat, d: nat {:trigger IsReset(s', w, d)} {:trigger IsReset(s, w, d)} ::
          (IsReset(s', w, d) <==> IsReset(s, w, d)) &&
          (IsReset(s, w, d) ==> s'.writes[w].unfinished == s.writes[w].unfinished))
  }

  lemma SameIsReported(http2: bool, s: State, s': State)
    requires Reported(http2, s) && SameReports(s, s')
    ensures Reported(http2, s')
  {
    forall d: nat
      ensures HasReset(s', d) <==> HasReset(s, d)
      ensures ResetWritten(s', d) <==> ResetWritten(s, d)
    {
      assert forall w: nat :: IsReset(s', w, d) <==> IsReset(s, w, d);
    }
    assert forall d: nat :: HasClosed(http2, s', d) <==> HasClosed(http2, s, d);
  }

  predicate FiresNothing(s: State, e: Event) {
    !e.Fire? && !(e.Complete? && e.write < |s.writes| && s.writes[e.write].closing.Some?)
  }

  lemma NothingReported(timeout: nat, http2: bool, s: State, e: Event)
    requires Enabled(s, e) && FiresNothing(s, e)
    ensures SameReports(s, Step(timeout, http2, s, e))
  {
  }

  lemma OneMoreOutput(http2: bool, outputs: seq<Output>, o: Output)
    requires ClosesInOrder(http2, outputs) && o !in outputs
    requires o.Closed? ==> (if http2 then StreamReset(o.deadline) else TimeoutRaised(o.deadline)) in outputs
    ensures ClosesInOrder(http2, outputs + [o])
  {
    var more := outputs + [o];
    assert more[..|outputs|] == outputs;
    forall i | 0 <= i < |outputs|
      ensures more[..i] == outputs[..i] && more[i] == outputs[i] && more[i] != o
    {
      assert outputs[i] in outputs;
    }
  }

  lemma FiringWrites(timeout: nat, s: State, fired: nat)
    requires Enabled(s, Fire(fired)) && OneResetEach(true, s)
    ensures var s' := Step(timeout, true, s, Fire(fired));
      && OneResetEach(true, s')
      && (forall d: nat :: IsFired(s', d) <==> IsFired(s, d) || d == fired)
      && (forall d: nat :: ResetWritten(s', d) <==> ResetWritten(s, d))
  {
    var s' := Step(timeout, true, s, Fire(fired));
    assert IsReset(s', |s.writes|, fired);
    assert forall w: nat, d: nat {:trigger IsReset(s', w, d)} ::
             IsReset(s', w, d) <==> IsReset(s, w, d) || (w == |s.writes| && d == fired);
    forall d: nat
      ensures ResetWritten(s', d) <==> ResetWritten(s, d)
      ensures HasReset(s, d) ==> HasReset(s', d)
    {
      if w: nat :| IsReset(s, w, d) {
        assert IsReset(s', w, d);
      }
      if w: nat :| IsReset(s, w, d) && !s.writes[w].unfinished {
        assert IsReset(s', w, d) && !s'.writes[w].unfinished;
      }
    }
  }

  lemma FiringIsNew(http2: bool, s: State, d: nat)
    requires Reported(http2, s) && !IsFired(s, d)
    ensures TimeoutRaised(d) !in s.outputs && StreamReset(d) !in s.outputs && Closed(d) !in s.outputs
    ensures var last := if http2 then StreamReset(d) else Closed(d);
      ClosesInOrder(http2, s.outputs + [TimeoutRaised(d), last])
  {
    var last := if http2 then StreamReset(d) else Closed(d);
    OneMoreOutput(http2, s.outputs, TimeoutRaised(d));
    OneMoreOutput(http2, s.outputs + [TimeoutRaised(d)], last);
    assert s.outputs + [TimeoutRaised(d), last] == s.outputs + [TimeoutRaised(d)] + [last];
  }

  lemma FiringResets(timeout: nat, s: State, d: nat)
    requires Reported(true, s) && Enabled(s, Fire(d))
    ensures Reported(true, Step(timeout, true, s, Fire(d)))
  {
    FiringIsNew(true, s, d);
    FiringWrites(timeout, s, d);
  }

  lemma FiringCloses(timeout: nat, s: State, d: nat)
    requires Reported(false, s) && Enabled(s, Fire(d))
    ensures Reported(false, Step(timeout, false, s, Fire(d)))
  {
    FiringIsNew(false, s, d);
    var s' := Step(timeout, false, s, Fire(d));
    assert forall w: nat, c: nat :: IsReset(s', w, c) <==> IsReset(s, w, c);
    assert forall c: nat :: IsFired(s', c) <==> IsFired(s, c) || c == d;
  }

  lemma ResettingWrites(timeout: nat, http2: bool, s: State, done: nat)
    requires Enabled(s, Complete(done)) && s.writes[done].closing.Some? && OneResetEach(http2, s)
    ensures var s', d := Step(timeout, http2, s, Complete(done)), s.writes[done].closing.value;
      && OneResetEach(http2, s') && http2 && IsFired(s, d) && !ResetWritten(s, d)
      && (forall c: nat :: IsFired(s', c) <==> IsFired(s, c))
      && (forall c: nat :: ResetWritten(s', c) <==> ResetWritten(s, c) || c == d)
  {
    var s', d := Step(timeout, http2, s, Complete(done)), s.writes[done].closing.value;
    assert IsReset(s, done, d) && IsReset(s', done, d);
    assert forall w: nat, c: nat {:trigger IsReset(s', w, c)} :: IsReset(s', w, c) <==> IsReset(s, w, c);
    forall c: nat
      ensures HasReset(s', c) <==> HasReset(s, c)
      ensures ResetWritten(s', c) <==> ResetWritten(s, c) || c == d
    {
      if w: nat :| IsReset(s, w, c) && !s.writes[w].unfinished {
        assert IsReset(s', w, c) && !s'.writes[w].unfinished;
      }
      if w: nat :| IsReset(s, w, c) {
        assert IsReset(s', w, c);
      }
    }
  }

  lemma ResetIsReported(timeout: nat, http2: bool, s: State, w: nat)
    requires Reported(http2, s) && Enabled(s, Complete(w)) && s.writes[w].closing.Some?
    ensures Reported(http2, Step(timeout, http2, s, Complete(w)))
  {
    var d := s.writes[w].closing.value;
    ResettingWrites(timeout, http2, s, w);
    assert StreamReset(d) in s.outputs && Closed(d) !in s.outputs;
    OneMoreOutput(http2, s.outputs, Closed(d));
  }

  lemma StepIsReported(timeout: nat, http2: bool, s: State, e: Event)
    requires Reported(http2, s) && Enabled(s, e)
    ensures Reported(http2, Step(timeout, http2, s, e))
  {
    if e.Fire? {
      if http2 {
        FiringResets(timeout, s, e.deadline);
      } else {
        FiringCloses(timeout, s, e.deadline);
      }
    } else if e.Complete? && s.writes[e.write].closing.Some? {
      ResetIsReported(timeout, http2, s, e.write);
    } else {
      NothingReported(timeout, http2, s, e);
      SameIsReported(http2, s, Step(timeout, http2, s, e));
    }
  }

  lemma {:induction false} RunIsReported(timeout: nat, http2: bool, s: State, es: seq<Event>)
    requires Reported(http2, s) && ValidRun(timeout, http2, s, es)
    ensures Reported(http2, Run(timeout, http2, s, es))
    decreases |es|
  {
    if es == [] {
    } else {
      StepIsReported(timeout, http2, s, es[0]);
      RunIsReported(timeout, http2, Step(timeout, http2, s, es[0]), es[1..]);
    }
  }

  // ------------------------------------------------------------- timeouts and closes in numbers

  const HAS_FIRED: Timer -> bool := (timer: Timer) => timer.status == Fired
  const IS_TIMEOUT: Output -> bool := (o: Output) => o.TimeoutRaised?
  const IS_CLOSE: Output -> bool := (o: Output) => o.Closed?
  const IS_OPEN_RESET: Write -> bool := (write: Write) => write.closing.Some? && write.unfinished

  function FiredTimers(timers: seq<Timer>): nat {
    |Filter(timers, HAS_FIRED)|
  }

  function Timeouts(outputs: seq<Output>): nat {
    |Filter(outputs, IS_TIMEOUT)|
  }

  function Closes(outputs: seq<Output>): nat {
    |Filter(outputs, IS_CLOSE)|
  }

  function OpenResets(writes: seq<Write>): nat {
    |Filter(writes, IS_OPEN_RESET)|
  }

  lemma {:induction false} CancellingFiresNothing(timers: seq<Timer>, ds: set<nat>)
    ensures FiredTimers(CancelAll(timers, ds)) == FiredTimers(timers)
  {
    if timers == [] {
    } else {
      var init := timers[..|timers| - 1];
      CancellingFiresNothing(init, ds);
      assert CancelAll(timers, ds)[..|timers| - 1] == CancelAll(init, ds);
    }
  }

  /** Every fired deadline has raised its exception, and has closed the channel or has a reset still being written. */
  ghost predicate AddsUp(s: State) {
    Timeouts(s.outputs) == FiredTimers(s.timers) == Closes(s.outputs) + OpenResets(s.writes)
  }

  lemma AppendedTimer(timers: seq<Timer>, expiry: int)
    ensures FiredTimers(timers + [Timer(expiry, Live)]) == FiredTimers(timers)
  {
    FilterAppend(timers, Timer(expiry, Live), HAS_FIRED);
  }

  lemma AppendedWrite(writes: seq<Write>, write: Write)
    ensures OpenResets(writes + [write]) == OpenResets(writes) + if IS_OPEN_RESET(write) then 1 else 0
  {
    FilterAppend(writes, write, IS_OPEN_RESET);
  }

  lemma AppendedOutput(outputs: seq<Output>, o: Output)
    ensures Timeouts(outputs + [o]) == Timeouts(outputs) + if o.TimeoutRaised? then 1 else 0
    ensures Closes(outputs + [o]) == Closes(outputs) + if o.Closed? then 1 else 0
  {
    FilterAppend(outputs, o, IS_TIMEOUT);
    FilterAppend(outputs, o, IS_CLOSE);
  }

  lemma FiringAddsUp(timeout: nat, http2: bool, s: State, d: nat)
    requires AddsUp(s) && Enabled(s, Fire(d))
    ensures AddsUp(Step(timeout, http2, s, Fire(d)))
  {
    var last := if http2 then StreamReset(d) else Closed(d);
    FilterUpdate(s.timers, d, s.timers[d].(status := Fired), HAS_FIRED);
    AppendedWrite(s.writes, Write(None, Some(d), true));
    AppendedOutput(s.outputs, TimeoutRaised(d));
    AppendedOutput(s.outputs + [TimeoutRaised(d)], last);
    assert s.outputs + [TimeoutRaised(d), last] == s.outputs + [TimeoutRaised(d)] + [last];
  }

  lemma CompletingAddsUp(timeout: nat, http2: bool, s: State, w: nat)
    requires AddsUp(s) && Enabled(s, Complete(w))
    ensures AddsUp(Step(timeout, http2, s, Complete(w)))
  {
    var write := s.writes[w];
    FilterUpdate(s.writes, w, write.(unfinished := false), IS_OPEN_RESET);
    if write.closing.Some? {
      AppendedOutput(s.outputs, Closed(write.closing.value));
    } else {
      assert s.outputs + OnComplete(write) == s.outputs;
    }
    if write.deadline.Some? {
      CancellingFiresNothing(s.timers, {write.deadline.value});
    }
  }

  lemma StepAddsUp(timeout: nat, http2: bool, s: State, e: Event)
    requires AddsUp(s) && Enabled(s, e)
    ensures AddsUp(Step(timeout, http2, s, e))
  {
    match e
    case Read(isRequest) =>
      if isRequest {
        AppendedTimer(s.timers, s.now + timeout);
      }
    case WriteMessage(_, _) => AppendedWrite(s.writes, Step(timeout, http2, s, e).writes[|s.writes|]);
    case Complete(w) => CompletingAddsUp(timeout, http2, s, w);
    case Fire(d) => FiringAddsUp(timeout, http2, s, d);
    case ChannelInactive => CancellingFiresNothing(s.timers, s.pending);
    case HandlerRemoved => CancellingFiresNothing(s.timers, s.pending);
    case Advance(_) =>
  }

  lemma {:induction false} RunAddsUp(timeout: nat, http2: bool, s: State, es: seq<Event>)
    requires AddsUp(s) && ValidRun(timeout, http2, s, es)
    ensures AddsUp(Run(timeout, http2, s, es))
    decreases |es|
  {
    if es == [] {
    } else {
      StepAddsUp(timeout, http2, s, es[0]);
      RunAddsUp(timeout, http2, Step(timeout, http2, s, es[0]), es[1..]);
    }
  }

  /**
    In every reachable state: exactly the deadlines that fired have raised their exception and, on
    HTTP/2, written a reset, each once; the channel was closed for exactly those whose reset is
    written, and never before that reset went out. So the fired deadlines are the closes and the
    resets still being written.
   */
  lemma EveryTimeoutIsReported(timeout: nat, http2: bool, es: seq<Event>)
    requires Reachable(timeout, http2, es)
    ensures var s := After(timeout, http2, es);
      && OutputsAre(http2, s) && ClosesInOrder(http2, s.outputs) && OneResetEach(http2, s)
      && Timeouts(s.outputs) == FiredTimers(s.timers) == Closes(s.outputs) + OpenResets(s.writes)
  {
    RunIsReported(timeout, http2, INITIAL, es);
    RunAddsUp(timeout, http2, INITIAL, es);
  }

  /** A close is put out by the completion of the reset of its own deadline, on HTTP/1.1 by the deadline itself. */
  lemma OnlyOwnResetCloses(timeout: nat, http2: bool, es: seq<Event>, e: Event, d: nat)
    requires Reachable(timeout, http2, es) && Enabled(After(timeout, http2, es), e)
    ensures var s := After(timeout, http2, es);
      (Closed(d) !in s.outputs && Closed(d) in Step(timeout, http2, s, e).outputs) <==>
      (if http2 then e.Complete? && IsReset(s, e.write, d) else e == Fire(d))
  {
    RunIsReported(timeout, http2, INITIAL, es);
    var s := After(timeout, http2, es);
    StepIsReported(timeout, http2, s, e);
    if http2 && e.Complete? && IsReset(s, e.write, d) {
      ResettingWrites(timeout, http2, s, e.write);
    }
  }

  // ------------------------------------------------------------- completions commute

  function Completions(ws: seq<nat>): seq<Event> {
    seq(|ws|, i requires 0 <= i < |ws| => Complete(ws[i]))
  }

  ghost function TakenBy(s: State, ws: set<nat>): set<nat> {
    set w | w in ws && w < |s.writes| && s.writes[w].deadline.Some? :: s.writes[w].deadline.value
  }

  /** The state after the writes in `ws` completed, but for what was put out, with no mention of an order. */
  ghost function Completed(s: State, ws: set<nat>): State {
    s.(writes := seq(|s.writes|, w requires 0 <= w < |s.writes| =>
                   if w in ws then s.writes[w].(unfinished := false) else s.writes[w]),
       timers := CancelAll(s.timers, TakenBy(s, ws)),
       pending := s.pending - TakenBy(s, ws))
  }

  lemma OneMoreCompletion(timeout: nat, http2: bool, s: State, w: nat, rest: set<nat>)
    requires Enabled(s, Complete(w))
    ensures Completed(Step(timeout, http2, s, Complete(w)), rest) ==
            Completed(s, {w} + rest).(outputs := s.outputs + OnComplete(s.writes[w]))
  {
    var s' := Step(timeout, http2, s, Complete(w));
    assert TakenBy(s', rest) == TakenBy(s, rest);
    assert TakenBy(s, {w} + rest) == TakenBy(s, {w}) + TakenBy(s, rest);
    assert TakenBy(s, {w}) == match s.writes[w].deadline case None => {} case Some(d) => {d};
    assert Completed(s', rest).timers == Completed(s, {w} + rest).timers;
    assert Completed(s', rest).writes == Completed(s, {w} + rest).writes;
    assert Completed(s', rest).pending == Completed(s, {w} + rest).pending;
  }

  ghost predicate CanComplete(s: State, ws: seq<nat>) {
    Distinct(ws) && forall w :: w in ws ==> Enabled(s, Complete(w))
  }

  /** What the completions put out. */
  function ClosesBy(writes: seq<Write>, ws: seq<nat>): seq<Output> {
    if ws == [] then [] else
    (if ws[0] < |writes| then OnComplete(writes[ws[0]]) else []) + ClosesBy(writes, ws[1..])
  }

  /** The state after the completions, which depends on their order in the order of the closes only. */
  ghost function AfterAll(s: State, ws: seq<nat>): State {
    Completed(s, ToSet(ws)).(outputs := s.outputs + ClosesBy(s.writes, ws))
  }

  lemma {:induction false} ClosesSame(writes: seq<Write>, others: seq<Write>, ws: seq<nat>)
    requires forall w :: w in ws ==> w < |writes| && w < |others| && writes[w].closing == others[w].closing
    ensures ClosesBy(writes, ws) == ClosesBy(others, ws)
  {
    if ws == [] {
    } else {
      forall w | w in ws[1..]
        ensures w in ws
      {
      }
      ClosesSame(writes, others, ws[1..]);
    }
  }

  lemma {:induction false} ClosesConcat(writes: seq<Write>, a: seq<nat>, b: seq<nat>)
    ensures ClosesBy(writes, a + b) == ClosesBy(writes, a) + ClosesBy(writes, b)
  {
    if a == [] {
      assert a + b == b;
    } else {
      assert (a + b)[1..] == a[1..] + b;
      ClosesConcat(writes, a[1..], b);
    }
  }

  lemma ClosesAround(writes: seq<Write>, before: seq<nat>, x: nat, after: seq<nat>)
    ensures multiset(ClosesBy(writes, before + ([x] + after))) == multiset(ClosesBy(writes, [x] + (before + after)))
  {
    ClosesConcat(writes, before, [x] + after);
    ClosesConcat(writes, [x], after);
    ClosesConcat(writes, [x], before + after);
    ClosesConcat(writes, before, after);
  }

  /** Whatever the order, the same channels are closed. */
  lemma {:induction false} ClosesAnyOrder(writes: seq<Write>, a: seq<nat>, b: seq<nat>)
    requires multiset(a) == multiset(b)
    ensures multiset(ClosesBy(writes, a)) == multiset(ClosesBy(writes, b))
  {
    if a == [] {
    } else {
      assert a[0] in multiset(a) && a[0] in b;
      var j :| 0 <= j < |b| && b[j] == a[0];
      var before, after := b[..j], b[j + 1..];
      assert a == [a[0]] + a[1..] && b == before + ([a[0]] + after);
      WithoutOne(a[0], a[1..], before, after);
      ClosesAnyOrder(writes, a[1..], before + after);
      ClosesConcat(writes, [a[0]], a[1..]);
      ClosesConcat(writes, [a[0]], before + after);
      ClosesAround(writes, before, a[0], after);
    }
  }

  lemma WithoutOne(x: nat, rest: seq<nat>, before: seq<nat>, after: seq<nat>)
    requires multiset([x] + rest) == multiset(before + ([x] + after))
    ensures multiset(rest) == multiset(before + after)
  {
    forall y
      ensures multiset(rest)[y] == multiset(before + after)[y]
    {
      assert multiset([x] + rest)[y] == multiset([x])[y] + multiset(rest)[y];
      assert multiset(before + ([x] + after))[y] == multiset(before)[y] + multiset([x] + after)[y];
      assert multiset([x] + after)[y] == multiset([x])[y] + multiset(after)[y];
    }
  }

  lemma RunFirst(timeout: nat, http2: bool, s: State, ws: seq<nat>)
    requires ws != [] && Enabled(s, Complete(ws[0]))
    requires ValidRun(timeout, http2, Step(timeout, http2, s, Complete(ws[0])), Completions(ws[1..]))
    ensures ValidRun(timeout, http2, s, Completions(ws))
    ensures Run(timeout, http2, s, Completions(ws)) ==
            Run(timeout, http2, Step(timeout, http2, s, Complete(ws[0])), Completions(ws[1..]))
  {
    assert Completions(ws)[1..] == Completions(ws[1..]);
  }

  lemma CompletingFirst(timeout: nat, http2: bool, s: State, ws: seq<nat>)
    requires CanComplete(s, ws) && ws != []
    ensures var s' := Step(timeout, http2, s, Complete(ws[0]));
      && CanComplete(s', ws[1..]) && AfterAll(s', ws[1..]) == AfterAll(s, ws)
  {
    var s' := Step(timeout, http2, s, Complete(ws[0]));
    forall w | w in ws[1..]
      ensures Enabled(s', Complete(w)) && s'.writes[w] == s.writes[w]
    {
      assert w != ws[0];
    }
    ClosesSame(s.writes, s'.writes, ws[1..]);
    OneMoreCompletion(timeout, http2, s, ws[0], ToSet(ws[1..]));
    assert ToSet(ws) == {ws[0]} + ToSet(ws[1..]);
    assert s'.outputs + ClosesBy(s.writes, ws[1..]) == s.outputs + ClosesBy(s.writes, ws);
  }

  /** Completing unfinished writes in any order leads to one state, apart from the order of the closes. */
  lemma {:induction false} CompletionsCommute(timeout: nat, http2: bool, s: State, ws: seq<nat>)
    requires CanComplete(s, ws)
    ensures ValidRun(timeout, http2, s, Completions(ws))
    ensures Run(timeout, http2, s, Completions(ws)) == AfterAll(s, ws)
    decreases |ws|
  {
    if ws == [] {
      assert AfterAll(s, []).timers == s.timers && AfterAll(s, []).writes == s.writes;
    } else {
      CompletingFirst(timeout, http2, s, ws);
      CompletionsCommute(timeout, http2, Step(timeout, http2, s, Complete(ws[0])), ws[1..]);
      RunFirst(timeout, http2, s, ws);
    }
  }

  /** Two orders of the same completions differ in the order of the closes only. */
  lemma CompletionsInAnyOrder(timeout: nat, http2: bool, s: State, a: seq<nat>, b: seq<nat>)
    requires CanComplete(s, a) && CanComplete(s, b) && multiset(a) == multiset(b)
    ensures ValidRun(timeout, http2, s, Completions(a)) && ValidRun(timeout, http2, s, Completions(b))
    ensures var first, second := Run(timeout, http2, s, Completions(a)), Run(timeout, http2, s, Completions(b));
      first == second.(outputs := first.outputs) && multiset(first.outputs) == multiset(second.outputs)
  {
    CompletionsCommute(timeout, http2, s, a);
    CompletionsCommute(timeout, http2, s, b);
    ClosesAnyOrder(s.writes, a, b);
    assert ToSet(a) == ToSet(b) by {
      assert forall w :: w in a <==> w in multiset(a);
      assert forall w :: w in b <==> w in multiset(b);
    }
  }

  lemma TornCompletions(s: State, early: set<nat>, late: set<nat>, outputs: seq<Output>, more: seq<Output>)
    ensures Completed(Teardown(Completed(s, early).(outputs := outputs)), late).(outputs := more) ==
            Teardown(Completed(s, early + late).(outputs := more))
  {
    var torn := Teardown(Completed(s, early).(outputs := outputs));
    var both := Teardown(Completed(s, early + late).(outputs := more));
    assert TakenBy(torn, late) == TakenBy(s, late);
    assert TakenBy(s, early + late) == TakenBy(s, early) + TakenBy(s, late);
    assert Completed(torn, late).timers == both.timers;
    assert Completed(torn, late).writes == both.writes;
  }

  lemma CanCompleteParts(s: State, early: seq<nat>, late: seq<nat>)
    requires CanComplete(s, early + late)
    ensures CanComplete(s, early) && CanComplete(s, late) && ToSet(early + late) == ToSet(early) + ToSet(late)
    ensures forall w :: w in late ==> w !in early
  {
    forall i | 0 <= i < |late|
      ensures (early + late)[|early| + i] == late[i] && late[i] in early + late
      ensures forall j :: 0 <= j < |early| ==> early[j] != late[i]
    {
      assert forall j :: 0 <= j < |early| ==> (early + late)[j] == early[j];
    }
    assert forall j :: 0 <= j < |early| ==> (early + late)[j] == early[j];
  }

  lemma LateEnabled(s: State, early: seq<nat>, late: seq<nat>, torn: State)
    requires CanComplete(s, late) && torn.writes == Completed(s, ToSet(early)).writes
    requires forall w :: w in late ==> w !in early
    ensures CanComplete(torn, late) && ClosesBy(torn.writes, late) == ClosesBy(s.writes, late)
  {
    forall w | w in late
      ensures Enabled(torn, Complete(w)) && torn.writes[w] == s.writes[w]
    {
    }
    ClosesSame(s.writes, torn.writes, late);
  }

  lemma LateCompletions(timeout: nat, http2: bool, s: State, early: seq<nat>, late: seq<nat>, torn: State)
    requires CanComplete(s, late) && forall w :: w in late ==> w !in early
    requires torn == Teardown(AfterAll(s, early))
    ensures ValidRun(timeout, http2, torn, Completions(late))
    ensures Run(timeout, http2, torn, Completions(late)) ==
            Completed(torn, ToSet(late)).(outputs := s.outputs + ClosesBy(s.writes, early + late))
  {
    LateEnabled(s, early, late, torn);
    CompletionsCommute(timeout, http2, torn, late);
    ClosesAfter(s, early, late);
  }

  lemma ClosesAfter(s: State, early: seq<nat>, late: seq<nat>)
    ensures s.outputs + ClosesBy(s.writes, early) + ClosesBy(s.writes, late) ==
            s.outputs + ClosesBy(s.writes, early + late)
  {
    ClosesConcat(s.writes, early, late);
  }

  /** Completions that arrive after the teardown leave what they would have left before it. */
  lemma CompletionsCommuteWithTeardown(timeout: nat, http2: bool, s: State, early: seq<nat>, late: seq<nat>)
    requires CanComplete(s, early + late)
    ensures ValidRun(timeout, http2, s, Completions(early)) && ValidRun(timeout, http2, s, Completions(early + late))
    ensures var torn := Teardown(Run(timeout, http2, s, Completions(early)));
      && ValidRun(timeout, http2, torn, Completions(late))
      && Run(timeout, http2, torn, Completions(late)) == Teardown(Run(timeout, http2, s, Completions(early + late)))
  {
    CanCompleteParts(s, early, late);
    CompletionsCommute(timeout, http2, s, early);
    CompletionsCommute(timeout, http2, s, early + late);
    var torn := Teardown(Run(timeout, http2, s, Completions(early)));
    LateCompletions(timeout, http2, s, early, late, torn);
    TornCompletions(s, ToSet(early), ToSet(late), torn.outputs, s.outputs + ClosesBy(s.writes, early + late));
  }
}
