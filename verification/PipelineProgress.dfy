/** Why the pipeline cannot hang: a measure of the work left, and a way on from every state. */
module PipelineProgress {
  import opened Prelude
  import opened MessageCodec
  import opened PipelineModel
  import opened PipelineSafety
  import opened PipelineResults

  function SchedulerWork(pc: SchedulerPc): nat {
    match pc
    case ForHead => 12
    case Gate => 9
    case Push => 8
    case Close => 3
    case JoinWriters => 2
    case JoinPublishers => 1
    case Joined => 0
    case _ => 10  // reading the sizes is not work
  }

  function WriterWork(pc: WriterPc): nat {
    match pc
    case WWait => 3
    case WWriting(_) => 9
    case WFailed(_) => 8
    case WLeaving(_) => 2
    case WLast(_) => 1
    case WGone(_) => 0
  }

  function PublisherWork(pc: PublisherPc): nat {
    match pc
    case PStarting => 3
    case PStartFailed => 2
    case PWait => 2
    case PSending(_) => 6
    case PSent(_) => 3
    case PFailed(_) => 5
    case PGone(_) => 0
  }

  function WritersWork(ws: seq<WriterPc>): nat {
    if ws == [] then 0 else WriterWork(ws[0]) + WritersWork(ws[1..])
  }

  function PublishersWork(ps: seq<PublisherPc>): nat {
    if ps == [] then 0 else PublisherWork(ps[0]) + PublishersWork(ps[1..])
  }

  /** How many of these tasks have no result yet. */
  function Awaited(scenario: string, published: seq<nat>, received: map<string, ResultMessage>): nat {
    if published == [] then 0
    else One(TaskId(scenario, published[0]) !in received) + Awaited(scenario, published[1..], received)
  }

  /** The work left: of the threads, of the queued tasks, and of the results still to come. */
  function Work(c: Limits, s: State): int {
    20 * (c.tasks - s.next) + SchedulerWork(s.sched) + 7 * |s.scheduled| + WritersWork(s.writers) +
    5 * |s.ready| + PublishersWork(s.publishers) + Awaited(c.scenario, s.published, s.received)
  }

  lemma {:induction false} WriterWorks(ws: seq<WriterPc>, w: nat, pc: WriterPc)
    requires w < |ws|
    ensures WritersWork(ws[w := pc]) + WriterWork(ws[w]) == WritersWork(ws) + WriterWork(pc)
  {
    if w == 0 {
      assert ws[w := pc][1..] == ws[1..];
    } else {
      assert ws[w := pc][1..] == ws[1..][w - 1 := pc];
      WriterWorks(ws[1..], w - 1, pc);
    }
  }

  lemma {:induction false} PublisherWorks(ps: seq<PublisherPc>, p: nat, pc: PublisherPc)
    requires p < |ps|
    ensures PublishersWork(ps[p := pc]) + PublisherWork(ps[p]) == PublishersWork(ps) + PublisherWork(pc)
  {
    if p == 0 {
      assert ps[p := pc][1..] == ps[1..];
    } else {
      assert ps[p := pc][1..] == ps[1..][p - 1 := pc];
      PublisherWorks(ps[1..], p - 1, pc);
    }
  }

  lemma {:induction false} OneMoreAwaited(scenario: string, q: seq<nat>, i: nat, r: map<string, ResultMessage>)
    ensures Awaited(scenario, q, r) <= Awaited(scenario, q + [i], r) <= Awaited(scenario, q, r) + 1
  {
    if q == [] {
      assert q + [i] == [i];
    } else {
      assert (q + [i])[0] == q[0] && (q + [i])[1..] == q[1..] + [i];
      OneMoreAwaited(scenario, q[1..], i, r);
    }
  }

  lemma {:induction false} ResultIsNotAwaited(scenario: string, q: seq<nat>, r: map<string, ResultMessage>, m: ResultMessage)
    ensures var r' := r[m.taskId := m];
            && Awaited(scenario, q, r') <= Awaited(scenario, q, r)
            && ((exists i :: i in q && TaskId(scenario, i) == m.taskId) && m.taskId !in r ==>
                  Awaited(scenario, q, r') < Awaited(scenario, q, r))
  {
    hide TaskId;
    if q != [] { ResultIsNotAwaited(scenario, q[1..], r, m); }
  }

  lemma WorkIsNonNegative(c: Limits, s: State)
    requires Shape(c, s)
    ensures Work(c, s) >= 0
    ensures s.sched.Joined? || Work(c, s) > 0
  {
  }

  predicate Outstanding(c: Limits, s: State, i: nat) { i in s.published && TaskId(c.scenario, i) !in s.received }

  /** Neither a step of the size-reading loop does work, nor a result that no published task awaits. */
  predicate Idles(c: Limits, s: State, e: Event) {
    || (e.Scheduler? && IsPolling(s.sched))
    || (e.ResultArrives? && !exists i :: i in s.published && Outstanding(c, s, i) && TaskId(c.scenario, i) == e.result.taskId)
  }

  /** Admitting a task pays for everything that is still to happen to it. */
  lemma SchedulerPcWorks(c: Limits, s: State)
    requires SchedulerEnabled(s)
    ensures var now, next := SchedulerWork(s.sched), SchedulerWork(SchedulerStep(c, s).sched);
            && next <= now + (if s.sched.Push? then 12 else 0)
            && (!IsPolling(s.sched) && !s.sched.Push? ==> next < now)
            && (IsPolling(s.sched) && !IsPolling(SchedulerStep(c, s).sched) ==> next < now)
  {
    match s.sched
    case ForHead =>
    case WhileHead =>
    case PollScheduled =>
    case PollReady(_) =>
    case PollCompleted(_, _) =>
    case PollPublished(_, _, _) =>
    case Gate =>
    case Push =>
    case Close =>
    case JoinWriters =>
    case JoinPublishers =>
  }

  lemma SchedulerDoesWork(c: Limits, s: State)
    requires SchedulerEnabled(s)
    ensures Work(c, SchedulerStep(c, s)) <= Work(c, s)
    ensures !IsPolling(s.sched) ==> Work(c, SchedulerStep(c, s)) < Work(c, s)
    ensures IsPolling(s.sched) && !IsPolling(SchedulerStep(c, s).sched) ==> Work(c, SchedulerStep(c, s)) < Work(c, s)
  {
    hide SchedulerStep, SchedulerWork, WritersWork, PublishersWork;
    SchedulerMoves(c, s);
    SchedulerPcWorks(c, s);
  }

  lemma WriterDoesWork(c: Limits, s: State, w: nat, ok: bool)
    requires WriterEnabled(s, w)
    ensures Work(c, WriterStep(s, w, ok)) < Work(c, s)
  {
    hide WritersWork, PublishersWork, SchedulerWork, PublisherWork, Awaited;
    WriterWorks(s.writers, w, WriterStep(s, w, ok).writers[w]);
    match s.writers[w]
    case WWait =>
    case WWriting(_) =>
    case WFailed(_) =>
    case WLeaving(_) =>
    case WLast(_) =>
  }

  lemma PublisherDoesWork(c: Limits, s: State, p: nat, ok: bool)
    requires PublisherEnabled(s, p)
    ensures Work(c, PublisherStep(s, p, ok)) < Work(c, s)
  {
    hide WritersWork, PublishersWork, SchedulerWork, WriterWork, Awaited;
    PublisherWorks(s.publishers, p, PublisherStep(s, p, ok).publishers[p]);
    match s.publishers[p]
    case PStarting =>
    case PStartFailed =>
    case PWait =>
    case PSending(i) => OneMoreAwaited(c.scenario, s.published, i, s.received);
    case PSent(_) =>
    case PFailed(_) =>
  }

  /** No step adds work, and every step that does not merely wait does some. */
  lemma WorkOnlyShrinks(c: Limits, s: State, e: Event)
    requires Enabled(s, e)
    ensures Work(c, Step(c, s, e)) <= Work(c, s)
    ensures !Idles(c, s, e) ==> Work(c, Step(c, s, e)) < Work(c, s)
  {
    hide Awaited, WritersWork, PublishersWork, SchedulerStep, WriterStep, PublisherStep, TaskId;
    match e
    case Scheduler => SchedulerDoesWork(c, s);
    case Writer(w, ok) => WriterDoesWork(c, s, w, ok);
    case Publisher(p, ok) => PublisherDoesWork(c, s, p, ok);
    case ResultArrives(m) => ResultIsNotAwaited(c.scenario, s.published, s.received, m);
  }

  // ---- a way on from every state ----

  ghost predicate SomeoneElseWorks(c: Limits, s: State) {
    || (exists w: nat :: WriterEnabled(s, w))
    || (exists p: nat :: PublisherEnabled(s, p))
    || (exists i: nat :: Outstanding(c, s, i))
  }

  lemma WritersQuiet(c: Limits, s: State)
    requires !SomeoneElseWorks(c, s)
    ensures forall w: nat :: w < |s.writers| ==> s.writers[w].WGone? || s.writers[w].WWait?
    ensures forall p: nat :: p < |s.publishers| ==> s.publishers[p].PGone? || s.publishers[p].PWait?
  {
    forall w: nat | w < |s.writers| ensures s.writers[w].WGone? || s.writers[w].WWait? {
      assert !WriterEnabled(s, w);
    }
    forall p: nat | p < |s.publishers| ensures s.publishers[p].PGone? || s.publishers[p].PWait? {
      assert !PublisherEnabled(s, p);
    }
  }

  /** If no other thread can move and no result is due, the scheduler finds room: both queues are
      empty and nothing is in flight. */
  lemma QuietMeansRoom(c: Limits, s: State)
    requires ValidLimits(c) && Inv(c, s) && !SomeoneElseWorks(c, s) && !s.abort && !s.scheduleComplete
    ensures HasRoom(c, |s.scheduled|, |s.ready|, |s.received|, s.publishedCount)
  {
    WritersQuiet(c, s);
    assert !s.error;
    assert !WriterEnabled(s, 0) && WriterClean(s, s.writers[0]);
    assert s.scheduled == [];
    assert !PublisherEnabled(s, 0) && PublisherClean(s, s.publishers[0]);
    assert s.ready == [];
    assert forall i :: i in s.published ==> TaskId(c.scenario, i) in s.received by {
      forall i | i in s.published ensures TaskId(c.scenario, i) in s.received { assert !Outstanding(c, s, i); }
    }
    PublishedOnceAtMost(c, s);
  }

  lemma PublishedOnceAtMost(c: Limits, s: State)
    requires Inv(c, s) && forall i :: i in s.published ==> TaskId(c.scenario, i) in s.received
    ensures s.publishedCount <= |s.received|
  {
    forall i: nat ensures Occurs(s.published, i) <= 1 {
      assert PlacesOf(s, i) == One(i < s.next);
    }
    DistinctFits(c.scenario, s.published, s.received.Keys);
  }

  /** Different tasks have different identifiers. */
  lemma {:induction false} DistinctFits(scenario: string, q: seq<nat>, r: set<string>)
    requires forall i: nat :: Occurs(q, i) <= 1
    requires forall i :: i in q ==> TaskId(scenario, i) in r
    ensures |q| <= |r|
  {
    if q != [] {
      assert Occurs(q, q[0]) == 1 + Occurs(q[1..], q[0]);
      OccursIn(q[1..], q[0]);
      forall i: nat ensures Occurs(q[1..], i) <= 1 { assert Occurs(q, i) <= 1; }
      forall i | i in q[1..] ensures TaskId(scenario, i) in r - {TaskId(scenario, q[0])} {
        TaskIdTellsIndex(scenario, i, q[0]);
      }
      DistinctFits(scenario, q[1..], r - {TaskId(scenario, q[0])});
    }
  }

  /** `n` steps of the scheduler alone. */
  function Alone(c: Limits, s: State, n: nat): State
    requires IsPolling(s.sched)
    decreases n
  {
    if n == 0 then s
    else
      var s' := SchedulerStep(c, s);
      if IsPolling(s'.sched) then Alone(c, s', n - 1) else s'
  }

  lemma {:induction false} AloneIsARun(c: Limits, s: State, n: nat) returns (run: seq<Event>)
    requires IsPolling(s.sched)
    ensures Runs(c, s, run, Alone(c, s, n)) && |run| <= n
    ensures Work(c, Alone(c, s, n)) <= Work(c, s)
    ensures !IsPolling(Alone(c, s, n).sched) ==> Work(c, Alone(c, s, n)) < Work(c, s)
    decreases n
  {
    if n == 0 {
      run := [];
    } else {
      var s' := SchedulerStep(c, s);
      SchedulerDoesWork(c, s);
      assert Enabled(s, Scheduler) && Step(c, s, Scheduler) == s';
      if IsPolling(s'.sched) {
        var rest := AloneIsARun(c, s', n - 1);
        run := [Scheduler] + rest;
      } else {
        run := [Scheduler];
        assert run[1..] == [];
      }
    }
  }

  /** How far the scheduler is from the head of its while loop. */
  function ToHead(pc: SchedulerPc): nat {
    match pc
    case PollScheduled => 4
    case PollReady(_) => 3
    case PollCompleted(_, _) => 2
    case PollPublished(_, _, _) => 1
    case _ => 0
  }

  lemma FreshReadsAdmit(c: Limits, s: State)
    requires s.sched.WhileHead?
    requires s.abort || HasRoom(c, |s.scheduled|, |s.ready|, |s.received|, s.publishedCount)
    ensures !IsPolling(Alone(c, s, 5).sched)
  {
    if !s.abort {
      var s1 := SchedulerStep(c, s);
      var s2 := SchedulerStep(c, s1);
      var s3 := SchedulerStep(c, s2);
      var s4 := SchedulerStep(c, s3);
      assert Alone(c, s, 5) == Alone(c, s1, 4) == Alone(c, s2, 3) == Alone(c, s3, 2) == Alone(c, s4, 1);
    }
  }

  /** Stale reads cost the scheduler one more round at most. */
  lemma {:induction false} PollingEnds(c: Limits, s: State)
    requires IsPolling(s.sched)
    requires s.abort || HasRoom(c, |s.scheduled|, |s.ready|, |s.received|, s.publishedCount)
    ensures !IsPolling(Alone(c, s, ToHead(s.sched) + 5).sched)
    decreases ToHead(s.sched)
  {
    match s.sched
    case WhileHead => FreshReadsAdmit(c, s);
    case PollPublished(n, r, d) =>
      if !HasRoom(c, n, r, d, s.publishedCount) { PollingEnds(c, SchedulerStep(c, s)); }
    case PollScheduled => PollingEnds(c, SchedulerStep(c, s));
    case PollReady(_) => PollingEnds(c, SchedulerStep(c, s));
    case PollCompleted(_, _) => PollingEnds(c, SchedulerStep(c, s));
  }

  lemma OneStepOn(c: Limits, s: State, e: Event) returns (run: seq<Event>, s': State)
    requires Enabled(s, e) && !Idles(c, s, e)
    ensures Runs(c, s, run, s') && |run| == 1 && Work(c, s') < Work(c, s)
  {
    WorkOnlyShrinks(c, s, e);
    run, s' := [e], Step(c, s, e);
    assert run[1..] == [];
  }

  /** While the scheduler waits for threads to end, those threads can move. */
  lemma JoiningMovesOn(c: Limits, s: State)
    requires ValidLimits(c) && Inv(c, s) && (s.sched.JoinWriters? || s.sched.JoinPublishers?) && !SchedulerEnabled(s)
    ensures SomeoneElseWorks(c, s)
  {
    if s.sched.JoinWriters? {
      var w :| 0 <= w < |s.writers| && !s.writers[w].WGone?;
      assert WriterEnabled(s, w);
    } else {
      var p :| 0 <= p < |s.publishers| && !s.publishers[p].PGone?;
      AllGoneNoneActive(s.writers);
      assert s.inputComplete;
      assert PublisherEnabled(s, p);
    }
  }

  lemma {:induction false} AllGoneNoneActive(ws: seq<WriterPc>)
    requires AllGone(ws)
    ensures ActiveCount(ws) == 0
  {
    if ws != [] { AllGoneNoneActive(ws[1..]); }
  }

  /** Some result for a task. */
  function AnswerTo(c: Limits, i: nat): ResultMessage {
    ResultMessage(TaskId(c.scenario, i), "", "", "", "processed", "", 0, 0, 0, 0, 0, 0, 0, 0, true)
  }

  /** No deadlock and no livelock: every reachable state that is not finished has a run of at most
      nine steps that does some of the remaining work. */
  lemma NeverStuck(c: Limits, s: State) returns (run: seq<Event>, s': State)
    requires ValidLimits(c) && Inv(c, s) && !s.sched.Joined?
    ensures Runs(c, s, run, s') && 1 <= |run| <= 9 && Work(c, s') < Work(c, s)
  {
    if w: nat :| WriterEnabled(s, w) {
      run, s' := OneStepOn(c, s, Writer(w, true));
    } else if p: nat :| PublisherEnabled(s, p) {
      run, s' := OneStepOn(c, s, Publisher(p, true));
    } else if i: nat :| Outstanding(c, s, i) {
      run, s' := OneStepOn(c, s, ResultArrives(AnswerTo(c, i)));
    } else if IsPolling(s.sched) {
      if !s.abort { QuietMeansRoom(c, s); }
      var n := ToHead(s.sched) + 5;
      PollingEnds(c, s);
      run := AloneIsARun(c, s, n);
      s' := Alone(c, s, n);
    } else {
      if !SchedulerEnabled(s) { JoiningMovesOn(c, s); }
      run, s' := OneStepOn(c, s, Scheduler);
    }
  }

  lemma {:induction false} CanFinish(c: Limits, s: State)
    requires ValidLimits(c) && Inv(c, s)
    ensures exists run, t :: Runs(c, s, run, t) && t.sched.Joined?
    decreases Work(c, s)
  {
    WorkIsNonNegative(c, s);
    if s.sched.Joined? {
      assert Runs(c, s, [], s);
    } else {
      var run, s' := NeverStuck(c, s);
      RunKeepsInv(c, s, run, s');
      WorkIsNonNegative(c, s');
      CanFinish(c, s');
      var run', t :| Runs(c, s', run', t) && t.sched.Joined?;
      RunsCompose(c, s, run, s', run', t);
    }
  }

  /** From every reachable state, aborted or not, the pipeline can still run to its end. */
  lemma CanAlwaysFinish(c: Limits, s: State)
    requires ValidLimits(c) && Reachable(c, s)
    ensures exists run, t :: Runs(c, s, run, t) && t.sched.Joined?
  {
    ReachableInv(c, s);
    CanFinish(c, s);
  }

  // ---- why the limits pass through max(1, ...) ----

  ghost predicate NeverAdmits(s: State) {
    !s.abort ==> s.next == 0 && (s.sched.ForHead? || IsPolling(s.sched))
  }

  lemma NoAdmissionStep(c: Limits, s: State, e: Event)
    requires c.tasks > 0 && (c.maxScheduled == 0 || c.maxReady == 0 || c.maxInflight == 0)
    requires NeverAdmits(s) && Enabled(s, e)
    ensures NeverAdmits(Step(c, s, e))
  {
    match e
    case Scheduler => { match s.sched { case PollPublished(_, _, _) => case _ => } }
    case Writer(w, _) => { match s.writers[w] { case WWait => case _ => } }
    case Publisher(p, _) => { match s.publishers[p] { case PWait => case _ => } }
    case ResultArrives(_) =>
  }

  lemma {:induction false} NoAdmission(c: Limits, s: State, run: seq<Event>, t: State)
    requires c.tasks > 0 && (c.maxScheduled == 0 || c.maxReady == 0 || c.maxInflight == 0)
    requires NeverAdmits(s) && Runs(c, s, run, t)
    ensures NeverAdmits(t)
    decreases |run|
  {
    hide NeverAdmits, Step, Enabled;
    if run != [] {
      var s' := Step(c, s, run[0]);
      NoAdmissionStep(c, s, run[0]);
      NoAdmission(c, s', run[1..], t);
    }
  }

  /** With a threshold of zero no task is ever admitted and, short of a failure, no run ends. */
  lemma ZeroThresholdHangs(c: Limits, s: State)
    requires c.tasks > 0 && (c.maxScheduled == 0 || c.maxReady == 0 || c.maxInflight == 0)
    requires Reachable(c, s) && !s.abort
    ensures s.next == 0 && !s.sched.Joined?
  {
    var run :| Runs(c, Initial(c), run, s);
    NoAdmission(c, Initial(c), run, s);
  }
}
