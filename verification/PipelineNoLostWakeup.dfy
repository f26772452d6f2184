/** Why a notification that is lost does no harm. */
module PipelineNoLostWakeup {
  import opened Prelude
  import opened MessageCodec
  import opened PipelineModel
  import opened PipelineSafety
  import opened PipelineResults
  import opened PipelineProgress
  import opened PipelineWakeups

  // ---- runs with sleeping and notifying ----

  lemma {:induction false} MovesCompose(c: Limits, x: Waiting, ms: seq<Move>, y: Waiting, ms': seq<Move>, z: Waiting)
    requires MovesTo(c, x, ms, y) && MovesTo(c, y, ms', z)
    ensures MovesTo(c, x, ms + ms', z)
    decreases |ms|
  {
    hide CanMove, Moved;
    if ms == [] {
      assert ms + ms' == ms';
    } else {
      MovesCompose(c, Moved(c, x, ms[0]), ms[1..], y, ms', z);
      assert (ms + ms')[0] == ms[0] && (ms + ms')[1..] == ms[1..] + ms';
    }
  }

  ghost predicate Leads(c: Limits, x: Waiting, y: Waiting) { exists ms :: MovesTo(c, x, ms, y) }

  lemma LeadsNowhere(c: Limits, x: Waiting)
    ensures Leads(c, x, x)
  {
    assert MovesTo(c, x, [], x);
  }

  lemma LeadsByOne(c: Limits, x: Waiting, m: Move)
    requires CanMove(x, m)
    ensures Leads(c, x, Moved(c, x, m))
  {
    hide CanMove, Moved;
    assert [m][1..] == [];
    assert MovesTo(c, x, [m], Moved(c, x, m));
  }

  lemma LeadsOn(c: Limits, x: Waiting, y: Waiting, z: Waiting)
    requires Leads(c, x, y) && Leads(c, y, z)
    ensures Leads(c, x, z)
  {
    hide MovesTo;
    var ms :| MovesTo(c, x, ms, y);
    var ms' :| MovesTo(c, y, ms', z);
    MovesCompose(c, x, ms, y, ms', z);
  }

  ghost predicate Met(c: Limits, x: Waiting) { Leads(c, AtFirst(c), x) }

  lemma FirstWakeInv(c: Limits)
    requires ValidLimits(c)
    ensures WakeInv(c, AtFirst(c))
  {
    InitialInv(c);
  }

  lemma MetWakeInv(c: Limits, x: Waiting)
    requires ValidLimits(c) && Met(c, x)
    ensures WakeInv(c, x)
  {
    FirstWakeInv(c);
    hide WakeInv;
    var ms :| MovesTo(c, AtFirst(c), ms, x);
    MovesKeepWakeInv(c, AtFirst(c), ms, x);
  }

  // ---- every notification owed is made ----

  function Unpaid(debts: seq<Debt>): nat {
    if debts == [] then 0 else One(!debts[0].Paid?) + Unpaid(debts[1..])
  }

  lemma {:induction false} PayingLowers(debts: seq<Debt>, k: nat)
    requires k < |debts| && !debts[k].Paid?
    ensures Unpaid(debts[k := Paid]) + 1 == Unpaid(debts)
  {
    if k == 0 {
      assert debts[k := Paid][1..] == debts[1..];
    } else {
      assert debts[k := Paid][1..] == debts[1..][k - 1 := Paid];
      PayingLowers(debts[1..], k - 1);
    }
  }

  function Debts(x: Waiting): nat { One(!x.schedulerOwes.Paid?) + Unpaid(x.writersOwe) + Unpaid(x.publishersOwe) }

  /** No notification is owed. */
  predicate Settled(x: Waiting) { x.schedulerOwes.Paid? && AllPaid(x.writersOwe) && AllPaid(x.publishersOwe) }

  lemma NotifyingLowers(c: Limits, x: Waiting, t: Thread, woken: nat)
    requires MayNotify(x, t, woken)
    ensures var y := Moved(c, x, Notifies(t, woken)); Debts(y) < Debts(x) && y.s == x.s && y.tested == x.tested
  {
    match t
    case TheScheduler =>
    case TheWriter(w) => PayingLowers(x.writersOwe, w);
    case ThePublisher(p) => PayingLowers(x.publishersOwe, p);
  }

  lemma SomeoneToWake(asleep: set<nat>) returns (k: nat)
    ensures ChoosesSleeper(asleep, k)
  {
    if asleep != {} { k :| k in asleep; } else { k := 0; }
  }

  lemma CanNotify(x: Waiting, t: Thread) returns (woken: nat)
    requires Exists(x, t) && !Owes(x, t).Paid?
    ensures MayNotify(x, t, woken)
  {
    woken := SomeoneToWake(if Owes(x, t).PushOne? then x.writersAsleep else x.publishersAsleep);
  }

  lemma SomeDebtor(x: Waiting) returns (t: Thread)
    requires Aligned(x) && !Settled(x)
    ensures Exists(x, t) && !Owes(x, t).Paid?
  {
    if !x.schedulerOwes.Paid? {
      t := TheScheduler;
    } else if !AllPaid(x.writersOwe) {
      var w :| 0 <= w < |x.writersOwe| && !x.writersOwe[w].Paid?;
      t := TheWriter(w);
    } else {
      var p :| 0 <= p < |x.publishersOwe| && !x.publishersOwe[p].Paid?;
      t := ThePublisher(p);
    }
  }

  /** All notifications owed can be made, and make no difference to the pipeline itself. */
  lemma {:induction false} AllCanNotify(c: Limits, x: Waiting) returns (y: Waiting)
    requires ValidLimits(c) && WakeInv(c, x)
    ensures Leads(c, x, y) && WakeInv(c, y) && Settled(y) && y.s == x.s && y.tested == x.tested
    decreases Debts(x)
  {
    hide WakeInv, CanMove, Moved, Leads, Settled, Aligned;
    if Settled(x) {
      LeadsNowhere(c, x);
      y := x;
    } else {
      IsAligned(c, x);
      var t := SomeDebtor(x);
      var woken := CanNotify(x, t);
      MayNotifyMoves(x, t, woken);
      var next := Moved(c, x, Notifies(t, woken));
      NotifyingLowers(c, x, t, woken);
      MoveKeepsWakeInv(c, x, Notifies(t, woken));
      LeadsByOne(c, x, Notifies(t, woken));
      y := AllCanNotify(c, next);
      LeadsOn(c, x, next, y);
    }
  }

  lemma IsAligned(c: Limits, x: Waiting)
    requires WakeInv(c, x)
    ensures Aligned(x)
  {
  }

  lemma MayNotifyMoves(x: Waiting, t: Thread, woken: nat)
    requires MayNotify(x, t, woken)
    ensures CanMove(x, Notifies(t, woken))
  {
  }

  /** Whoever is on the way to sleep arrives there. */
  lemma {:induction false} AllFallAsleep(c: Limits, x: Waiting) returns (y: Waiting)
    requires ValidLimits(c) && WakeInv(c, x)
    ensures Leads(c, x, y) && WakeInv(c, y) && y.tested == {} && y.s == x.s
    decreases |x.tested|
  {
    hide WakeInv, Leads;
    if x.tested == {} {
      LeadsNowhere(c, x);
      y := x;
    } else {
      var t :| t in x.tested;
      var next := Moved(c, x, Sleeps(t));
      NotTheScheduler(c, x, t);
      assert next.tested == x.tested - {t};
      MoveKeepsWakeInv(c, x, Sleeps(t));
      LeadsByOne(c, x, Sleeps(t));
      y := AllFallAsleep(c, next);
      LeadsOn(c, x, next, y);
    }
  }

  lemma NotTheScheduler(c: Limits, x: Waiting, t: Thread)
    requires WakeInv(c, x) && t in x.tested
    ensures !t.TheScheduler?
  {
  }

  // ---- then somebody who can work is awake ----

  predicate WriterCanAct(x: Waiting, w: nat) { WriterEnabled(x.s, w) && w !in x.writersAsleep }
  predicate PublisherCanAct(x: Waiting, p: nat) { PublisherEnabled(x.s, p) && p !in x.publishersAsleep }

  ghost predicate NobodyCanAct(x: Waiting) {
    (forall w: nat :: !WriterCanAct(x, w)) && (forall p: nat :: !PublisherCanAct(x, p))
  }

  /** An error that nobody has followed up yet has a thread that is awake and can. */
  lemma FailingCanAct(c: Limits, x: Waiting)
    requires WakeInv(c, x) && x.s.error && !x.s.abort
    ensures !NobodyCanAct(x)
  {
    if WriterFailing(x.s) {
      var k :| 0 <= k < |x.s.writers| && x.s.writers[k].WFailed?;
      assert WriterCanAct(x, k);
    } else {
      assert PublisherFailing(x.s);
      var k :| 0 <= k < |x.s.publishers| && (x.s.publishers[k].PFailed? || x.s.publishers[k].PStartFailed?);
      assert PublisherCanAct(x, k);
    }
  }

  lemma SleepingWriterMeansAbort(c: Limits, x: Waiting, w: nat)
    requires WakeInv(c, x) && Settled(x) && NobodyCanAct(x) && WriterEnabled(x.s, w)
    ensures x.s.abort && !x.s.scheduleComplete
  {
    assert !WriterCanAct(x, w);
    assert WritersLookedAfter(x) && x.s.writers[w].WWait? && x.writersAsleep != {};
    if !x.s.abort {
      if WriterAwake(x) {
        var k :| 0 <= k < |x.s.writers| && k !in x.writersAsleep && Willing(x.s.writers[k]);
        assert WriterCanAct(x, k);
      }
      FailingCanAct(c, x);
    }
  }

  lemma SleepingPublisherMeansAbort(c: Limits, x: Waiting, p: nat)
    requires WakeInv(c, x) && Settled(x) && NobodyCanAct(x) && PublisherEnabled(x.s, p)
    ensures x.s.abort && !x.s.inputComplete
  {
    assert !PublisherCanAct(x, p);
    assert PublishersLookedAfter(x) && x.s.publishers[p].PWait? && x.publishersAsleep != {};
    if !x.s.abort {
      if PublisherAwake(x) {
        var k :| 0 <= k < |x.s.publishers| && k !in x.publishersAsleep && Serving(x.s.publishers[k]);
        assert PublisherCanAct(x, k);
      }
      FailingCanAct(c, x);
    }
  }

  // ---- so work goes on ----

  /** The scheduler alone, which sleeps with a timeout only. */
  lemma {:induction false} AloneLeads(c: Limits, x: Waiting, n: nat)
    requires x.schedulerOwes.Paid? && IsPolling(x.s.sched) && x.tested == {}
    ensures Leads(c, x, x.(s := Alone(c, x.s, n)))
    decreases n
  {
    if n == 0 {
      LeadsNowhere(c, x);
    } else {
      var next := x.(s := SchedulerStep(c, x.s));
      OneAlone(c, x);
      if IsPolling(next.s.sched) {
        AloneLeads(c, next, n - 1);
        LeadsOn(c, x, next, x.(s := Alone(c, x.s, n)));
      }
    }
  }

  lemma OneAlone(c: Limits, x: Waiting)
    requires x.schedulerOwes.Paid? && IsPolling(x.s.sched) && x.tested == {}
    ensures Leads(c, x, x.(s := SchedulerStep(c, x.s)))
  {
    LeadsByOne(c, x, Acts(Scheduler));
    assert Moved(c, x, Acts(Scheduler)) == x.(s := SchedulerStep(c, x.s));
  }

  lemma ActLeads(c: Limits, x: Waiting, e: Event) returns (y: Waiting)
    requires Enabled(x.s, e) && Free(x, e) && !Idles(c, x.s, e)
    ensures Leads(c, x, y) && Work(c, y.s) < Work(c, x.s)
  {
    y := Moved(c, x, Acts(e));
    OneMoveProjects(c, x, Acts(e));
    WorkOnlyShrinks(c, x.s, e);
    hide Moved, Work, Step, Idles;
    LeadsByOne(c, x, Acts(e));
  }

  /** Only the scheduler is left: it finds room, or closes, or joins. */
  lemma SchedulerGoesOn(c: Limits, x: Waiting) returns (y: Waiting)
    requires ValidLimits(c) && WakeInv(c, x) && Settled(x) && x.tested == {} && NobodyCanAct(x) && !x.s.sched.Joined?
    requires forall i: nat :: !Outstanding(c, x.s, i)
    ensures Leads(c, x, y) && Work(c, y.s) < Work(c, x.s)
  {
    if IsPolling(x.s.sched) {
      PollingHasReason(c, x);
      var n := ToHead(x.s.sched) + 5;
      PollingEnds(c, x.s);
      var run := AloneIsARun(c, x.s, n);
      AloneLeads(c, x, n);
      y := x.(s := Alone(c, x.s, n));
    } else {
      JoinIsOver(c, x);
      y := ActLeads(c, x, Scheduler);
    }
  }

  lemma PollingHasReason(c: Limits, x: Waiting)
    requires ValidLimits(c) && WakeInv(c, x) && Settled(x) && NobodyCanAct(x) && IsPolling(x.s.sched)
    requires forall i: nat :: !Outstanding(c, x.s, i)
    ensures x.s.abort || HasRoom(c, |x.s.scheduled|, |x.s.ready|, |x.s.received|, x.s.publishedCount)
  {
    if !x.s.abort {
      forall w: nat ensures !WriterEnabled(x.s, w) { if WriterEnabled(x.s, w) { SleepingWriterMeansAbort(c, x, w); } }
      forall p: nat ensures !PublisherEnabled(x.s, p) { if PublisherEnabled(x.s, p) { SleepingPublisherMeansAbort(c, x, p); } }
      assert !x.s.scheduleComplete by { NotClosed(c, x.s); }
      QuietMeansRoom(c, x.s);
    }
  }

  lemma NotClosed(c: Limits, s: State)
    requires Inv(c, s) && IsPolling(s.sched)
    ensures !s.scheduleComplete
  {
  }

  lemma ClosedIsComplete(c: Limits, s: State)
    requires Inv(c, s)
    ensures s.sched.JoinWriters? || s.sched.JoinPublishers? ==> s.scheduleComplete
    ensures s.sched.JoinPublishers? ==> s.inputComplete || |s.writers| == 0
  {
    if s.sched.JoinPublishers? { AllGoneNoneActive(s.writers); }
  }

  /** A join never waits for a thread that sleeps. */
  lemma JoinIsOver(c: Limits, x: Waiting)
    requires ValidLimits(c) && WakeInv(c, x) && Settled(x) && x.tested == {} && NobodyCanAct(x) && !x.s.sched.Joined?
    ensures SchedulerEnabled(x.s) && Free(x, Scheduler)
  {
    ClosedIsComplete(c, x.s);
    if x.s.sched.JoinWriters? {
      forall k: nat | k < |x.s.writers| ensures x.s.writers[k].WGone? { GoneWhenComplete(c, x, k); }
    }
    if x.s.sched.JoinPublishers? {
      forall k: nat | k < |x.s.publishers| ensures x.s.publishers[k].PGone? { GoneWhenClosed(c, x, k); }
    }
  }

  lemma GoneWhenComplete(c: Limits, x: Waiting, k: nat)
    requires WakeInv(c, x) && Settled(x) && NobodyCanAct(x) && x.s.scheduleComplete && k < |x.s.writers|
    ensures x.s.writers[k].WGone?
  {
    assert !WriterCanAct(x, k) && WritersLookedAfter(x);
  }

  lemma GoneWhenClosed(c: Limits, x: Waiting, k: nat)
    requires WakeInv(c, x) && Settled(x) && NobodyCanAct(x) && x.s.inputComplete && k < |x.s.publishers|
    ensures x.s.publishers[k].PGone?
  {
    assert !PublisherCanAct(x, k) && PublishersLookedAfter(x);
  }

  /** Whatever notifications have been lost, some of the remaining work can be done. */
  lemma WorkGoesOn(c: Limits, x: Waiting) returns (y: Waiting)
    requires ValidLimits(c) && WakeInv(c, x) && !x.s.sched.Joined?
    ensures Leads(c, x, y) && Work(c, y.s) < Work(c, x.s)
  {
    hide WakeInv, Leads, Settled, Work;
    var a := AllFallAsleep(c, x);
    var z := AllCanNotify(c, a);
    y := SettledGoesOn(c, z);
    LeadsOn(c, x, a, z);
    LeadsOn(c, x, z, y);
  }

  lemma SettledGoesOn(c: Limits, x: Waiting) returns (y: Waiting)
    requires ValidLimits(c) && WakeInv(c, x) && Settled(x) && x.tested == {} && !x.s.sched.Joined?
    ensures Leads(c, x, y) && Work(c, y.s) < Work(c, x.s)
  {
    IsAligned(c, x);
    hide WakeInv, Leads, Work;
    if w: nat :| WriterCanAct(x, w) {
      y := ActLeads(c, x, Writer(w, true));
    } else if p: nat :| PublisherCanAct(x, p) {
      y := ActLeads(c, x, Publisher(p, true));
    } else if i: nat :| Outstanding(c, x.s, i) {
      y := ActLeads(c, x, ResultArrives(AnswerTo(c, i)));
    } else {
      y := SchedulerGoesOn(c, x);
    }
  }

  lemma {:induction false} CanFinishAwake(c: Limits, x: Waiting)
    requires ValidLimits(c) && WakeInv(c, x)
    ensures exists y :: Leads(c, x, y) && y.s.sched.Joined?
    decreases Work(c, x.s)
  {
    WorkLeft(c, x);
    hide WakeInv, Leads, Work;
    if x.s.sched.Joined? {
      LeadsNowhere(c, x);
    } else {
      var y := WorkGoesOn(c, x);
      StillInvariant(c, x, y);
      WorkLeft(c, y);
      CanFinishAwake(c, y);
      var z :| Leads(c, y, z) && z.s.sched.Joined?;
      LeadsOn(c, x, y, z);
    }
  }

  lemma WorkLeft(c: Limits, x: Waiting)
    requires WakeInv(c, x)
    ensures Work(c, x.s) >= 0
  {
    WorkIsNonNegative(c, x.s);
  }

  lemma StillInvariant(c: Limits, x: Waiting, y: Waiting)
    requires ValidLimits(c) && WakeInv(c, x) && Leads(c, x, y)
    ensures WakeInv(c, y)
  {
    hide WakeInv;
    var ms :| MovesTo(c, x, ms, y);
    MovesKeepWakeInv(c, x, ms, y);
  }

  /** No lost notification hangs the pipeline: from every state that the threads can reach, with whatever
      sleeping, spurious waking and missing of notifications, the pipeline can still run to its end. */
  lemma LostNotificationsDoNoHarm(c: Limits, x: Waiting)
    requires ValidLimits(c) && Met(c, x)
    ensures exists y :: Leads(c, x, y) && y.s.sched.Joined?
  {
    MetWakeInv(c, x);
    CanFinishAwake(c, x);
  }

  /** Everything proved of the pipeline's reachable states holds here too. */
  lemma MetIsReachable(c: Limits, x: Waiting)
    requires Met(c, x)
    ensures Reachable(c, x.s)
  {
    var ms :| MovesTo(c, AtFirst(c), ms, x);
    MovesProject(c, AtFirst(c), ms, x);
  }

  // ---- and notifications are lost ----

  lemma MetOn(c: Limits, x: Waiting, m: Move)
    requires Met(c, x) && CanMove(x, m)
    ensures Met(c, Moved(c, x, m))
  {
    hide Leads, CanMove, Moved, AtFirst;
    LeadsByOne(c, x, m);
    LeadsOn(c, AtFirst(c), x, Moved(c, x, m));
  }

  /** A writer can sleep through an abort: every notification has been made, none is to come, and only the
      end of the schedule will wake it. */
  lemma NotificationCanBeLost(c: Limits)
    requires ValidLimits(c)
    ensures exists x :: Met(c, x) && x.s.abort && 0 in x.writersAsleep && Settled(x)
  {
    var x0 := AtFirst(c);
    assert Met(c, x0) by { LeadsNowhere(c, x0); }
    hide Met;
    MetOn(c, x0, Acts(Publisher(0, false)));
    var x1 := Moved(c, x0, Acts(Publisher(0, false)));
    assert x1.s.publishers[0] == PStartFailed && x1.publishersOwe == x0.publishersOwe;
    MetOn(c, x1, Tests(TheWriter(0)));
    var x2 := Moved(c, x1, Tests(TheWriter(0)));
    MetOn(c, x2, Acts(Publisher(0, false)));
    var x3 := Moved(c, x2, Acts(Publisher(0, false)));
    assert x3.s.abort && x3.publishersOwe == x0.publishersOwe[0 := AbortAll];
    MetOn(c, x3, Notifies(ThePublisher(0), 0));
    var x4 := Moved(c, x3, Notifies(ThePublisher(0), 0));
    assert x4.s == x3.s && x4.publishersOwe == x0.publishersOwe && x4.writersOwe == x0.writersOwe;
    MetOn(c, x4, Sleeps(TheWriter(0)));
    var x5 := Moved(c, x4, Sleeps(TheWriter(0)));
    assert Settled(x5);
  }

  // ---- exactly these ----

  /** The abort flag stays set. */
  lemma AbortStays(c: Limits, s: State, e: Event)
    requires Enabled(s, e) && s.abort
    ensures Step(c, s, e).abort
  {
    match e
    case Scheduler => { match s.sched case Close => case _ => }
    case Writer(w, _) => { match s.writers[w] case WWait => case _ => }
    case Publisher(p, _) => { match s.publishers[p] case PWait => case _ => }
    case ResultArrives(_) =>
  }

  lemma AwakeStays(c: Limits, x: Waiting, m: Move, t: Thread)
    requires CanMove(x, m) && x.s.abort && !Asleep(x, t) && t !in x.tested
    ensures var y := Moved(c, x, m); y.s.abort && !Asleep(y, t) && t !in y.tested
  {
    OneMoveProjects(c, x, m);
    match m
    case Acts(e) => AbortStays(c, x.s, e);
    case Tests(_) =>
    case Sleeps(_) =>
    case Wakes(_) =>
    case Notifies(u, _) => { match u case TheScheduler => case TheWriter(_) => case ThePublisher(_) => }
  }

  lemma {:induction false} StaysAwake(c: Limits, x: Waiting, ms: seq<Move>, y: Waiting, t: Thread)
    requires MovesTo(c, x, ms, y) && x.s.abort && !Asleep(x, t) && t !in x.tested
    ensures !Asleep(y, t)
    decreases |ms|
  {
    hide CanMove, Moved, Asleep;
    if ms != [] {
      AwakeStays(c, x, ms[0], t);
      StaysAwake(c, Moved(c, x, ms[0]), ms[1..], y, t);
    }
  }

  ghost predicate CanFallAsleep(c: Limits, x: Waiting, t: Thread) { exists y :: Leads(c, x, y) && Asleep(y, t) }

  /** Which notifications of an abort are lost: once the flag is set, a writer or publisher that is awake
      can still fall asleep exactly when it has read the flag as clear and holds its mutex on the way to
      sleep. */
  lemma AbortIsMissedIff(c: Limits, x: Waiting, t: Thread)
    requires x.s.abort && !Asleep(x, t) && !t.TheScheduler?
    ensures CanFallAsleep(c, x, t) <==> t in x.tested
  {
    if t in x.tested {
      LeadsByOne(c, x, Sleeps(t));
      assert Asleep(Moved(c, x, Sleeps(t)), t);
    } else if CanFallAsleep(c, x, t) {
      hide Asleep;
      var y :| Leads(c, x, y) && Asleep(y, t);
      var ms :| MovesTo(c, x, ms, y);
      StaysAwake(c, x, ms, y, t);
    }
  }

  /** So of all threads at most one writer and one publisher miss an abort. */
  lemma FewMissTheAbort(c: Limits, x: Waiting, t: Thread, u: Thread)
    requires Met(c, x) && t in x.tested && u in x.tested && (t.TheWriter? <==> u.TheWriter?)
    ensures t == u
  {
    var ms :| MovesTo(c, AtFirst(c), ms, x);
    OneHolder(c, AtFirst(c), ms, x);
  }

  /** Each mutex has one holder at most, and the scheduler does not keep any. */
  predicate Exclusive(x: Waiting) {
    && TheScheduler !in x.tested
    && (forall t, u :: t in x.tested && u in x.tested && (t.TheWriter? <==> u.TheWriter?) ==> t == u)
  }

  lemma MoveKeepsExclusive(c: Limits, x: Waiting, m: Move)
    requires Exclusive(x) && CanMove(x, m)
    ensures Exclusive(Moved(c, x, m))
  {
    hide Enabled, Free, Step;
    match m
    case Acts(_) =>
    case Tests(_) =>
    case Sleeps(_) =>
    case Wakes(_) =>
    case Notifies(u, _) => { match u case TheScheduler => case TheWriter(_) => case ThePublisher(_) => }
  }

  lemma {:induction false} OneHolder(c: Limits, x: Waiting, ms: seq<Move>, y: Waiting)
    requires Exclusive(x) && MovesTo(c, x, ms, y)
    ensures Exclusive(y)
    decreases |ms|
  {
    hide Exclusive, CanMove, Moved;
    if ms != [] {
      MoveKeepsExclusive(c, x, ms[0]);
      OneHolder(c, Moved(c, x, ms[0]), ms[1..], y);
    }
  }
}
