/** The condition variables of the pipeline.

    A waiting thread reads the abort flag and its queue under the queue's mutex, and keeps the mutex until
    it is asleep; it then sleeps until it is notified.  A thread that has changed something owes a
    notification and makes it after it has released the lock.  `set_pipeline_error` stores the abort flag
    without the waiters' mutexes, that is possibly between the reading and the falling asleep of a waiter,
    which then misses the notification.  The scheduler alone waits with a timeout. */
module PipelineWakeups {
  import opened Prelude
  import opened MessageCodec
  import opened PipelineModel
  import opened PipelineSafety
  import opened PipelineResults
  import opened PipelineProgress

  datatype Debt = Paid | PushOne | CloseAll | ReadyOne | InputAll | AbortAll

  datatype Thread = TheScheduler | TheWriter(w: nat) | ThePublisher(p: nat)

  /** `tested` are the threads that have found their predicate false, with the abort flag clear, and hold
      their mutex until they sleep. */
  datatype Waiting = Waiting(
    s: State, writersAsleep: set<nat>, publishersAsleep: set<nat>, tested: set<Thread>,
    schedulerOwes: Debt, writersOwe: seq<Debt>, publishersOwe: seq<Debt>)

  datatype Move =
    | Acts(e: Event)                       // a critical section of a thread that is awake and owes nothing
    | Tests(t: Thread)                     // takes its mutex and finds the predicate false
    | Sleeps(t: Thread)                    // releases the mutex and sleeps, in one
    | Wakes(t: Thread)                     // spuriously
    | Notifies(t: Thread, woken: nat)      // `woken` matters to notify_one only

  function AtFirst(c: Limits): Waiting {
    Waiting(Initial(c), {}, {}, {}, Paid, seq(c.writers, _ => Paid), seq(c.publishers, _ => Paid))
  }

  predicate Exists(x: Waiting, t: Thread) {
    match t
    case TheScheduler => true
    case TheWriter(w) => w < |x.s.writers| == |x.writersOwe|
    case ThePublisher(p) => p < |x.s.publishers| == |x.publishersOwe|
  }

  function Owes(x: Waiting, t: Thread): Debt
    requires Exists(x, t)
  {
    match t
    case TheScheduler => x.schedulerOwes
    case TheWriter(w) => x.writersOwe[w]
    case ThePublisher(p) => x.publishersOwe[p]
  }

  function Owing(x: Waiting, t: Thread, d: Debt): Waiting
    requires Exists(x, t)
  {
    match t
    case TheScheduler => x.(schedulerOwes := d)
    case TheWriter(w) => x.(writersOwe := x.writersOwe[w := d])
    case ThePublisher(p) => x.(publishersOwe := x.publishersOwe[p := d])
  }

  predicate AllPaid(debts: seq<Debt>) { forall k :: 0 <= k < |debts| ==> debts[k].Paid? }

  // ---- the two mutexes ----

  predicate ScheduledHeld(x: Waiting) { exists t :: t in x.tested && t.TheWriter? }
  predicate ReadyHeld(x: Waiting) { exists t :: t in x.tested && t.ThePublisher? }

  /** The sections under `scheduled_tasks_mutex`. */
  predicate TakesScheduled(s: State, e: Event) {
    match e
    case Scheduler => s.sched.PollScheduled? || s.sched.Push? || s.sched.Close?
    case Writer(w, _) => w < |s.writers| && s.writers[w].WWait?
    case _ => false
  }

  /** The sections under `ready_publish_mutex`. */
  predicate TakesReady(s: State, e: Event) {
    match e
    case Scheduler => s.sched.PollReady?
    case Writer(w, ok) => w < |s.writers| && ((s.writers[w].WWriting? && ok) || s.writers[w].WLast?)
    case Publisher(p, _) => p < |s.publishers| && s.publishers[p].PWait?
    case _ => false
  }

  predicate MutexFree(x: Waiting, e: Event) {
    (TakesScheduled(x.s, e) ==> !ScheduledHeld(x)) && (TakesReady(x.s, e) ==> !ReadyHeld(x))
  }

  /** A join also waits for the notification that the joined threads still have to make. */
  predicate Free(x: Waiting, e: Event) {
    MutexFree(x, e) &&
    match e
    case Scheduler =>
      x.schedulerOwes.Paid? && (x.s.sched.JoinWriters? ==> AllPaid(x.writersOwe)) &&
      (x.s.sched.JoinPublishers? ==> AllPaid(x.publishersOwe))
    case Writer(w, _) => Exists(x, TheWriter(w)) && w !in x.writersAsleep && x.writersOwe[w].Paid?
    case Publisher(p, _) => Exists(x, ThePublisher(p)) && p !in x.publishersAsleep && x.publishersOwe[p].Paid?
    case ResultArrives(_) => true
  }

  predicate Asleep(x: Waiting, t: Thread) {
    match t
    case TheScheduler => false
    case TheWriter(w) => w in x.writersAsleep
    case ThePublisher(p) => p in x.publishersAsleep
  }

  /** The predicate of a wait is false: no abort, nothing queued, no end. */
  predicate MayTest(x: Waiting, t: Thread) {
    Exists(x, t) && Owes(x, t).Paid? && !Asleep(x, t) && !x.s.abort &&
    match t
    case TheScheduler => false
    case TheWriter(w) => !ScheduledHeld(x) && x.s.writers[w].WWait? && x.s.scheduled == [] && !x.s.scheduleComplete
    case ThePublisher(p) => !ReadyHeld(x) && x.s.publishers[p].PWait? && x.s.ready == [] && !x.s.inputComplete
  }

  predicate ChoosesSleeper(asleep: set<nat>, woken: nat) { asleep == {} || woken in asleep }

  predicate MayNotify(x: Waiting, t: Thread, woken: nat) {
    Exists(x, t) && !Owes(x, t).Paid? &&
    (Owes(x, t).PushOne? ==> ChoosesSleeper(x.writersAsleep, woken)) &&
    (Owes(x, t).ReadyOne? ==> ChoosesSleeper(x.publishersAsleep, woken))
  }

  predicate CanMove(x: Waiting, m: Move) {
    match m
    case Acts(e) => Enabled(x.s, e) && Free(x, e)
    case Tests(t) => MayTest(x, t)
    case Sleeps(t) => t in x.tested
    case Wakes(t) => true
    case Notifies(t, woken) => MayNotify(x, t, woken)
  }

  /** What the thread of an event owes afterwards. */
  function DebtOf(s: State, e: Event): Debt
    requires Enabled(s, e)
  {
    match e
    case Scheduler => if s.sched.Push? then PushOne else if s.sched.Close? then CloseAll else Paid
    case Writer(w, ok) =>
      (match s.writers[w]
       case WWriting(_) => if ok then ReadyOne else Paid
       case WFailed(_) => AbortAll
       case WLast(_) => InputAll
       case _ => Paid)
    case Publisher(p, ok) => if s.publishers[p].PFailed? || s.publishers[p].PStartFailed? then AbortAll else Paid
    case ResultArrives(_) => Paid
  }

  function Act(c: Limits, x: Waiting, e: Event): Waiting
    requires Enabled(x.s, e) && Free(x, e)
  {
    var x' := match e
      case Scheduler => Owing(x, TheScheduler, DebtOf(x.s, e))
      case Writer(w, _) => Owing(x, TheWriter(w), DebtOf(x.s, e))
      case Publisher(p, _) => Owing(x, ThePublisher(p), DebtOf(x.s, e))
      case ResultArrives(_) => x;
    x'.(s := Step(c, x.s, e))
  }

  function Sleeping(x: Waiting, t: Thread): Waiting {
    match t
    case TheScheduler => x
    case TheWriter(w) => x.(writersAsleep := x.writersAsleep + {w}, tested := x.tested - {t})
    case ThePublisher(p) => x.(publishersAsleep := x.publishersAsleep + {p}, tested := x.tested - {t})
  }

  function Woken(x: Waiting, t: Thread): Waiting {
    match t
    case TheScheduler => x
    case TheWriter(w) => x.(writersAsleep := x.writersAsleep - {w})
    case ThePublisher(p) => x.(publishersAsleep := x.publishersAsleep - {p})
  }

  function Notified(x: Waiting, d: Debt, woken: nat): Waiting {
    match d
    case Paid => x
    case PushOne => x.(writersAsleep := x.writersAsleep - {woken})
    case CloseAll => x.(writersAsleep := {})
    case ReadyOne => x.(publishersAsleep := x.publishersAsleep - {woken})
    case InputAll => x.(publishersAsleep := {})
    case AbortAll => x.(writersAsleep := {}, publishersAsleep := {})
  }

  function Moved(c: Limits, x: Waiting, m: Move): Waiting
    requires CanMove(x, m)
  {
    match m
    case Acts(e) => Act(c, x, e)
    case Tests(t) => x.(tested := x.tested + {t})
    case Sleeps(t) => Sleeping(x, t)
    case Wakes(t) => Woken(x, t)
    case Notifies(t, woken) => Notified(Owing(x, t, Paid), Owes(x, t), woken)
  }

  predicate MovesTo(c: Limits, x: Waiting, ms: seq<Move>, y: Waiting)
    decreases |ms|
  {
    if ms == [] then x == y else CanMove(x, ms[0]) && MovesTo(c, Moved(c, x, ms[0]), ms[1..], y)
  }

  // ---- nothing new can happen to the pipeline ----

  lemma OneMoveProjects(c: Limits, x: Waiting, m: Move)
    requires CanMove(x, m)
    ensures Moved(c, x, m).s == if m.Acts? then Step(c, x.s, m.e) else x.s
  {
    match m
    case Acts(_) =>
    case Tests(_) =>
    case Sleeps(_) =>
    case Wakes(_) =>
    case Notifies(t, _) => { match t case TheScheduler => case TheWriter(_) => case ThePublisher(_) => }
  }

  /** With sleeping and notifying made explicit the pipeline goes through the same states as before, so
      everything proved of those holds here. */
  lemma {:induction false} MovesProject(c: Limits, x: Waiting, ms: seq<Move>, y: Waiting)
    requires MovesTo(c, x, ms, y)
    ensures exists run :: Runs(c, x.s, run, y.s)
    decreases |ms|
  {
    hide CanMove, Moved;
    if ms == [] {
      assert Runs(c, x.s, [], y.s);
    } else {
      var x' := Moved(c, x, ms[0]);
      OneMoveProjects(c, x, ms[0]);
      MovesProject(c, x', ms[1..], y);
      var run :| Runs(c, x'.s, run, y.s);
      if ms[0].Acts? {
        ActsIsEnabled(x, ms[0]);
        assert ([ms[0].e] + run)[1..] == run;
        assert Runs(c, x.s, [ms[0].e] + run, y.s);
      }
    }
  }

  lemma ActsIsEnabled(x: Waiting, m: Move)
    requires CanMove(x, m) && m.Acts?
    ensures Enabled(x.s, m.e)
  {
  }

  // ---- every sleeper is looked after ----

  predicate Willing(pc: WriterPc) { pc.WWait? || pc.WWriting? }
  predicate Serving(pc: PublisherPc) { !pc.PGone? && !pc.PFailed? && !pc.PStartFailed? }

  predicate WriterAwake(x: Waiting) {
    exists w :: 0 <= w < |x.s.writers| && w !in x.writersAsleep && Willing(x.s.writers[w])
  }

  predicate PublisherAwake(x: Waiting) {
    exists p :: 0 <= p < |x.s.publishers| && p !in x.publishersAsleep && Serving(x.s.publishers[p])
  }

  predicate SomeWriterOwes(x: Waiting, d: Debt) { exists w :: 0 <= w < |x.writersOwe| && x.writersOwe[w] == d }

  predicate Aligned(x: Waiting) { |x.writersOwe| == |x.s.writers| && |x.publishersOwe| == |x.s.publishers| }

  predicate SleepersWait(x: Waiting) {
    && (forall w :: w in x.writersAsleep ==> w < |x.s.writers| && x.s.writers[w].WWait?)
    && (forall p :: p in x.publishersAsleep ==> p < |x.s.publishers| && x.s.publishers[p].PWait?)
  }

  /** While a thread holds its mutex, what it has found stays so. */
  predicate TestedWait(x: Waiting) {
    forall t :: t in x.tested ==>
      match t
      case TheScheduler => false
      case TheWriter(w) => w < |x.s.writers| && x.s.writers[w].WWait? && x.s.scheduled == [] && !x.s.scheduleComplete
      case ThePublisher(p) => p < |x.s.publishers| && x.s.publishers[p].PWait? && x.s.ready == [] && !x.s.inputComplete
  }

  /** A sleeping writer will be told of the end of the schedule, and work does not wait for sleepers only. */
  predicate WritersLookedAfter(x: Waiting) {
    x.writersAsleep != {} ==>
      && (x.s.scheduleComplete ==> x.schedulerOwes.CloseAll?)
      && (x.s.scheduled != [] ==> x.schedulerOwes.PushOne? || WriterAwake(x) || x.s.error)
  }

  predicate PublishersLookedAfter(x: Waiting) {
    x.publishersAsleep != {} ==>
      && (x.s.inputComplete ==> SomeWriterOwes(x, InputAll))
      && (x.s.ready != [] ==> SomeWriterOwes(x, ReadyOne) || PublisherAwake(x) || x.s.error)
  }

  ghost predicate WakeInv(c: Limits, x: Waiting) {
    Inv(c, x.s) && Aligned(x) && SleepersWait(x) && TestedWait(x) && WritersLookedAfter(x) && PublishersLookedAfter(x)
  }

  lemma ActKeepsAligned(c: Limits, x: Waiting, e: Event)
    requires Enabled(x.s, e) && Free(x, e) && Aligned(x) && SleepersWait(x)
    ensures Aligned(Act(c, x, e)) && SleepersWait(Act(c, x, e))
  {
    match e
    case Scheduler => SchedulerMoves(c, x.s);
    case Writer(w, ok) => WriterStepMoves(x.s, w, ok);
    case Publisher(p, ok) => PublisherStepMoves(x.s, p, ok);
    case ResultArrives(_) =>
  }

  lemma ActKeepsTested(c: Limits, x: Waiting, e: Event)
    requires Enabled(x.s, e) && Free(x, e) && TestedWait(x)
    ensures TestedWait(Act(c, x, e))
  {
    var x' := Act(c, x, e);
    assert x'.tested == x.tested && x'.s == Step(c, x.s, e);
    forall t | t in x.tested
      ensures !t.TheScheduler?
      ensures t.TheWriter? ==> t.w < |x'.s.writers| && x'.s.writers[t.w].WWait? && x'.s.scheduled == [] && !x'.s.scheduleComplete
      ensures t.ThePublisher? ==> t.p < |x'.s.publishers| && x'.s.publishers[t.p].PWait? && x'.s.ready == [] && !x'.s.inputComplete
    {
      hide Act;
      TestedThreadStays(c, x, e, t);
    }
  }

  lemma TestedThreadStays(c: Limits, x: Waiting, e: Event, t: Thread)
    requires Enabled(x.s, e) && MutexFree(x, e) && TestedWait(x) && t in x.tested
    ensures var s' := Step(c, x.s, e);
            && !t.TheScheduler?
            && (t.TheWriter? ==> t.w < |s'.writers| && s'.writers[t.w].WWait? && s'.scheduled == [] && !s'.scheduleComplete)
            && (t.ThePublisher? ==> t.p < |s'.publishers| && s'.publishers[t.p].PWait? && s'.ready == [] && !s'.inputComplete)
  {
    match e
    case Scheduler => SchedulerChanges(c, x.s);
    case Writer(w, _) => { match x.s.writers[w] case WWait => case WWriting(_) => case WFailed(_) => case WLeaving(_) => case WLast(_) => }
    case Publisher(p, _) =>
      { match x.s.publishers[p]
        case PStarting =>
        case PStartFailed =>
        case PWait =>
        case PSending(_) =>
        case PSent(_) =>
        case PFailed(_) => }
    case ResultArrives(_) =>
  }

  lemma SchedulerLooksAfter(c: Limits, x: Waiting)
    requires SchedulerEnabled(x.s) && Free(x, Scheduler) && WritersLookedAfter(x) && PublishersLookedAfter(x)
    ensures WritersLookedAfter(Act(c, x, Scheduler)) && PublishersLookedAfter(Act(c, x, Scheduler))
  {
    hide SchedulerStep, MutexFree;
    SchedulerChanges(c, x.s);
    var x' := Act(c, x, Scheduler);
    assert WriterAwake(x') == WriterAwake(x) && PublisherAwake(x') == PublisherAwake(x);
  }

  lemma SchedulerChanges(c: Limits, s: State)
    requires SchedulerEnabled(s)
    ensures var s' := SchedulerStep(c, s);
            && s'.writers == s.writers && s'.publishers == s.publishers && s'.ready == s.ready
            && s'.inputComplete == s.inputComplete && s'.error == s.error
            && s'.scheduleComplete == (s.scheduleComplete || s.sched.Close?)
            && (!s.sched.Push? ==> s'.scheduled == s.scheduled)
  {
    match s.sched
    case Push =>
    case Close =>
    case _ =>
  }

  /** While tasks are scheduled a writer goes on, unless there is an error. */
  lemma WriterStaysWilling(s: State, w: nat, ok: bool)
    requires WriterEnabled(s, w) && (s.abort ==> s.error)
    ensures var s' := WriterStep(s, w, ok);
            && s'.writers == s.writers[w := s'.writers[w]]
            && s'.scheduleComplete == s.scheduleComplete && (s.scheduled == [] ==> s'.scheduled == []) && (s.error ==> s'.error)
            && (s'.scheduled != [] && !s'.error && Willing(s.writers[w]) ==> Willing(s'.writers[w]))
  {
    match s.writers[w]
    case WWait =>
    case WWriting(_) =>
    case WFailed(_) =>
    case WLeaving(_) =>
    case WLast(_) =>
  }

  /** While tasks are ready a publisher goes on, unless there is an error. */
  lemma PublisherStaysServing(s: State, p: nat, ok: bool)
    requires PublisherEnabled(s, p) && (s.abort ==> s.error)
    ensures var s' := PublisherStep(s, p, ok);
            && s'.publishers == s.publishers[p := s'.publishers[p]]
            && (s.ready == [] ==> s'.ready == []) && (s.error ==> s'.error)
            && (s'.ready != [] && !s'.error && Serving(s.publishers[p]) ==> Serving(s'.publishers[p]))
  {
    match s.publishers[p]
    case PStarting =>
    case PStartFailed =>
    case PWait =>
    case PSending(_) =>
    case PSent(_) =>
    case PFailed(_) =>
  }

  lemma WriterKeepsWriters(c: Limits, x: Waiting, w: nat, ok: bool)
    requires Enabled(x.s, Writer(w, ok)) && Free(x, Writer(w, ok)) && SleepersWait(x) && WritersLookedAfter(x)
    requires x.s.abort ==> x.s.error
    ensures WritersLookedAfter(Act(c, x, Writer(w, ok)))
  {
    hide WriterStep, MutexFree;
    var x' := Act(c, x, Writer(w, ok));
    WriterStaysWilling(x.s, w, ok);
    if x'.writersAsleep != {} && x'.s.scheduled != [] && !x'.schedulerOwes.PushOne? && !x'.s.error {
      var k :| 0 <= k < |x.s.writers| && k !in x.writersAsleep && Willing(x.s.writers[k]);
      assert Willing(x'.s.writers[k]);
    }
  }

  lemma WriterKeepsPublishers(c: Limits, x: Waiting, w: nat, ok: bool)
    requires Enabled(x.s, Writer(w, ok)) && Free(x, Writer(w, ok)) && Aligned(x) && PublishersLookedAfter(x)
    ensures PublishersLookedAfter(Act(c, x, Writer(w, ok)))
  {
    var x' := Act(c, x, Writer(w, ok));
    var d := DebtOf(x.s, Writer(w, ok));
    assert x'.writersOwe == x.writersOwe[w := d];
    assert SomeWriterOwes(x', d) by { assert x'.writersOwe[w] == d; }
    forall owed | SomeWriterOwes(x, owed) && !owed.Paid? ensures SomeWriterOwes(x', owed) {
      var k :| 0 <= k < |x.writersOwe| && x.writersOwe[k] == owed;
      assert x'.writersOwe[k] == owed;
    }
    assert PublisherAwake(x') == PublisherAwake(x);
    hide SomeWriterOwes, PublisherAwake;
    match x.s.writers[w]
    case WWait =>
    case WWriting(_) =>
    case WFailed(_) =>
    case WLeaving(_) =>
    case WLast(_) =>
  }

  lemma PublisherKeepsPublishers(c: Limits, x: Waiting, p: nat, ok: bool)
    requires Enabled(x.s, Publisher(p, ok)) && Free(x, Publisher(p, ok)) && SleepersWait(x) && PublishersLookedAfter(x)
    requires x.s.abort ==> x.s.error
    ensures PublishersLookedAfter(Act(c, x, Publisher(p, ok)))
  {
    hide PublisherStep, MutexFree;
    var x' := Act(c, x, Publisher(p, ok));
    PublisherStaysServing(x.s, p, ok);
    PublisherKeepsCounters(x.s, p, ok);
    if x'.publishersAsleep != {} && x'.s.ready != [] && !SomeWriterOwes(x, ReadyOne) && !x'.s.error {
      var k :| 0 <= k < |x.s.publishers| && k !in x.publishersAsleep && Serving(x.s.publishers[k]);
      assert Serving(x'.s.publishers[k]);
    }
  }

  lemma PublisherKeepsWriters(c: Limits, x: Waiting, p: nat, ok: bool)
    requires Enabled(x.s, Publisher(p, ok)) && Free(x, Publisher(p, ok)) && WritersLookedAfter(x)
    requires x.s.abort ==> x.s.error
    ensures WritersLookedAfter(Act(c, x, Publisher(p, ok)))
  {
    hide PublisherStep, MutexFree;
    PublisherStaysServing(x.s, p, ok);
    PublisherKeepsCounters(x.s, p, ok);
    var x' := Act(c, x, Publisher(p, ok));
    assert WriterAwake(x') == WriterAwake(x);
  }

  lemma ActKeepsWakeInv(c: Limits, x: Waiting, e: Event)
    requires ValidLimits(c) && WakeInv(c, x) && Enabled(x.s, e) && Free(x, e)
    ensures WakeInv(c, Act(c, x, e))
  {
    ActKeepsAligned(c, x, e);
    ActKeepsTested(c, x, e);
    InvStep(c, x.s, e);
    AbortIsError(c, x.s);
    hide Inv, WritersLookedAfter, PublishersLookedAfter, SleepersWait, TestedWait, MutexFree;
    match e
    case Scheduler => SchedulerLooksAfter(c, x);
    case Writer(w, ok) => WriterKeepsWriters(c, x, w, ok); WriterKeepsPublishers(c, x, w, ok);
    case Publisher(p, ok) => PublisherKeepsPublishers(c, x, p, ok); PublisherKeepsWriters(c, x, p, ok);
    case ResultArrives(m) => ResultLooksAfter(c, x, m);
  }

  lemma ResultLooksAfter(c: Limits, x: Waiting, m: ResultMessage)
    requires Enabled(x.s, ResultArrives(m)) && WritersLookedAfter(x) && PublishersLookedAfter(x)
    ensures var x' := Act(c, x, ResultArrives(m)); WritersLookedAfter(x') && PublishersLookedAfter(x')
  {
  }

  lemma AbortIsError(c: Limits, s: State)
    requires Inv(c, s)
    ensures s.abort ==> s.error
  {
  }

  lemma SleepKeepsWakeInv(c: Limits, x: Waiting, t: Thread)
    requires WakeInv(c, x) && t in x.tested
    ensures WakeInv(c, Sleeping(x, t))
  {
    hide Inv;
  }

  lemma TestKeepsWakeInv(c: Limits, x: Waiting, t: Thread)
    requires WakeInv(c, x) && MayTest(x, t)
    ensures WakeInv(c, x.(tested := x.tested + {t}))
  {
    hide Inv;
    var y := x.(tested := x.tested + {t});
    assert WriterAwake(y) == WriterAwake(x) && PublisherAwake(y) == PublisherAwake(x);
  }

  lemma FewerAsleep(c: Limits, x: Waiting, writers: set<nat>, publishers: set<nat>)
    requires WakeInv(c, x) && writers <= x.writersAsleep && publishers <= x.publishersAsleep
    ensures WakeInv(c, x.(writersAsleep := writers, publishersAsleep := publishers))
  {
    hide Inv;
    var y := x.(writersAsleep := writers, publishersAsleep := publishers);
    if WriterAwake(x) {
      var w :| 0 <= w < |x.s.writers| && w !in x.writersAsleep && Willing(x.s.writers[w]);
      assert w !in y.writersAsleep;
    }
    if PublisherAwake(x) {
      var p :| 0 <= p < |x.s.publishers| && p !in x.publishersAsleep && Serving(x.s.publishers[p]);
      assert p !in y.publishersAsleep;
    }
  }

  /** A debt can be dropped once nobody needs it. */
  lemma PayingKeepsWakeInv(c: Limits, x: Waiting, t: Thread)
    requires WakeInv(c, x) && Exists(x, t)
    requires Owes(x, t).CloseAll? || Owes(x, t).AbortAll? ==> x.writersAsleep == {}
    requires Owes(x, t).PushOne? ==> x.writersAsleep == {} || WriterAwake(x)
    requires Owes(x, t).InputAll? || Owes(x, t).AbortAll? ==> x.publishersAsleep == {}
    requires Owes(x, t).ReadyOne? ==> x.publishersAsleep == {} || PublisherAwake(x)
    ensures WakeInv(c, Owing(x, t, Paid))
  {
    hide Inv;
    var y := Owing(x, t, Paid);
    assert WriterAwake(y) <==> WriterAwake(x);
    assert PublisherAwake(y) <==> PublisherAwake(x);
    forall d | SomeWriterOwes(x, d) && d != Owes(x, t) ensures SomeWriterOwes(y, d) {
      var w :| 0 <= w < |x.writersOwe| && x.writersOwe[w] == d;
      assert y.writersOwe[w] == d;
    }
  }

  lemma NotifyKeepsWakeInv(c: Limits, x: Waiting, t: Thread, woken: nat)
    requires WakeInv(c, x) && MayNotify(x, t, woken)
    ensures WakeInv(c, Notified(Owing(x, t, Paid), Owes(x, t), woken))
  {
    var d := Owes(x, t);
    var y := Notified(x, d, woken);
    assert WakeInv(c, y) by { FewerAsleep(c, x, y.writersAsleep, y.publishersAsleep); }
    assert d.PushOne? && x.writersAsleep != {} ==> WriterAwake(y) by {
      if d.PushOne? && x.writersAsleep != {} { assert woken !in y.writersAsleep && Willing(y.s.writers[woken]); }
    }
    assert d.ReadyOne? && x.publishersAsleep != {} ==> PublisherAwake(y) by {
      if d.ReadyOne? && x.publishersAsleep != {} { assert woken !in y.publishersAsleep && Serving(y.s.publishers[woken]); }
    }
    hide Inv, WritersLookedAfter, PublishersLookedAfter, SleepersWait, WriterAwake, PublisherAwake;
    PayingKeepsWakeInv(c, y, t);
    assert Owing(y, t, Paid) == Notified(Owing(x, t, Paid), d, woken) by { PayFirstOrLast(x, t, d, woken); }
  }

  lemma PayFirstOrLast(x: Waiting, t: Thread, d: Debt, woken: nat)
    requires Exists(x, t)
    ensures Owing(Notified(x, d, woken), t, Paid) == Notified(Owing(x, t, Paid), d, woken)
  {
  }

  lemma MoveKeepsWakeInv(c: Limits, x: Waiting, m: Move)
    requires ValidLimits(c) && WakeInv(c, x) && CanMove(x, m)
    ensures WakeInv(c, Moved(c, x, m))
  {
    hide WakeInv, Act, Notified, MayTest;
    match m
    case Acts(e) => ActKeepsWakeInv(c, x, e);
    case Tests(t) => TestKeepsWakeInv(c, x, t);
    case Sleeps(t) => SleepKeepsWakeInv(c, x, t);
    case Wakes(t) => WakesKeepsWakeInv(c, x, t);
    case Notifies(t, woken) => NotifyKeepsWakeInv(c, x, t, woken);
  }

  lemma WakesKeepsWakeInv(c: Limits, x: Waiting, t: Thread)
    requires WakeInv(c, x)
    ensures WakeInv(c, Woken(x, t))
  {
    FewerAsleep(c, x, Woken(x, t).writersAsleep, Woken(x, t).publishersAsleep);
  }

  lemma {:induction false} MovesKeepWakeInv(c: Limits, x: Waiting, ms: seq<Move>, y: Waiting)
    requires ValidLimits(c) && WakeInv(c, x) && MovesTo(c, x, ms, y)
    ensures WakeInv(c, y)
    decreases |ms|
  {
    hide WakeInv, CanMove, Moved;
    if ms != [] {
      MoveKeepsWakeInv(c, x, ms[0]);
      MovesKeepWakeInv(c, Moved(c, x, ms[0]), ms[1..], y);
    }
  }
}
