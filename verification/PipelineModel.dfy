/** The master's bounded pipeline: one scheduler, writers, publishers and a result consumer.

    A step is one critical section or one atomic access of one thread.  A critical section reads
    `abort_pipeline` at most once with effect, and everything else it touches is protected by the
    mutex it holds, so it may be taken as one step at the moment of that read.  The scheduler takes
    the four sizes under four different locks: each of these reads is a step of its own. */
module PipelineModel {
  import opened Prelude
  import opened MessageCodec

  /** The name of the run and its command-line limits; all but `tasks` pass through `std::max(1, ...)`. */
  datatype Limits = Limits(
    scenario: string, tasks: nat, maxScheduled: nat, maxReady: nat, maxInflight: nat, writers: nat, publishers: nat)

  predicate ValidLimits(c: Limits) {
    1 <= c.maxScheduled && 1 <= c.maxReady && 1 <= c.maxInflight && 1 <= c.writers && 1 <= c.publishers
  }

  datatype SchedulerPc =
    | ForHead
    | WhileHead
    | PollScheduled
    | PollReady(scheduled: nat)
    | PollCompleted(scheduled: nat, ready: nat)
    | PollPublished(scheduled: nat, ready: nat, completed: nat)
    | Gate
    | Push
    | Close
    | JoinWriters
    | JoinPublishers
    | Joined

  /** `lost` is the task a thread took down with it when it failed. */
  datatype WriterPc =
    | WWait
    | WWriting(task: nat)
    | WFailed(task: nat)
    | WLeaving(lost: Option<nat>)
    | WLast(lost: Option<nat>)
    | WGone(lost: Option<nat>)

  datatype PublisherPc =
    | PStarting
    | PStartFailed
    | PWait
    | PSending(task: nat)
    | PSent(task: nat)
    | PFailed(task: nat)
    | PGone(lost: Option<nat>)

  datatype State = State(
    sched: SchedulerPc,
    next: nat,                // the scheduler's loop index: tasks below it have been admitted
    scheduled: seq<nat>,
    ready: seq<nat>,
    writers: seq<WriterPc>,
    publishers: seq<PublisherPc>,
    scheduleComplete: bool,
    inputComplete: bool,
    abort: bool,
    error: bool,              // pipeline_error is not empty
    activeWriters: int,
    publishedCount: nat,
    published: seq<nat>,      // the tasks the broker has accepted, in order
    received: map<string, ResultMessage>)  // the result map, by task identifier

  datatype Event =
    | Scheduler
    | Writer(w: nat, writeOk: bool)
    | Publisher(p: nat, callOk: bool)
    | ResultArrives(result: ResultMessage)

  function Initial(c: Limits): State {
    State(ForHead, 0, [], [], seq(c.writers, _ => WWait), seq(c.publishers, _ => PStarting),
          false, false, false, false, c.writers, 0, [], map[])
  }

  // ---- the scheduler: the for loop of main and the joins after it ----

  predicate SchedulerEnabled(s: State) {
    match s.sched
    case JoinWriters => forall k :: 0 <= k < |s.writers| ==> s.writers[k].WGone?
    case JoinPublishers => forall k :: 0 <= k < |s.publishers| ==> s.publishers[k].PGone?
    case Joined => false
    case _ => true
  }

  predicate HasRoom(c: Limits, scheduled: nat, ready: nat, completed: nat, published: nat) {
    var inflight := if published > completed then published - completed else 0;
    scheduled < c.maxScheduled && ready < c.maxReady && inflight < c.maxInflight
  }

  function SchedulerStep(c: Limits, s: State): State {
    match s.sched
    case ForHead => s.(sched := if s.next < c.tasks && !s.abort then WhileHead else Close)
    case WhileHead => s.(sched := if s.abort then Close else PollScheduled)
    case PollScheduled => s.(sched := PollReady(|s.scheduled|))
    case PollReady(n) => s.(sched := PollCompleted(n, |s.ready|))
    case PollCompleted(n, r) => s.(sched := PollPublished(n, r, |s.received|))
    case PollPublished(n, r, d) => s.(sched := if HasRoom(c, n, r, d, s.publishedCount) then Gate else WhileHead)
    case Gate => s.(sched := if s.abort then Close else Push)
    case Push => s.(sched := ForHead, scheduled := s.scheduled + [s.next], next := s.next + 1)
    case Close => s.(sched := JoinWriters, scheduleComplete := true)
    case JoinWriters => s.(sched := JoinPublishers)
    case JoinPublishers => s.(sched := Joined)
    case Joined => s
  }

  /** The steps of the size-reading loop, which ends in a 5 ms wait when there is no room. */
  predicate IsPolling(pc: SchedulerPc) {
    pc.WhileHead? || pc.PollScheduled? || pc.PollReady? || pc.PollCompleted? || pc.PollPublished?
  }

  // ---- a writer thread ----

  predicate WriterEnabled(s: State, w: nat) {
    w < |s.writers| && !s.writers[w].WGone? &&
    (s.writers[w].WWait? ==> s.abort || s.scheduled != [] || s.scheduleComplete)
  }

  function WriterStep(s: State, w: nat, writeOk: bool): State
    requires WriterEnabled(s, w)
  {
    match s.writers[w]
    case WWait =>
      if s.abort || s.scheduled == [] then s.(writers := s.writers[w := WLeaving(None)])
      else s.(writers := s.writers[w := WWriting(s.scheduled[0])], scheduled := s.scheduled[1..])
    case WWriting(i) =>
      if writeOk then s.(writers := s.writers[w := WWait], ready := s.ready + [i])
      else s.(writers := s.writers[w := WFailed(i)], error := true)
    case WFailed(i) => s.(writers := s.writers[w := WLeaving(Some(i))], abort := true)
    case WLeaving(lost) =>
      s.(writers := s.writers[w := if s.activeWriters == 1 then WLast(lost) else WGone(lost)],
         activeWriters := s.activeWriters - 1)
    case WLast(lost) => s.(writers := s.writers[w := WGone(lost)], inputComplete := true)
    case WGone(_) => s
  }

  // ---- a publisher thread ----

  predicate PublisherEnabled(s: State, p: nat) {
    p < |s.publishers| && !s.publishers[p].PGone? &&
    (s.publishers[p].PWait? ==> s.abort || s.ready != [] || s.inputComplete)
  }

  function PublisherStep(s: State, p: nat, callOk: bool): State
    requires PublisherEnabled(s, p)
  {
    match s.publishers[p]
    case PStarting =>
      if callOk then s.(publishers := s.publishers[p := PWait])
      else s.(publishers := s.publishers[p := PStartFailed], error := true)
    case PStartFailed => s.(publishers := s.publishers[p := PGone(None)], abort := true)
    case PWait =>
      if s.ready == [] then s.(publishers := s.publishers[p := PGone(None)])
      else s.(publishers := s.publishers[p := PSending(s.ready[0])], ready := s.ready[1..])
    case PSending(i) =>
      if callOk then s.(publishers := s.publishers[p := PSent(i)], published := s.published + [i])
      else s.(publishers := s.publishers[p := PFailed(i)], error := true)
    case PSent(_) => s.(publishers := s.publishers[p := PWait], publishedCount := s.publishedCount + 1)
    case PFailed(i) => s.(publishers := s.publishers[p := PGone(Some(i))], abort := true)
    case PGone(_) => s
  }

  // ---- all threads together ----

  /** The first result under an identifier is kept, whichever identifier it is. */
  function WithResult(s: State, m: ResultMessage): State {
    if m.taskId in s.received then s else s.(received := s.received[m.taskId := m])
  }

  /** A result may arrive at any time, also one that answers no task of this run. */
  predicate Enabled(s: State, e: Event) {
    match e
    case Scheduler => SchedulerEnabled(s)
    case Writer(w, _) => WriterEnabled(s, w)
    case Publisher(p, _) => PublisherEnabled(s, p)
    case ResultArrives(_) => true
  }

  function Step(c: Limits, s: State, e: Event): State
    requires Enabled(s, e)
  {
    match e
    case Scheduler => SchedulerStep(c, s)
    case Writer(w, ok) => WriterStep(s, w, ok)
    case Publisher(p, ok) => PublisherStep(s, p, ok)
    case ResultArrives(m) => WithResult(s, m)
  }

  /** `run` is an interleaving of thread steps that leads from `from` to `to`. */
  predicate Runs(c: Limits, from: State, run: seq<Event>, to: State)
    decreases |run|
  {
    if run == [] then from == to
    else Enabled(from, run[0]) && Runs(c, Step(c, from, run[0]), run[1..], to)
  }

  lemma {:induction false} RunsCompose(c: Limits, a: State, r: seq<Event>, b: State, r': seq<Event>, d: State)
    requires Runs(c, a, r, b) && Runs(c, b, r', d)
    ensures Runs(c, a, r + r', d)
    decreases |r|
  {
    if r == [] {
      assert r + r' == r';
    } else {
      RunsCompose(c, Step(c, a, r[0]), r[1..], b, r', d);
      assert (r + r')[0] == r[0] && (r + r')[1..] == r[1..] + r';
    }
  }
}
