/** The whole driver: callers, the command queue, the driver thread, the connection, and the worker
    tasks that settle deliveries.

    A step is one critical section of a caller, or one call the driver thread makes.  The broker, the
    socket, the clock, the handlers and the schedule are the environment: every event that the code
    leaves open is an event here, in any order. */
module DriverModel {
  import opened Prelude
  import opened Backoff
  import opened BusConfig
  import opened DriverLink

  datatype Settings = Settings(enabled: bool, initialDelay: int, maxDelay: int)

  datatype ConsumeAction = Ack | Requeue | Reject

  /** `DeliveryContext`; `id` and `epoch` only observe which delivery it is and when it arrived. */
  datatype Delivery = Delivery(id: nat, consumer: string, tag: nat, autoAck: bool, epoch: nat)

  /** How it was decided what to do with a delivery. */
  datatype Verdict = Handled(result: ConsumeAction) | Threw | NoHandler | NotSubmitted

  function ActionFor(v: Verdict): ConsumeAction {
    if v.Handled? then v.result else Requeue
  }

  type Octets = seq<bv8>

  /** What a caller asks to be published; a property that is empty is not set in the envelope. */
  datatype PublishRequest = PublishRequest(
    exchange: string, routingKey: string, payload: Octets, contentType: string, correlationId: string, replyTo: string,
    headers: Arguments, persistent: bool)

  datatype Command =
    | Publish(request: PublishRequest)
    | DeclareOne(decl: Decl)
    | Settle(delivery: Delivery, verdict: Verdict, action: ConsumeAction)

  datatype Entry = Entry(ticket: nat, command: Command)

  /** `commands` is the shared deque, `local` the batch a drain has swapped out; `accepted`, `executed`
      and `completions`, the tickets for which `CompletePendingResult` was called, record history;
      `answers` holds the promises that have been set. */
  datatype Queue = Queue(
    accepted: seq<Entry>, executed: seq<Entry>, local: seq<Entry>, commands: seq<Entry>, completions: seq<nat>,
    answers: map<nat, Status>)

  datatype Clock = Clock(now: int, nextAt: int, delay: int, failures: nat, lastFailure: int, attempts: nat)

  datatype Task = Task(delivery: Delivery, hasHandler: bool)

  datatype Settlement = Settlement(ticket: nat, epoch: nat, delivery: Delivery, verdict: Verdict, action: ConsumeAction)

  /** A message handed to the admin channel of the connection `epoch`. */
  datatype Publication = Publication(ticket: nat, epoch: nat, request: PublishRequest)

  datatype Work = Work(
    deliveries: seq<Delivery>, tasks: seq<Task>, settled: seq<Settlement>, published: seq<Publication>)

  datatype ThreadPc =
    | NoThread               // thread_ is not joinable
    | Head                   // about to test stop_requested_
    | Swap                   // about to swap the deque out
    | Drain                  // running the local batch
    | Turn                   // after the drain
    | Pump                   // connected: callbacks may fire
    | Failing(last: bool)    // inside HandleDisconnect, before the connection is dropped
    | SelfWait(ticket: nat)  // the driver thread waits for a command only it could run
    | Exited

  datatype Driver = Driver(
    pc: ThreadPc, stopRequested: bool, link: Link, queue: Queue, clock: Clock, work: Work)

  datatype PoolAnswer = Submitted | Refused

  datatype Outcome = Returned(action: ConsumeAction) | Raised

  datatype Event =
    | Start(socketOk: bool)
    | StopRequest
    | Join
    | Tick(ms: nat)
    | Call(command: Command)
    | TaskRuns(k: nat, outcome: Outcome)
    | LoopTest
    | SwapQueue
    | Execute(channelOk: bool)
    | DrainDone
    | SkipAttempt
    | Attempt(ok: bool)
    | BeginPump
    | Handshake
    | OpSucceeds(id: nat)
    | OpFails(id: nat)
    | Trouble
    | Deliver(consumer: string, tag: nat, hasHandler: bool, pool: PoolAnswer)
    | EndPump
    | DropNow

  function Initial(c: Settings, config: Config): Driver {
    Driver(NoThread, false,
           Link(config.exchanges, config.queues, config.bindings, config.consumers, Created, false, false, false, false,
                map[], map[], 0, 0, {}, map[]),
           Queue([], [], [], [], [], map[]), Clock(0, 0, c.initialDelay, 0, 0, 0), Work([], [], [], []))
  }

  /** The argument checks that the public calls make before they enqueue anything. */
  predicate PassesChecks(command: Command) {
    match command
    case Publish(request) => request.exchange != ""
    case DeclareOne(X(x)) => x.name != ""
    case DeclareOne(Q(q)) => q.name != ""
    case DeclareOne(B(b)) => b.exchange != "" && b.queue != ""
    case Settle(_, _, _) => false
  }

  /** `CompleteDelivery` has nothing to do for these. */
  predicate NeedsNoSettling(x: Delivery) { x.consumer == "" || x.autoAck }

  // ---- the command queue ----

  predicate Running(d: Driver) { !d.pc.NoThread? && !d.stopRequested }

  function Accept(q: Queue, command: Command): Queue {
    var e := Entry(|q.accepted|, command);
    q.(accepted := q.accepted + [e], commands := q.commands + [e])
  }

  /** `EnqueueCommand`: refused once the driver is not running. */
  function EnqueueCommand(d: Driver, command: Command): Driver {
    if Running(d) then d.(queue := Accept(d.queue, command)) else d
  }

  /** `CompletePendingResult`: a promise that has been set is left alone. */
  function Complete(q: Queue, ticket: nat, answer: Status): Queue {
    q.(completions := q.completions + [ticket],
       answers := if ticket in q.answers then q.answers else q.answers[ticket := answer])
  }

  function Popped(q: Queue): Queue
    requires q.local != []
  {
    q.(executed := q.executed + [q.local[0]], local := q.local[1..])
  }

  function LocalAnswer(ok: bool): Status { if ok then Success else Failure(OperationFailed) }

  /** One command of the local batch.  `channelOk` is the library's answer to a publish, ack or reject. */
  function ExecuteOne(d: Driver, channelOk: bool): Driver
    requires d.queue.local != []
  {
    var e := d.queue.local[0];
    var q := Popped(d.queue);
    match e.command
    case Publish(request) =>
      if !d.link.ready then d.(queue := Complete(q, e.ticket, Failure(Disconnected)))
      else if !channelOk then d.(queue := Complete(q, e.ticket, LocalAnswer(false)))
      else
        d.(queue := Complete(q, e.ticket, LocalAnswer(true)),
           work := d.work.(published := d.work.published + [Publication(e.ticket, d.link.epoch, request)]))
    case DeclareOne(decl) =>
      if !d.link.ready then d.(queue := Complete(q, e.ticket, Failure(Disconnected)))
      else d.(queue := q, link := Submit(d.link, Declare(decl, e.ticket)))
    case Settle(x, v, a) =>
      if x.consumer !in d.link.runtimes then d.(queue := Complete(q, e.ticket, Failure(Disconnected)))
      else if !channelOk then d.(queue := Complete(q, e.ticket, LocalAnswer(false)))
      else
        d.(queue := Complete(q, e.ticket, LocalAnswer(true)),
           work := d.work.(settled := d.work.settled + [Settlement(e.ticket, d.link.epoch, x, v, a)]))
  }

  // ---- connecting and backing off ----

  function AfterFailure(c: Settings): ConnectionState { if c.enabled then Reconnecting else Error }

  function BackOff(c: Settings, k: Clock): Clock {
    k.(nextAt := k.now + k.delay, delay := NextDelay(k.delay, c.maxDelay), failures := k.failures + 1, lastFailure := k.now)
  }

  predicate ShouldAttempt(c: Settings, d: Driver) {
    if c.enabled then d.clock.now >= d.clock.nextAt else !d.stopRequested && d.link.state.Connecting?
  }

  function AttemptConnect(c: Settings, d: Driver, ok: bool): Driver {
    var k := d.clock.(attempts := d.clock.attempts + 1);
    if ok then d.(pc := Head, link := SocketOpen(d.link), clock := k.(delay := c.initialDelay, failures := 0))
    else d.(pc := Head, link := d.link.(state := AfterFailure(c)), clock := BackOff(c, k))
  }

  /** `HandleDisconnect` after the library has been told. */
  function DropConnection(c: Settings, d: Driver, last: bool): Driver {
    var pc := if last then Exited else Head;
    if d.stopRequested then d.(pc := pc, link := Drop(d.link, Stopped))
    else d.(pc := pc, link := Drop(d.link, AfterFailure(c)), clock := BackOff(c, d.clock))
  }

  // ---- callbacks ----

  function OpOutcome(d: Driver, id: nat, ok: bool): Driver
    requires id in d.link.ops && (d.link.ops[id].Qos? ==> d.link.ops[id].index < |d.link.consumers|)
  {
    var op := d.link.ops[id];
    var d' := d.(link := if ok then OnSuccess(d.link, id) else OnError(d.link, id));
    if op.Declare? then d'.(queue := Complete(d.queue, op.ticket, LocalAnswer(ok))) else d'
  }

  function NewDelivery(d: Driver, consumer: string, tag: nat): Delivery
    requires consumer in d.link.runtimes
  {
    Delivery(|d.work.deliveries|, consumer, tag, d.link.runtimes[consumer].spec.autoAck, d.link.epoch)
  }

  /** `HandleIncomingMessage` and the delivery callback.  When the pool refuses, the driver thread
      itself enqueues the requeue command and waits for it. */
  function DeliverOne(d: Driver, consumer: string, tag: nat, hasHandler: bool, pool: PoolAnswer): Driver
    requires consumer in d.link.runtimes
  {
    var x := NewDelivery(d, consumer, tag);
    var w := d.work.(deliveries := d.work.deliveries + [x]);
    if pool.Submitted? then d.(work := w.(tasks := w.tasks + [Task(x, hasHandler)]))
    else if NeedsNoSettling(x) || !Running(d) then d.(work := w)
    else
      d.(work := w, queue := Accept(d.queue, Settle(x, NotSubmitted, ActionFor(NotSubmitted))),
         pc := SelfWait(|d.queue.accepted|))
  }

  function VerdictOf(t: Task, outcome: Outcome): Verdict {
    if !t.hasHandler then NoHandler else if outcome.Raised? then Threw else Handled(outcome.action)
  }

  /** A worker task runs once: it decides and, unless the broker acknowledges by itself, enqueues. */
  function RunTask(d: Driver, k: nat, outcome: Outcome): Driver
    requires k < |d.work.tasks|
  {
    var t := d.work.tasks[k];
    var v := VerdictOf(t, outcome);
    var d' := d.(work := d.work.(tasks := d.work.tasks[..k] + d.work.tasks[k + 1..]));
    if NeedsNoSettling(t.delivery) then d' else EnqueueCommand(d', Settle(t.delivery, v, ActionFor(v)))
  }

  // ---- starting and stopping ----

  /** `Start`; the thread ends at once when the socket subsystem cannot be initialised. */
  function Begin(c: Settings, d: Driver, socketOk: bool): Driver {
    d.(pc := if socketOk then Head else Exited, stopRequested := false,
       link := d.link.(state := if socketOk then Connecting else Error),
       clock := d.clock.(nextAt := d.clock.now, delay := c.initialDelay, failures := 0, attempts := 0))
  }

  /** The first half of `Stop`; without a thread to join the second half follows at once. */
  function AskToStop(d: Driver): Driver {
    d.(stopRequested := true, link := if d.pc.NoThread? then d.link.(state := Stopped) else d.link)
  }

  function Joined(d: Driver): Driver { d.(pc := NoThread, link := d.link.(state := Stopped)) }

  function Swapped(d: Driver): Driver {
    d.(pc := Drain, queue := d.queue.(local := d.queue.commands, commands := []))
  }

  // ---- steps ----

  predicate FreshTag(d: Driver, consumer: string, tag: nat) {
    forall x :: x in d.work.deliveries && x.epoch == d.link.epoch && x.consumer == consumer ==> x.tag != tag
  }

  predicate Enabled(c: Settings, d: Driver, e: Event) {
    match e
    case Start(_) => d.pc.NoThread?
    case StopRequest => true
    case Join => d.pc.Exited? && d.stopRequested
    case Tick(_) => true
    case Call(command) => PassesChecks(command)
    case TaskRuns(k, _) => k < |d.work.tasks|
    case LoopTest => d.pc.Head?
    case SwapQueue => d.pc.Swap?
    case Execute(_) => d.pc.Drain? && d.queue.local != []
    case DrainDone => d.pc.Drain? && d.queue.local == []
    case SkipAttempt => d.pc.Turn? && !d.link.connected && !ShouldAttempt(c, d)
    case Attempt(_) => d.pc.Turn? && !d.link.connected && ShouldAttempt(c, d)
    case BeginPump => d.pc.Turn? && d.link.connected
    case Handshake => d.pc.Pump? && !d.link.handshake
    case OpSucceeds(id) => d.pc.Pump? && id in d.link.ops && (d.link.ops[id].Qos? ==> d.link.ops[id].index < |d.link.consumers|)
    case OpFails(id) => (d.pc.Pump? || d.pc.Failing?) && id in d.link.ops &&
                        (d.link.ops[id].Qos? ==> d.link.ops[id].index < |d.link.consumers|)
    case Trouble => d.link.connected && (d.pc.Drain? || d.pc.Pump? || d.pc.Failing?)
    case Deliver(consumer, tag, _, _) => d.pc.Pump? && consumer in d.link.runtimes && FreshTag(d, consumer, tag)
    case EndPump => d.pc.Pump?
    case DropNow => d.pc.Failing?
  }

  function Step(c: Settings, d: Driver, e: Event): Driver
    requires Enabled(c, d, e)
  {
    match e
    case Start(socketOk) => Begin(c, d, socketOk)
    case StopRequest => AskToStop(d)
    case Join => Joined(d)
    case Tick(ms) => d.(clock := d.clock.(now := d.clock.now + ms))
    case Call(command) => EnqueueCommand(d, command)
    case TaskRuns(k, outcome) => RunTask(d, k, outcome)
    case LoopTest => d.(pc := if d.stopRequested then Failing(true) else Swap)
    case SwapQueue => Swapped(d)
    case Execute(channelOk) => ExecuteOne(d, channelOk)
    case DrainDone => d.(pc := Turn)
    case SkipAttempt => d.(pc := Head)
    case Attempt(ok) => AttemptConnect(c, d, ok)
    case BeginPump => d.(pc := Pump)
    case Handshake => d.(link := OnReady(d.link))
    case OpSucceeds(id) => OpOutcome(d, id, true)
    case OpFails(id) => OpOutcome(d, id, false)
    case Trouble => d.(link := RequestDisconnect(d.link))
    case Deliver(consumer, tag, hasHandler, pool) => DeliverOne(d, consumer, tag, hasHandler, pool)
    case EndPump => d.(pc := if d.link.pendingDisconnect then Failing(false) else Head)
    case DropNow => DropConnection(c, d, d.pc.last)
  }

  predicate Runs(c: Settings, from: Driver, run: seq<Event>, to: Driver)
    decreases |run|
  {
    if run == [] then from == to
    else Enabled(c, from, run[0]) && Runs(c, Step(c, from, run[0]), run[1..], to)
  }

  /** A run can go on with any enabled event. */
  lemma {:induction false} Extend(c: Settings, from: Driver, run: seq<Event>, d: Driver, e: Event)
    requires Runs(c, from, run, d) && Enabled(c, d, e)
    ensures Runs(c, from, run + [e], Step(c, d, e))
    decreases |run|
  {
    hide Enabled, Step;
    if run == [] {
      assert ([e])[1..] == [];
      assert run + [e] == [e];
    } else {
      Extend(c, Step(c, from, run[0]), run[1..], d, e);
      assert (run + [e])[0] == run[0] && (run + [e])[1..] == run[1..] + [e];
    }
  }

  ghost predicate Reachable(c: Settings, config: Config, d: Driver) {
    exists run :: Runs(c, Initial(c, config), run, d)
  }
}
