/** What the driver does not promise: for each shortfall a run that shows it, and what exactly holds. */
module DriverTraps {
  import opened Prelude
  import opened Backoff
  import opened BusConfig
  import opened KeyedLists
  import opened DriverLink
  import opened DriverBootstrap
  import opened DriverModel
  import opened DriverInvariants

  // ---- a command accepted after the last drain ----

  predicate NoStart(run: seq<Event>) { forall i :: 0 <= i < |run| ==> !run[i].Start? }

  lemma GoneStep(c: Settings, d: Driver, e: Event)
    requires Enabled(c, d, e) && (d.pc.Exited? || d.pc.NoThread?) && !e.Start?
    ensures var d' := Step(c, d, e);
            (d'.pc.Exited? || d'.pc.NoThread?) &&
            d'.queue.executed == d.queue.executed && d'.queue.completions == d.queue.completions &&
            d.queue.commands <= d'.queue.commands
  {
    hide OnReady, OnSuccess, OnError, FreshTag, ShouldAttempt, PassesChecks;
    match e
    case Call(_) =>
    case TaskRuns(_, _) =>
    case _ =>
  }

  /** Once the driver thread is gone, and until the driver is started again, nothing more runs and
      nobody more is answered: what is still queued stays queued. */
  lemma {:induction false} QueuedStaysQueued(c: Settings, d: Driver, run: seq<Event>, d': Driver)
    requires Runs(c, d, run, d') && NoStart(run) && (d.pc.Exited? || d.pc.NoThread?)
    ensures d'.queue.executed == d.queue.executed && d'.queue.completions == d.queue.completions
    ensures d.queue.commands <= d'.queue.commands
    decreases |run|
  {
    hide Enabled, Step;
    if run != [] {
      GoneStep(c, d, run[0]);
      QueuedStaysQueued(c, Step(c, d, run[0]), run[1..], d');
    }
  }

  // ---- the driver thread waiting for itself ----

  lemma WaitingStep(c: Settings, d: Driver, e: Event)
    requires Enabled(c, d, e) && d.pc.SelfWait?
    ensures var d' := Step(c, d, e);
            d'.pc == d.pc && d'.queue.executed == d.queue.executed && d'.queue.answers == d.queue.answers
  {
    hide OnReady, OnSuccess, OnError, FreshTag, ShouldAttempt, PassesChecks;
    match e
    case Call(_) =>
    case TaskRuns(_, _) =>
    case StopRequest =>
    case _ =>
  }

  lemma {:induction false} WaitingRun(c: Settings, d: Driver, run: seq<Event>, d': Driver)
    requires Runs(c, d, run, d') && d.pc.SelfWait?
    ensures d'.pc == d.pc && d'.queue.executed == d.queue.executed && d'.queue.answers == d.queue.answers
    decreases |run|
  {
    hide Enabled, Step;
    if run != [] {
      WaitingStep(c, d, run[0]);
      WaitingRun(c, Step(c, d, run[0]), run[1..], d');
    }
  }

  /** Once the driver thread waits for its own command it waits for ever: in no continuation is that
      command answered, any other command run, or a stop joined. */
  lemma SelfWaitIsForEver(c: Settings, config: Config, d: Driver, run: seq<Event>, d': Driver)
    requires Consistent(config) && Reachable(c, config, d) && d.pc.SelfWait? && Runs(c, d, run, d')
    ensures d'.pc == d.pc && d.pc.ticket !in d'.queue.answers && d'.queue.executed == d.queue.executed
    ensures !Enabled(c, d', Join)
  {
    ReachableInv(c, config, d);
    WaitingRun(c, d, run, d');
    assert WaitInv(d);
    assert forall t :: t in d.queue.answers ==> t < |d.queue.executed|;
  }

  /** A delivery that the driver thread itself would have to settle. */
  predicate SettledByTheDriver(d: Driver, e: Event) {
    e.Deliver? && e.pool.Refused? && !d.stopRequested &&
    e.consumer in d.link.runtimes && e.consumer != "" && !d.link.runtimes[e.consumer].spec.autoAck
  }

  /** Of all steps exactly these begin it: the pool refuses the task of a delivery that must be settled
      while no stop is requested. */
  lemma SelfWaitBeginsIff(c: Settings, d: Driver, e: Event)
    requires Enabled(c, d, e) && !d.pc.SelfWait?
    ensures Step(c, d, e).pc.SelfWait? <==> SettledByTheDriver(d, e)
  {
    hide OnReady, OnSuccess, OnError, FreshTag, ShouldAttempt, PassesChecks;
    match e
    case Start(_) =>
    case Execute(_) =>
    case TaskRuns(_, _) =>
    case Deliver(_, _, _, _) =>
    case OpSucceeds(_) =>
    case OpFails(_) =>
    case Attempt(_) =>
    case DropNow =>
    case _ =>
  }

  // ---- building runs ----

  lemma ReachStep(c: Settings, config: Config, d: Driver, e: Event)
    requires Reachable(c, config, d) && Enabled(c, d, e)
    ensures Reachable(c, config, Step(c, d, e))
  {
    hide Enabled, Step, Initial;
    var run :| Runs(c, Initial(c, config), run, d);
    Extend(c, Initial(c, config), run, d, e);
  }

  lemma ReachInitial(c: Settings, config: Config)
    ensures Reachable(c, config, Initial(c, config))
  {
    assert Runs(c, Initial(c, config), [], Initial(c, config));
  }

  /** One turn of the loop that finds the queue empty. */
  lemma TurnIdle(c: Settings, config: Config, d: Driver)
    requires Reachable(c, config, d) && d.pc.Head? && !d.stopRequested && d.queue.local == [] && d.queue.commands == []
    ensures Reachable(c, config, d.(pc := Turn))
  {
    hide Reachable;
    ReachStep(c, config, d, LoopTest);
    ReachStep(c, config, d.(pc := Swap), SwapQueue);
    ReachStep(c, config, d.(pc := Drain), DrainDone);
    assert Step(c, d.(pc := Swap), SwapQueue) == d.(pc := Drain);
  }

  function Opened(c: Settings, d: Driver): Driver {
    d.(pc := Pump, link := SocketOpen(d.link),
       clock := d.clock.(attempts := d.clock.attempts + 1, delay := c.initialDelay, failures := 0))
  }

  /** From the top of the loop to an open socket. */
  lemma Connects(c: Settings, config: Config, d: Driver)
    requires Reachable(c, config, d) && d.pc.Head? && !d.stopRequested && d.queue.local == [] && d.queue.commands == []
    requires !d.link.connected && ShouldAttempt(c, d)
    ensures Reachable(c, config, Opened(c, d))
  {
    hide Reachable;
    TurnIdle(c, config, d);
    ReachStep(c, config, d.(pc := Turn), Attempt(true));
    var o := Step(c, d.(pc := Turn), Attempt(true));
    TurnIdle(c, config, o);
    ReachStep(c, config, o.(pc := Turn), BeginPump);
    assert Step(c, o.(pc := Turn), BeginPump) == Opened(c, d);
  }

  function Lost(d: Driver): Driver {
    d.(pc := Head, link := Drop(d.link, Reconnecting), clock := BackOff(Settings(true, 0, 0), d.clock))
  }

  /** The connection breaks while the thread pumps. */
  lemma Loses(c: Settings, config: Config, d: Driver)
    requires Reachable(c, config, d) && d.pc.Pump? && d.link.connected && !d.stopRequested && c == Settings(true, 0, 0)
    ensures Reachable(c, config, Lost(d))
  {
    hide Reachable;
    ReachStep(c, config, d, Trouble);
    var t := Step(c, d, Trouble);
    ReachStep(c, config, t, EndPump);
    var f := Step(c, t, EndPump);
    ReachStep(c, config, f, DropNow);
    assert Step(c, f, DropNow) == Lost(d);
  }

  /** ... and the next attempt succeeds at once. */
  lemma Reconnects(config: Config, d: Driver)
    requires Reachable(Eager(), config, d) && d.pc.Pump? && d.link.connected && !d.stopRequested && d.clock.delay == 0
    requires d.queue.local == [] && d.queue.commands == []
    ensures Reachable(Eager(), config, Opened(Eager(), Lost(d)))
  {
    hide Reachable;
    Loses(Eager(), config, d);
    Connects(Eager(), config, Lost(d));
  }

  /** The thread drains what is queued. */
  lemma Drains(c: Settings, config: Config, d: Driver)
    requires Reachable(c, config, d) && d.pc.Pump? && !d.link.pendingDisconnect && !d.stopRequested && d.queue.local == []
    ensures Reachable(c, config, d.(pc := Drain, queue := d.queue.(local := d.queue.commands, commands := [])))
  {
    hide Reachable;
    ReachStep(c, config, d, EndPump);
    ReachStep(c, config, d.(pc := Head), LoopTest);
    ReachStep(c, config, d.(pc := Swap), SwapQueue);
  }

  lemma Executes(c: Settings, config: Config, d: Driver)
    requires Reachable(c, config, d) && d.pc.Drain? && d.queue.local != []
    ensures Reachable(c, config, ExecuteOne(d, true))
  {
    hide Reachable, ExecuteOne;
    ReachStep(c, config, d, Execute(true));
  }

  function Plain(queues: seq<QueueSpec>, consumers: seq<ConsumerSpec>): Config {
    Config("amqp://h/", 30, 100, Reconnect(true, 0, 0), 1, [], queues, [], [], consumers)
  }

  function Eager(): Settings { Settings(true, 0, 0) }

  lemma Starts(config: Config)
    ensures var d := Initial(Eager(), config); Reachable(Eager(), config, d.(pc := Head, link := d.link.(state := Connecting)))
  {
    var d := Initial(Eager(), config);
    ReachInitial(Eager(), config);
    hide Reachable;
    ReachStep(Eager(), config, d, Start(true));
    assert Step(Eager(), d, Start(true)) == d.(pc := Head, link := d.link.(state := Connecting));
  }

  /** A command can be accepted and never run. */
  lemma CommandCanBeStranded(request: PublishRequest)
    requires request.exchange != ""
    ensures exists d ::
              Reachable(Eager(), Plain([], []), d) && d.pc.Exited? && d.stopRequested &&
              d.queue == Queue([Entry(0, Publish(request))], [], [], [Entry(0, Publish(request))], [], map[])
  {
    var c, config := Eager(), Plain([], []);
    Starts(config);
    hide Reachable;
    var i := Initial(c, config);
    var d0 := i.(pc := Head, link := i.link.(state := Connecting));
    ReachStep(c, config, d0, Call(Publish(request)));
    var d1 := Step(c, d0, Call(Publish(request)));
    ReachStep(c, config, d1, StopRequest);
    var d2 := Step(c, d1, StopRequest);
    ReachStep(c, config, d2, LoopTest);
    var d3 := Step(c, d2, LoopTest);
    ReachStep(c, config, d3, DropNow);
    var d4 := Step(c, d3, DropNow);
    assert d4.queue == Queue([Entry(0, Publish(request))], [], [], [Entry(0, Publish(request))], [], map[]);
  }

  /** Without a stop too: when the socket subsystem cannot be initialised the thread ends, and the
      driver goes on accepting. */
  lemma FailedStartStrands(request: PublishRequest)
    requires request.exchange != ""
    ensures exists d ::
              Reachable(Eager(), Plain([], []), d) && d.pc.Exited? && !d.stopRequested &&
              d.queue == Queue([Entry(0, Publish(request))], [], [], [Entry(0, Publish(request))], [], map[])
  {
    var c, config := Eager(), Plain([], []);
    ReachInitial(c, config);
    hide Reachable;
    var i := Initial(c, config);
    ReachStep(c, config, i, Start(false));
    var d0 := Step(c, i, Start(false));
    ReachStep(c, config, d0, Call(Publish(request)));
    var d1 := Step(c, d0, Call(Publish(request)));
    assert d1.queue == Queue([Entry(0, Publish(request))], [], [], [Entry(0, Publish(request))], [], map[]);
  }

  // ---- a binding between names that nobody declared ----

  /** An open connection with nothing to rebuild on which a binding has been requested and confirmed. */
  lemma BindsUnchecked(b: BindingSpec) returns (d: Driver)
    requires b.exchange != "" && b.queue != ""
    ensures Reachable(Eager(), Plain([], []), d) && d.pc.Pump? && d.link.connected && !d.stopRequested
    ensures d.queue.local == [] && d.queue.commands == [] && d.clock.delay == 0
    ensures d.link.exchanges == [] && d.link.queues == [] && d.link.bindings == [b]
  {
    var c, config := Eager(), Plain([], []);
    Starts(config);
    hide Reachable;
    var i := Initial(c, config);
    var d0 := i.(pc := Head, link := i.link.(state := Connecting));
    Connects(c, config, d0);
    var d1 := Opened(c, d0);
    ReachStep(c, config, d1, Handshake);
    var d2 := Step(c, d1, Handshake);
    assert d2.link.ready;
    ReachStep(c, config, d2, Call(DeclareOne(B(b))));
    var d3 := Step(c, d2, Call(DeclareOne(B(b))));
    Drains(c, config, d3);
    var d4 := d3.(pc := Drain, queue := d3.queue.(local := d3.queue.commands, commands := []));
    assert d4.queue.local == [Entry(0, DeclareOne(B(b)))];
    Executes(c, config, d4);
    var d5 := ExecuteOne(d4, true);
    assert d5.link.ops == map[0 := Declare(B(b), 0)];
    ReachStep(c, config, d5, DrainDone);
    var d6 := Step(c, d5, DrainDone);
    ReachStep(c, config, d6, BeginPump);
    var d7 := Step(c, d6, BeginPump);
    ReachStep(c, config, d7, OpSucceeds(0));
    d := Step(c, d7, OpSucceeds(0));
    assert d.link.bindings == Upsert([], BindingKey, b) == [b];
  }

  /** Any binding with non-empty names can dangle: after a reconnect it is submitted although neither
      its exchange nor its queue is confirmed, or even remembered. */
  lemma BindingCanDangle(b: BindingSpec)
    requires b.exchange != "" && b.queue != ""
    ensures exists d, id ::
              Reachable(Eager(), Plain([], []), d) && id in d.link.ops && d.link.ops[id] == BootBinding(0, b) &&
              !ExchangeUp(d.link, b.exchange) && !QueueUp(d.link, b.queue)
  {
    var c, config := Eager(), Plain([], []);
    var d := BindsUnchecked(b);
    hide Reachable;
    Reconnects(config, d);
    var o := Opened(c, Lost(d));
    ReachStep(c, config, o, Handshake);
    var h := Step(c, o, Handshake);
    assert h.link.ops == map[o.link.nextOp := BootBinding(0, b)];
    assert o.link.nextOp in h.link.ops;
  }

  // ---- one tag answered twice on one channel ----

  function Inbox(): QueueSpec { QueueSpec("inbox", true, false, false, false, map[]) }
  function Reader(): ConsumerSpec { ConsumerSpec("reader", "inbox", "", false, false, false, 0, map[]) }
  function ReaderConfig(): Config { Plain([Inbox()], [Reader()]) }

  predicate ReaderTopology(l: Link) {
    l.exchanges == [] && l.queues == [Inbox()] && l.bindings == [] && l.consumers == [Reader()]
  }

  /** The queue is declared first. */
  lemma DeclaresInbox(d: Driver)
    requires Reachable(Eager(), ReaderConfig(), d) && d.pc.Pump? && !d.link.handshake && ReaderTopology(d.link) && d.link.ops == map[]
    ensures Reachable(Eager(), ReaderConfig(), d.(link := Submit(d.link.(handshake := true), BootQueue(0, Inbox()))))
  {
    hide Reachable;
    ReachStep(Eager(), ReaderConfig(), d, Handshake);
    assert Step(Eager(), d, Handshake) == d.(link := Submit(d.link.(handshake := true), BootQueue(0, Inbox())));
  }

  /** Then the consumer is started. */
  lemma StartsReader(d: Driver, n: nat) returns (r: Driver)
    requires Reachable(Eager(), ReaderConfig(), d) && d.pc.Pump? && ReaderTopology(d.link)
    requires d.link.ops == map[n := BootQueue(0, Inbox())] && d.link.runtimes == map[]
    ensures Reachable(Eager(), ReaderConfig(), r) && r == d.(link := r.link) && SameConfig(d.link, r.link)
    ensures r.link.ops == map[d.link.nextOp := Consume(0, Reader())]
    ensures r.link.runtimes == map["reader" := Runtime(Reader(), false)]
    ensures r.link.connected == d.link.connected && r.link.epoch == d.link.epoch && r.link.pendingDisconnect == d.link.pendingDisconnect
  {
    hide Reachable;
    ReachStep(Eager(), ReaderConfig(), d, OpSucceeds(n));
    r := Step(Eager(), d, OpSucceeds(n));
  }

  /** Then the connection is ready. */
  lemma ReaderRuns(d: Driver, n: nat) returns (r: Driver)
    requires Reachable(Eager(), ReaderConfig(), d) && d.pc.Pump? && ReaderTopology(d.link)
    requires d.link.ops == map[n := Consume(0, Reader())] && d.link.runtimes == map["reader" := Runtime(Reader(), false)]
    ensures Reachable(Eager(), ReaderConfig(), r) && r == d.(link := r.link) && SameConfig(d.link, r.link)
    ensures r.link.ready && r.link.ops == map[] && r.link.runtimes == map["reader" := Runtime(Reader(), true)]
    ensures r.link.connected == d.link.connected && r.link.epoch == d.link.epoch && r.link.pendingDisconnect == d.link.pendingDisconnect
  {
    hide Reachable;
    ReachStep(Eager(), ReaderConfig(), d, OpSucceeds(n));
    r := Step(Eager(), d, OpSucceeds(n));
  }

  /** From an open socket to a ready connection of that configuration. */
  lemma BecomesReady(d: Driver) returns (r: Driver)
    requires Reachable(Eager(), ReaderConfig(), d) && d.pc.Pump? && !d.link.handshake && ReaderTopology(d.link)
    requires d.link.ops == map[] && d.link.runtimes == map[]
    ensures Reachable(Eager(), ReaderConfig(), r) && r.link.ready
    ensures r == d.(link := r.link) && r.link.runtimes == map["reader" := Runtime(Reader(), true)]
    ensures r.link.connected == d.link.connected && r.link.epoch == d.link.epoch && SameConfig(d.link, r.link)
    ensures r.link.pendingDisconnect == d.link.pendingDisconnect && r.link.ops == map[]
  {
    hide Reachable, Reader, Inbox;
    DeclaresInbox(d);
    var d1 := d.(link := Submit(d.link.(handshake := true), BootQueue(0, Inbox())));
    assert d1.link.ops == map[d.link.nextOp := BootQueue(0, Inbox())];
    var d2 := StartsReader(d1, d.link.nextOp);
    r := ReaderRuns(d2, d1.link.nextOp);
  }

  function Received(id: nat, tag: nat, epoch: nat): Delivery { Delivery(id, "reader", tag, false, epoch) }

  /** A ready connection of that configuration on which nothing has been queued. */
  predicate Reading(d: Driver, epoch: nat) {
    && d.pc.Pump? && !d.stopRequested && d.link.connected && !d.link.pendingDisconnect && d.link.epoch == epoch
    && d.queue == Queue([], [], [], [], [], map[]) && d.clock.delay == 0 && d.link.ops == map[]
    && ReaderTopology(d.link) && d.link.runtimes == map["reader" := Runtime(Reader(), true)]
  }

  lemma FirstReading() returns (d: Driver)
    ensures Reachable(Eager(), ReaderConfig(), d) && Reading(d, 1) && d.work == Work([], [], [], [])
  {
    var c, config := Eager(), ReaderConfig();
    Starts(config);
    hide Reachable;
    var i := Initial(c, config);
    var d0 := i.(pc := Head, link := i.link.(state := Connecting));
    Connects(c, config, d0);
    d := BecomesReady(Opened(c, d0));
  }

  lemma NextReading(d: Driver, epoch: nat) returns (d': Driver)
    requires Reachable(Eager(), ReaderConfig(), d) && Reading(d, epoch)
    ensures Reachable(Eager(), ReaderConfig(), d') && Reading(d', epoch + 1) && d'.work == d.work
  {
    hide Reachable;
    Reconnects(ReaderConfig(), d);
    d' := BecomesReady(Opened(Eager(), Lost(d)));
  }

  lemma Delivers(d: Driver, epoch: nat, tag: nat) returns (d': Driver)
    requires Reachable(Eager(), ReaderConfig(), d) && Reading(d, epoch) && FreshTag(d, "reader", tag)
    ensures Reachable(Eager(), ReaderConfig(), d') && Reading(d', epoch)
    ensures var x := Received(|d.work.deliveries|, tag, epoch);
            d'.work == d.work.(deliveries := d.work.deliveries + [x], tasks := d.work.tasks + [Task(x, true)])
  {
    hide Reachable;
    ReachStep(Eager(), ReaderConfig(), d, Deliver("reader", tag, true, Submitted));
    d' := Step(Eager(), d, Deliver("reader", tag, true, Submitted));
  }

  /** The driver thread can come to wait for its own command, for a delivery with any tag. */
  lemma SelfWaitHappens(tag: nat)
    ensures exists d ::
              Reachable(Eager(), ReaderConfig(), d) && d.pc == SelfWait(0) &&
              d.queue.commands == [Entry(0, Settle(Received(0, tag, 1), NotSubmitted, Requeue))]
  {
    var d := FirstReading();
    hide Reachable;
    assert FreshTag(d, "reader", tag);
    ReachStep(Eager(), ReaderConfig(), d, Deliver("reader", tag, true, Refused));
    var d' := Step(Eager(), d, Deliver("reader", tag, true, Refused));
    assert d'.pc == SelfWait(0);
  }

  /** The first connection delivers a message and is lost; the second delivers one with the same tag. */
  lemma DeliversTwice(tag: nat) returns (d: Driver)
    ensures Reachable(Eager(), ReaderConfig(), d) && Reading(d, 2)
    ensures d.work == Work([Received(0, tag, 1), Received(1, tag, 2)],
                           [Task(Received(0, tag, 1), true), Task(Received(1, tag, 2), true)], [], [])
  {
    hide Reachable, Reading;
    d := FirstReading();
    d := Delivers(d, 1, tag) by { assert FreshTag(d, "reader", tag); }
    d := NextReading(d, 1);
    d := Delivers(d, 2, tag) by {
      assert Reading(d, 2) ==> d.link.epoch == 2 by { ReadingEpoch(d, 2); }
      assert FreshTag(d, "reader", tag);
    }
  }

  lemma ReadingEpoch(d: Driver, epoch: nat)
    ensures Reading(d, epoch) ==> d.link.epoch == epoch
  {
  }

  /** A late answer goes to the next connection: the channel of a consumer can be sent two answers
      with the same tag, the first of them for a delivery of the connection before. */
  lemma TagCanBeAnsweredTwice(tag: nat)
    ensures exists d ::
              Reachable(Eager(), ReaderConfig(), d) &&
              d.work.settled == [Settlement(0, 2, Received(0, tag, 1), Handled(Ack), Ack),
                                 Settlement(1, 2, Received(1, tag, 2), Handled(Reject), Reject)]
  {
    var c, config := Eager(), ReaderConfig();
    var d := DeliversTwice(tag);
    hide Reachable;
    ReachStep(c, config, d, TaskRuns(0, Returned(Ack)));
    var d1 := Step(c, d, TaskRuns(0, Returned(Ack)));
    assert d1.work.tasks == [Task(Received(1, tag, 2), true)];
    ReachStep(c, config, d1, TaskRuns(0, Returned(Reject)));
    var d2 := Step(c, d1, TaskRuns(0, Returned(Reject)));
    Drains(c, config, d2);
    var d3 := d2.(pc := Drain, queue := d2.queue.(local := d2.queue.commands, commands := []));
    assert d3.queue.local == [Entry(0, Settle(Received(0, tag, 1), Handled(Ack), Ack)),
                              Entry(1, Settle(Received(1, tag, 2), Handled(Reject), Reject))];
    Executes(c, config, d3);
    Executes(c, config, ExecuteOne(d3, true));
    var d5 := ExecuteOne(ExecuteOne(d3, true), true);
    assert d5.work.settled == [Settlement(0, 2, Received(0, tag, 1), Handled(Ack), Ack),
                               Settlement(1, 2, Received(1, tag, 2), Handled(Reject), Reject)];
  }
}
