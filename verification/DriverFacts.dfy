/** What callers see of the driver's state, what a delivery carries, and what a declaration leaves behind. */
module DriverFacts {
  import opened Prelude
  import opened BusConfig
  import opened KeyedLists
  import opened DriverLink
  import opened DriverBootstrap
  import opened DriverModel
  import opened DriverInvariants
  import opened DriverResults
  import opened DriverLimits

  // ---- the connection state ----

  predicate InTheLoop(d: Driver) { !d.pc.NoThread? && !d.pc.Exited? }

  /** An open connection is Connecting until it is Connected; without one the driver says whether it is
      about to try for the first time or has failed, and then whether it will try again; without a thread
      it is new or stopped. */
  predicate StateInv(c: Settings, d: Driver) {
    && (d.link.connected && !d.link.ready ==> d.link.state.Connecting?)
    && (InTheLoop(d) && !d.link.connected && !d.stopRequested ==>
          d.link.state == if d.clock.failures == 0 then Connecting else if c.enabled then Reconnecting else Error)
    && (d.pc.NoThread? ==> d.link.state == if d.stopRequested then Stopped else Created)
    && (d.pc.Exited? ==> d.link.state.Error? || (d.stopRequested && d.link.state.Stopped?))
    && (InTheLoop(d) && d.clock.attempts == 0 ==> !d.link.connected && d.clock.failures == 0)
  }

  /** Only the end of the bootstrap makes a link ready, and only that changes the state while connected. */
  lemma CallbackKeepsState(l: Link, id: nat)
    requires LinkInv(l) && id in l.ops && (l.ops[id].Qos? ==> l.ops[id].index < |l.consumers|)
    ensures LinkInv(OnSuccess(l, id)) && LinkInv(OnError(l, id))
    ensures SameConnection(l, OnSuccess(l, id)) && SameConnection(l, OnError(l, id))
    ensures l.ready ==> OnSuccess(l, id).ready && OnError(l, id).ready
  {
    SuccessKeepsInv(l, id);
    ErrorKeepsInv(l, id);
    CallbackKeepsConnection(l, id);
    if l.ready { DeclareKeepsReady(l, id); }
  }

  lemma DeclareKeepsReady(l: Link, id: nat)
    requires LinkInv(l) && l.ready && id in l.ops
    ensures l.ops[id].Declare? && OnSuccess(l, id).ready && OnError(l, id).ready
  {
    assert l.ops[id].Declare?;
    hide ChainGoesOn, LinkInv;
  }

  lemma LinkFlags(l: Link)
    requires LinkInv(l)
    ensures l.state.Connected? <==> l.ready
    ensures l.ready ==> l.connected
  {
  }

  lemma HandshakeKeepsState(l: Link)
    requires LinkInv(l) && l.connected && !l.handshake
    ensures LinkInv(OnReady(l)) && SameConnection(l, OnReady(l)) && !l.ready
  {
    HandshakeKeepsInv(l);
    HandshakeKeepsConnection(l);
  }

  lemma StateStep(c: Settings, d: Driver, e: Event)
    requires StateInv(c, d) && LinkInv(d.link) && ThreadInv(d) && Enabled(c, d, e)
    ensures StateInv(c, Step(c, d, e))
  {
    hide LinkInv, OnReady, OnSuccess, OnError, FreshTag, PassesChecks, ShouldAttempt;
    LinkFlags(d.link);
    match e
    case Start(_) =>
    case StopRequest =>
    case Join =>
    case Attempt(_) =>
    case DropNow =>
    case Handshake => HandshakeKeepsState(d.link); LinkFlags(OnReady(d.link));
    case OpSucceeds(id) => CallbackKeepsState(d.link, id); LinkFlags(OnSuccess(d.link, id));
    case OpFails(id) => CallbackKeepsState(d.link, id); LinkFlags(OnError(d.link, id));
    case _ => OthersKeepState(c, d, e);
  }

  lemma OthersKeepState(c: Settings, d: Driver, e: Event)
    requires StateInv(c, d) && ThreadInv(d) && Enabled(c, d, e)
    requires !e.Start? && !e.StopRequest? && !e.Join? && !e.Attempt? && !e.DropNow? && !e.Handshake? && !e.OpSucceeds? && !e.OpFails?
    ensures StateInv(c, Step(c, d, e))
  {
    hide FreshTag, PassesChecks, ShouldAttempt;
    match e
    case TaskRuns(_, _) =>
    case Execute(_) =>
    case Deliver(_, _, _, _) =>
    case _ =>
  }

  lemma {:induction false} RunKeepsState(c: Settings, from: Driver, run: seq<Event>, to: Driver)
    requires Inv(c, from) && StateInv(c, from) && Runs(c, from, run, to)
    ensures StateInv(c, to)
    decreases |run|
  {
    hide StateInv, Enabled, Step, LinkInv, ThreadInv, QueueInv, PromiseInv, AnswerInv, WaitInv, WorkInv, ClockInv, AttemptInv;
    if run != [] {
      InvStep(c, from, run[0]);
      StateStep(c, from, run[0]);
      RunKeepsState(c, Step(c, from, run[0]), run[1..], to);
    }
  }

  lemma ReachableState(c: Settings, config: Config, d: Driver)
    requires Consistent(config) && Reachable(c, config, d)
    ensures Inv(c, d) && StateInv(c, d)
  {
    ReachableInv(c, config, d);
    InitialInv(c, config);
    InitialState(c, config);
    hide Inv, StateInv, Initial;
    var run :| Runs(c, Initial(c, config), run, d);
    RunKeepsState(c, Initial(c, config), run, d);
  }

  lemma InitialState(c: Settings, config: Config)
    ensures StateInv(c, Initial(c, config))
  {
  }

  /** What callers see, in every reachable state. */
  lemma StateTellsTheStory(c: Settings, config: Config, d: Driver)
    requires Consistent(config) && Reachable(c, config, d)
    ensures d.link.ready ==> d.link.state.Connected?
    ensures d.link.connected && !d.link.ready ==> d.link.state.Connecting?
    ensures !d.link.connected && !d.stopRequested && !d.pc.NoThread? && !d.pc.Exited? ==>
              d.link.state == if d.clock.failures == 0 then Connecting else if c.enabled then Reconnecting else Error
    ensures d.pc.NoThread? ==> d.link.state == if d.stopRequested then Stopped else Created
    ensures d.pc.Exited? ==> d.link.state.Error? || (d.stopRequested && d.link.state.Stopped?)
  {
    ReachableState(c, config, d);
    LinkFlags(d.link);
    hide Inv;
  }

  /** With reconnecting off the thread attempts to connect exactly when it has not done so since the start
      and no stop is requested; with it on, exactly when the time has come. */
  lemma AttemptsIff(c: Settings, config: Config, d: Driver, ok: bool)
    requires Consistent(config) && Reachable(c, config, d) && d.pc.Turn? && !d.link.connected
    ensures Enabled(c, d, Attempt(ok)) <==>
              if c.enabled then d.clock.now >= d.clock.nextAt else d.clock.attempts == 0 && !d.stopRequested
  {
    hide Inv, StateInv, Enabled;
    ReachableState(c, config, d);
    AttemptsNow(c, d, ok);
  }

  lemma AttemptsNow(c: Settings, d: Driver, ok: bool)
    requires Inv(c, d) && StateInv(c, d) && d.pc.Turn? && !d.link.connected
    ensures Enabled(c, d, Attempt(ok)) <==>
              if c.enabled then d.clock.now >= d.clock.nextAt else d.clock.attempts == 0 && !d.stopRequested
  {
    assert AttemptInv(c, d);
    hide Inv;
  }

  // ---- deliveries ----

  /** A runtime is that of a configured consumer of its name, and a delivery carries what that consumer
      says about acknowledging. */
  predicate KnowsConsumer(consumers: seq<ConsumerSpec>, name: string, autoAck: bool) {
    exists s :: s in consumers && s.name == name && s.autoAck == autoAck
  }

  predicate RuntimesKnown(l: Link) {
    forall n :: n in l.runtimes ==> l.runtimes[n].spec in l.consumers && l.runtimes[n].spec.name == n
  }

  predicate DeliveriesKnown(d: Driver) {
    forall x :: x in d.work.deliveries ==> KnowsConsumer(d.link.consumers, x.consumer, x.autoAck)
  }

  lemma StartKeepsRuntimes(l: Link, i: nat)
    requires i < |l.consumers| && RuntimesKnown(l)
    ensures RuntimesKnown(StartConsumer(l, i)) && StartConsumer(l, i).consumers == l.consumers
  {
  }

  lemma ConsumersKeepRuntimes(l: Link, i: nat)
    requires RuntimesKnown(l)
    ensures RuntimesKnown(BootstrapConsumers(l, i)) && BootstrapConsumers(l, i).consumers == l.consumers
  {
    hide StartConsumer;
    if i < |l.consumers| { StartKeepsRuntimes(OpenChannel(l, l.consumers[i]), i); }
  }

  lemma BindingsKeepRuntimes(l: Link, i: nat)
    requires RuntimesKnown(l)
    ensures RuntimesKnown(BootstrapBindings(l, i)) && BootstrapBindings(l, i).consumers == l.consumers
  {
    hide BootstrapConsumers;
    ConsumersKeepRuntimes(l, 0);
  }

  lemma QueuesKeepRuntimes(l: Link, i: nat)
    requires RuntimesKnown(l)
    ensures RuntimesKnown(BootstrapQueues(l, i)) && BootstrapQueues(l, i).consumers == l.consumers
  {
    hide BootstrapBindings;
    BindingsKeepRuntimes(l, 0);
  }

  lemma ExchangesKeepRuntimes(l: Link, i: nat)
    requires RuntimesKnown(l)
    ensures RuntimesKnown(BootstrapExchanges(l, i)) && BootstrapExchanges(l, i).consumers == l.consumers
  {
    hide BootstrapQueues;
    QueuesKeepRuntimes(l, 0);
  }

  lemma ChainKeepsRuntimes(f: Link, op: Op)
    requires RuntimesKnown(f) && !op.Declare? && (op.Qos? ==> op.index < |f.consumers|)
    ensures RuntimesKnown(ChainGoesOn(f, op)) && ChainGoesOn(f, op).consumers == f.consumers
  {
    hide BootstrapExchanges, BootstrapQueues, BootstrapBindings, BootstrapConsumers, StartConsumer;
    match op
    case BootExchange(i, x) => ExchangesKeepRuntimes(Confirm(f, X(x)), i + 1);
    case BootQueue(i, q) => QueuesKeepRuntimes(Confirm(f, Q(q)), i + 1);
    case BootBinding(i, b) => BindingsKeepRuntimes(Confirm(f, B(b)), i + 1);
    case Qos(i, n) => StartKeepsRuntimes(Limit(f, f.consumers[i].name, n), i);
    case Consume(i, s) =>
      ConsumersKeepRuntimes(
        if s.name in f.runtimes then f.(runtimes := f.runtimes[s.name := f.runtimes[s.name].(active := true)]) else f, i + 1);
  }

  lemma CallbackKeepsRuntimes(l: Link, id: nat)
    requires RuntimesKnown(l) && id in l.ops && (l.ops[id].Qos? ==> l.ops[id].index < |l.consumers|)
    ensures RuntimesKnown(OnSuccess(l, id)) && OnSuccess(l, id).consumers == l.consumers
    ensures RuntimesKnown(OnError(l, id)) && OnError(l, id).consumers == l.consumers
  {
    hide ChainGoesOn, OnSuccess, OnError, Finished;
    SuccessGoesOn(l, id);
    if !l.ops[id].Declare? { ChainKeepsRuntimes(Finished(l, id), l.ops[id]); }
  }

  lemma DeliveryStep(c: Settings, d: Driver, e: Event)
    requires RuntimesKnown(d.link) && DeliveriesKnown(d) && Enabled(c, d, e)
    ensures RuntimesKnown(Step(c, d, e).link) && DeliveriesKnown(Step(c, d, e))
  {
    hide Step, Enabled, RuntimesKnown, DeliveriesKnown;
    RuntimesStep(c, d, e);
    OneMoreDelivery(c, d, e);
    DeliveriesStayKnown(d, Step(c, d, e));
  }

  lemma RuntimesStep(c: Settings, d: Driver, e: Event)
    requires RuntimesKnown(d.link) && Enabled(c, d, e)
    ensures RuntimesKnown(Step(c, d, e).link) && Step(c, d, e).link.consumers == d.link.consumers
  {
    hide OnSuccess, OnError, BootstrapExchanges, FreshTag, PassesChecks, ShouldAttempt;
    match e
    case Handshake => ExchangesKeepRuntimes(d.link.(handshake := true), 0);
    case OpSucceeds(id) => CallbackKeepsRuntimes(d.link, id);
    case OpFails(id) => CallbackKeepsRuntimes(d.link, id);
    case Deliver(_, _, _, _) =>
    case TaskRuns(_, _) =>
    case Execute(_) =>
    case Attempt(_) =>
    case DropNow =>
    case _ =>
  }

  lemma OneMoreDelivery(c: Settings, d: Driver, e: Event)
    requires RuntimesKnown(d.link) && Enabled(c, d, e)
    ensures forall x :: x in Step(c, d, e).work.deliveries && x !in d.work.deliveries ==>
              KnowsConsumer(d.link.consumers, x.consumer, x.autoAck)
  {
    hide OnReady, OnSuccess, OnError, FreshTag, PassesChecks, ShouldAttempt, KnowsConsumer, RuntimesKnown;
    match e
    case Deliver(consumer, tag, _, _) => NewDeliveryIsKnown(d, consumer, tag);
    case TaskRuns(_, _) =>
    case Execute(_) =>
    case OpSucceeds(_) =>
    case OpFails(_) =>
    case _ =>
  }

  lemma DeliveriesStayKnown(d: Driver, d': Driver)
    requires DeliveriesKnown(d) && d'.link.consumers == d.link.consumers
    requires forall x :: x in d'.work.deliveries && x !in d.work.deliveries ==>
               KnowsConsumer(d.link.consumers, x.consumer, x.autoAck)
    ensures DeliveriesKnown(d')
  {
    hide KnowsConsumer;
  }

  lemma NewDeliveryIsKnown(d: Driver, consumer: string, tag: nat)
    requires RuntimesKnown(d.link) && consumer in d.link.runtimes
    ensures KnowsConsumer(d.link.consumers, consumer, NewDelivery(d, consumer, tag).autoAck)
  {
    var s := d.link.runtimes[consumer].spec;
    assert s in d.link.consumers && s.name == consumer;
  }

  lemma {:induction false} RunKeepsDeliveries(c: Settings, from: Driver, run: seq<Event>, to: Driver)
    requires RuntimesKnown(from.link) && DeliveriesKnown(from) && Runs(c, from, run, to)
    ensures RuntimesKnown(to.link) && DeliveriesKnown(to)
    decreases |run|
  {
    hide RuntimesKnown, DeliveriesKnown, Enabled, Step;
    if run != [] {
      DeliveryStep(c, from, run[0]);
      RunKeepsDeliveries(c, Step(c, from, run[0]), run[1..], to);
    }
  }

  /** Every delivery that ever arrived is for a configured consumer and is acknowledged by the broker itself
      exactly when that consumer's configuration says so. */
  lemma DeliveryFollowsItsConsumer(c: Settings, config: Config, d: Driver, x: Delivery)
    requires Consistent(config) && Reachable(c, config, d) && x in d.work.deliveries
    ensures exists s :: s in config.consumers && s.name == x.consumer && s.autoAck == x.autoAck
  {
    var run :| Runs(c, Initial(c, config), run, d);
    RunKeepsDeliveries(c, Initial(c, config), run, d);
    RunOnlyGrows(c, Initial(c, config), run, d, config);
    assert KnowsConsumer(d.link.consumers, x.consumer, x.autoAck);
  }

  /** What arrives becomes one task, when the pool takes it, that knows the delivery and whether there is a
      handler; and nothing else changes but the record of deliveries. */
  lemma ArrivalBecomesATask(c: Settings, d: Driver, consumer: string, tag: nat, hasHandler: bool)
    requires Enabled(c, d, Deliver(consumer, tag, hasHandler, Submitted))
    ensures var x := Delivery(|d.work.deliveries|, consumer, tag, d.link.runtimes[consumer].spec.autoAck, d.link.epoch);
            Step(c, d, Deliver(consumer, tag, hasHandler, Submitted)) ==
              d.(work := d.work.(deliveries := d.work.deliveries + [x], tasks := d.work.tasks + [Task(x, hasHandler)]))
  {
    hide FreshTag;
  }

  /** A call is refused without a thread or once a stop was requested, and then leaves nothing behind;
      otherwise its command goes to the end of the queue. */
  lemma CallIsTakenIff(c: Settings, d: Driver, command: Command)
    requires PassesChecks(command)
    ensures var e := Entry(|d.queue.accepted|, command);
            Step(c, d, Call(command)) ==
              if d.pc.NoThread? || d.stopRequested then d
              else d.(queue := d.queue.(accepted := d.queue.accepted + [e], commands := d.queue.commands + [e]))
  {
    hide PassesChecks;
  }

  /** A worker takes one task and leaves all others. */
  lemma OneTaskIsTaken(c: Settings, d: Driver, k: nat, outcome: Outcome)
    requires k < |d.work.tasks|
    ensures multiset(Step(c, d, TaskRuns(k, outcome)).work.tasks) == multiset(d.work.tasks) - multiset{d.work.tasks[k]}
  {
    hide Step;
    TakesTheTask(c, d, k, outcome);
    OneLess(d.work.tasks, k);
  }

  lemma TakesTheTask(c: Settings, d: Driver, k: nat, outcome: Outcome)
    requires k < |d.work.tasks|
    ensures Step(c, d, TaskRuns(k, outcome)).work.tasks == d.work.tasks[..k] + d.work.tasks[k + 1..]
  {
    hide Accept, VerdictOf, ActionFor, NeedsNoSettling;
  }

  lemma OneLess<T>(s: seq<T>, k: nat)
    requires k < |s|
    ensures multiset(s[..k] + s[k + 1..]) == multiset(s) - multiset{s[k]}
  {
    assert s == s[..k] + [s[k]] + s[k + 1..];
  }

  // ---- declarations ----

  /** The lists hold `decl` in the place of one of the same name, and are otherwise as before. */
  ghost predicate NowHolds(l: Link, decl: Decl, l': Link) {
    match decl
    case X(x) => AsMap(l'.exchanges, ExchangeName) == AsMap(l.exchanges, ExchangeName)[x.name := x] &&
                 l'.queues == l.queues && l'.bindings == l.bindings
    case Q(q) => AsMap(l'.queues, QueueName) == AsMap(l.queues, QueueName)[q.name := q] &&
                 l'.exchanges == l.exchanges && l'.bindings == l.bindings
    case B(b) => AsMap(l'.bindings, BindingKey) == AsMap(l.bindings, BindingKey)[BindingKey(b) := b] &&
                 l'.exchanges == l.exchanges && l'.queues == l.queues
  }

  lemma RememberIsCurrent(l: Link, decl: Decl)
    requires UniqueTopology(l)
    ensures NowHolds(l, decl, Remember(l, decl))
  {
    match decl
    case X(x) => UpsertRefinesMapUpdate(l.exchanges, ExchangeName, x);
    case Q(q) => UpsertRefinesMapUpdate(l.queues, QueueName, q);
    case B(b) => UpsertRefinesMapUpdate(l.bindings, BindingKey, b);
  }

  lemma SameTopology(l: Link, l': Link)
    requires SameConfig(l, l')
    ensures UniqueTopology(l) ==> UniqueTopology(l')
    ensures forall decl, m :: NowHolds(l', decl, m) ==> NowHolds(l, decl, m)
  {
  }

  /** The broker's success on a declaration makes its very spec the remembered one of its name. */
  lemma SucceededDeclareIsCurrent(c: Settings, d: Driver, id: nat)
    requires UniqueTopology(d.link) && Enabled(c, d, OpSucceeds(id)) && d.link.ops[id].Declare?
    ensures NowHolds(d.link, d.link.ops[id].decl, Step(c, d, OpSucceeds(id)).link)
  {
    hide UniqueTopology, NowHolds, Remember, ChainGoesOn;
    var decl := d.link.ops[id].decl;
    var f := Confirm(Finished(d.link, id), decl);
    SameTopology(d.link, f);
    RememberIsCurrent(f, decl);
  }

  // ---- arguments ----

  /** The commands that callers submit name what they are about. */
  predicate NamesGiven(command: Command) {
    && (command.Publish? ==> command.request.exchange != "")
    && (command.DeclareOne? ==>
          match command.decl
          case X(x) => x.name != ""
          case Q(q) => q.name != ""
          case B(b) => b.exchange != "" && b.queue != "")
  }

  lemma NamesStep(c: Settings, d: Driver, e: Event)
    requires Enabled(c, d, e) && forall i :: 0 <= i < |d.queue.accepted| ==> NamesGiven(d.queue.accepted[i].command)
    ensures forall i :: 0 <= i < |Step(c, d, e).queue.accepted| ==> NamesGiven(Step(c, d, e).queue.accepted[i].command)
  {
    hide OnReady, OnSuccess, OnError, FreshTag, ShouldAttempt;
    match e
    case Call(_) =>
    case TaskRuns(_, _) =>
    case Execute(_) =>
    case Deliver(_, _, _, _) =>
    case OpSucceeds(_) =>
    case OpFails(_) =>
    case _ =>
  }

  lemma {:induction false} RunKeepsNames(c: Settings, from: Driver, run: seq<Event>, to: Driver)
    requires Runs(c, from, run, to) && forall i :: 0 <= i < |from.queue.accepted| ==> NamesGiven(from.queue.accepted[i].command)
    ensures forall i :: 0 <= i < |to.queue.accepted| ==> NamesGiven(to.queue.accepted[i].command)
    decreases |run|
  {
    hide NamesGiven, Enabled, Step;
    if run != [] {
      NamesStep(c, from, run[0]);
      RunKeepsNames(c, Step(c, from, run[0]), run[1..], to);
    }
  }

  /** No command that was ever accepted lacks the name of its exchange or queue. */
  lemma AcceptedCommandsAreNamed(c: Settings, config: Config, d: Driver, i: nat)
    requires Reachable(c, config, d) && i < |d.queue.accepted|
    ensures NamesGiven(d.queue.accepted[i].command)
  {
    var run :| Runs(c, Initial(c, config), run, d);
    RunKeepsNames(c, Initial(c, config), run, d);
  }
}
