/** The order of the bootstrap over whole runs: as long as callers bind only names that are known,
    nothing is bound or consumed before what it needs is confirmed. */
module DriverOrder {
  import opened Prelude
  import opened BusConfig
  import opened KeyedLists
  import opened DriverLink
  import opened DriverBootstrap
  import opened DriverModel
  import opened DriverInvariants
  import opened DriverResults

  /** What a caller can check before it binds: both names are remembered. */
  predicate CallsKnown(d: Driver, e: Event) {
    e.Call? && e.command.DeclareOne? ==> KnownDecl(d.link, e.command.decl)
  }

  predicate BindsKnownNames(c: Settings, from: Driver, run: seq<Event>)
    decreases |run|
  {
    run == [] || !Enabled(c, from, run[0]) ||
    (CallsKnown(from, run[0]) && BindsKnownNames(c, Step(c, from, run[0]), run[1..]))
  }

  predicate AcceptedKnown(q: Queue, l: Link) {
    forall i :: 0 <= i < |q.accepted| && q.accepted[i].command.DeclareOne? ==> KnownDecl(l, q.accepted[i].command.decl)
  }

  predicate OutstandingKnown(l: Link) {
    forall id :: id in l.ops && l.ops[id].Declare? ==> KnownDecl(l, l.ops[id].decl)
  }

  predicate Closed(d: Driver) { ClosedTopology(d.link) && AcceptedKnown(d.queue, d.link) && OutstandingKnown(d.link) }

  lemma KnownStays(l: Link, l': Link, d: Decl)
    requires Grown(l, l') && KnownDecl(l, d)
    ensures KnownDecl(l', d)
  {
    GrownNames(l, l');
  }

  // ---- the accepted commands ----

  lemma AcceptedStep(c: Settings, d: Driver, e: Event)
    requires AcceptedKnown(d.queue, d.link) && LinkInv(d.link) && Enabled(c, d, e) && CallsKnown(d, e)
    ensures AcceptedKnown(Step(c, d, e).queue, d.link)
  {
    hide LinkInv, KnownDecl, OnReady, OnSuccess, OnError, FreshTag, ShouldAttempt, PassesChecks;
    match e
    case Call(_) =>
    case TaskRuns(_, _) =>
    case Deliver(_, _, _, _) =>
    case Execute(_) =>
    case OpSucceeds(_) =>
    case OpFails(_) =>
    case SwapQueue =>
    case DropNow =>
    case Attempt(_) =>
    case _ =>
  }

  // ---- the outstanding operations ----

  predicate NoNewDeclare(l: Link, l': Link) {
    forall id :: id in l'.ops && l'.ops[id].Declare? ==> id in l.ops && l'.ops[id] == l.ops[id]
  }

  lemma CallbackSubmitsNoDeclare(l: Link, id: nat)
    requires id in l.ops && (l.ops[id].Qos? ==> l.ops[id].index < |l.consumers|)
    ensures NoNewDeclare(l, OnSuccess(l, id)) && NoNewDeclare(l, OnError(l, id))
  {
    hide ChainGoesOn, OnSuccess, OnError;
    CallbackOps(l, id);
    if !l.ops[id].Declare? { BootSuccessAdvances(l, id); }
  }

  lemma HandshakeSubmitsNoDeclare(l: Link)
    ensures NoNewDeclare(l, OnReady(l))
  {
    hide BootstrapExchanges;
    ExchangesAdvance(l.(handshake := true), 0);
  }

  lemma OutstandingStep(c: Settings, d: Driver, e: Event)
    requires AcceptedKnown(d.queue, d.link) && OutstandingKnown(d.link) && QueueInv(d.queue) && LinkInv(d.link)
    requires Enabled(c, d, e)
    ensures forall id :: id in Step(c, d, e).link.ops && Step(c, d, e).link.ops[id].Declare? ==>
              KnownDecl(d.link, Step(c, d, e).link.ops[id].decl)
  {
    hide LinkInv, QueueInv, KnownDecl, OnReady, OnSuccess, OnError, FreshTag, ShouldAttempt, PassesChecks;
    match e
    case Execute(_) => PopKeepsQueue(d.queue);
    case Handshake => HandshakeSubmitsNoDeclare(d.link);
    case OpSucceeds(id) => CallbackSubmitsNoDeclare(d.link, id);
    case OpFails(id) => CallbackSubmitsNoDeclare(d.link, id);
    case TaskRuns(_, _) =>
    case Deliver(_, _, _, _) =>
    case DropNow =>
    case Attempt(_) =>
    case _ =>
  }

  // ---- the remembered topology ----

  lemma SameConfigKeepsClosed(l: Link, l': Link)
    requires ClosedTopology(l) && SameConfig(l, l')
    ensures ClosedTopology(l')
  {
  }

  lemma DeclarationKeepsClosed(l: Link, id: nat)
    requires ClosedTopology(l) && OutstandingKnown(l) && UniqueTopology(l) && id in l.ops && l.ops[id].Declare?
    ensures ClosedTopology(OnSuccess(l, id))
  {
    var f := Confirm(Finished(l, id), l.ops[id].decl);
    assert ClosedTopology(f) && KnownDecl(f, l.ops[id].decl);
    RememberKeepsClosed(f, l.ops[id].decl);
  }

  lemma CallbackKeepsClosed(l: Link, id: nat)
    requires ClosedTopology(l) && OutstandingKnown(l) && LinkInv(l)
    requires id in l.ops && (l.ops[id].Qos? ==> l.ops[id].index < |l.consumers|)
    ensures ClosedTopology(OnSuccess(l, id)) && ClosedTopology(OnError(l, id))
  {
    hide ChainGoesOn, ClosedTopology, OutstandingKnown, UniqueTopology, Remember;
    SameConfigKeepsClosed(l, OnError(l, id));
    if l.ops[id].Declare? {
      DeclarationKeepsClosed(l, id);
    } else {
      BootSuccessAdvances(l, id);
      SameConfigKeepsClosed(l, OnSuccess(l, id));
    }
  }

  lemma HandshakeKeepsClosed(l: Link)
    requires ClosedTopology(l)
    ensures ClosedTopology(OnReady(l))
  {
    hide BootstrapExchanges;
    ExchangesAdvance(l.(handshake := true), 0);
  }

  lemma TopologyStep(c: Settings, d: Driver, e: Event)
    requires ClosedTopology(d.link) && OutstandingKnown(d.link) && LinkInv(d.link) && Enabled(c, d, e)
    ensures ClosedTopology(Step(c, d, e).link)
  {
    hide LinkInv, OutstandingKnown, OnReady, OnSuccess, OnError, FreshTag, ShouldAttempt, PassesChecks;
    match e
    case Handshake => HandshakeKeepsClosed(d.link);
    case OpSucceeds(id) => CallbackKeepsClosed(d.link, id);
    case OpFails(id) => CallbackKeepsClosed(d.link, id);
    case Execute(_) =>
    case TaskRuns(_, _) =>
    case Deliver(_, _, _, _) =>
    case DropNow =>
    case Attempt(_) =>
    case _ =>
  }

  lemma ClosedStep(c: Settings, d: Driver, e: Event)
    requires Closed(d) && QueueInv(d.queue) && LinkInv(d.link) && Enabled(c, d, e) && CallsKnown(d, e)
    ensures Closed(Step(c, d, e))
  {
    var d' := Step(c, d, e);
    hide LinkInv, QueueInv, ClosedTopology, Enabled, Step, Grown, KnownDecl;
    AcceptedStep(c, d, e);
    OutstandingStep(c, d, e);
    TopologyStep(c, d, e);
    StepGrows(c, d, e);
    forall x: Decl | KnownDecl(d.link, x) ensures KnownDecl(d'.link, x) { KnownStays(d.link, d'.link, x); }
  }

  lemma {:induction false} RunKeepsClosed(c: Settings, from: Driver, run: seq<Event>, to: Driver)
    requires Inv(c, from) && Closed(from) && Runs(c, from, run, to) && BindsKnownNames(c, from, run)
    ensures Inv(c, to) && Closed(to)
    decreases |run|
  {
    hide Enabled, Step, Closed, CallsKnown, LinkInv, ThreadInv, QueueInv, PromiseInv, AnswerInv, WaitInv, WorkInv, ClockInv, AttemptInv;
    if run != [] {
      InvStep(c, from, run[0]);
      ClosedStep(c, from, run[0]);
      RunKeepsClosed(c, Step(c, from, run[0]), run[1..], to);
    }
  }

  lemma InitiallyClosed(c: Settings, config: Config)
    requires Consistent(config)
    ensures Closed(Initial(c, config))
  {
    var l := Initial(c, config).link;
    forall b | b in l.bindings ensures ExchangeKnown(l, b.exchange) && QueueKnown(l, b.queue) {
      var x :| x in config.exchanges && x.name == b.exchange;
      var q :| q in config.queues && q.name == b.queue;
      MemberKey(l.exchanges, ExchangeName, x);
      MemberKey(l.queues, QueueName, q);
    }
    forall s | s in l.consumers ensures QueueKnown(l, s.queue) {
      var q :| q in config.queues && q.name == s.queue;
      MemberKey(l.queues, QueueName, q);
    }
  }

  /** In a run from an accepted configuration whose callers bind only known names, every outstanding
      bind, submitted by the bootstrap or for a caller, has its exchange and its queue confirmed on this
      connection, and every outstanding consume has its queue confirmed. */
  lemma BindsAreOrdered(c: Settings, config: Config, run: seq<Event>, d: Driver, id: nat)
    requires Consistent(config) && Runs(c, Initial(c, config), run, d) && BindsKnownNames(c, Initial(c, config), run)
    requires id in d.link.ops
    ensures forall b :: Binds(d.link.ops[id], b) ==> ExchangeUp(d.link, b.exchange) && QueueUp(d.link, b.queue)
    ensures d.link.ops[id].Consume? ==> QueueUp(d.link, d.link.ops[id].consumer.queue)
  {
    InitialInv(c, config);
    InitiallyClosed(c, config);
    RunKeepsClosed(c, Initial(c, config), run, d);
    OrderedWhenClosed(d.link, id);
  }

  lemma OrderedWhenClosed(l: Link, id: nat)
    requires LinkInv(l) && ClosedTopology(l) && OutstandingKnown(l) && id in l.ops
    ensures forall b :: Binds(l.ops[id], b) ==> ExchangeUp(l, b.exchange) && QueueUp(l, b.queue)
    ensures l.ops[id].Consume? ==> QueueUp(l, l.ops[id].consumer.queue)
  {
    forall b | Binds(l.ops[id], b) ensures ExchangeUp(l, b.exchange) && QueueUp(l, b.queue) {
      assert l.ops[id].BootBinding? ==> AtItsPlace(l, l.ops[id]);
      BindInOrderIffKnown(l, id, b);
    }
    if l.ops[id].Consume? {
      assert AtItsPlace(l, l.ops[id]);
      ConsumeInOrderIffKnown(l, id);
    }
  }

  // ---- no step of the driver prolongs the bootstrap ----

  lemma CallbackKeepsConfig(l: Link, id: nat)
    requires LinkInv(l) && l.handshake && !l.ready && id in l.ops && (l.ops[id].Qos? ==> l.ops[id].index < |l.consumers|)
    ensures SameConfig(l, OnSuccess(l, id)) && SameConfig(l, OnError(l, id)) && OnError(l, id).ops == map[]
  {
    hide ChainGoesOn;
    FinishedRests(l, id);
    BootSuccessAdvances(l, id);
  }

  /** While a bootstrap is under way no step changes what is to be rebuilt, every success leaves fewer
      broker answers to wait for, and no other step leaves more. */
  lemma BootstrapOnlyShrinks(c: Settings, d: Driver, e: Event, id: nat)
    requires LinkInv(d.link) && ThreadInv(d) && Enabled(c, d, e)
    requires d.link.handshake && !d.link.ready && id in d.link.ops
    ensures SameConfig(d.link, Step(c, d, e).link)
    ensures AtMost(Step(c, d, e).link, AnswersLeft(d.link, d.link.ops[id]) - if e.OpSucceeds? then 1 else 0)
  {
    hide LinkInv, ThreadInv, OnReady, OnSuccess, OnError, FreshTag, ShouldAttempt, PassesChecks, AnswersLeft;
    OneInBootstrap(d.link, id);
    match e
    case OpSucceeds(done) => CallbackKeepsConfig(d.link, done); BootstrapMeasure(d.link, done);
    case OpFails(done) => CallbackKeepsConfig(d.link, done);
    case _ => OthersKeepBootstrap(c, d, e, id);
  }

  lemma OneInBootstrap(l: Link, id: nat)
    requires LinkInv(l) && l.handshake && !l.ready && id in l.ops
    ensures l.connected && !l.state.Connected? && forall other :: other in l.ops ==> other == id
  {
  }

  lemma OthersKeepBootstrap(c: Settings, d: Driver, e: Event, id: nat)
    requires ThreadInv(d) && Enabled(c, d, e) && !e.OpSucceeds? && !e.OpFails?
    requires d.link.handshake && !d.link.ready && d.link.connected && id in d.link.ops
    requires forall other :: other in d.link.ops ==> other == id
    ensures SameConfig(d.link, Step(c, d, e).link)
    ensures AtMost(Step(c, d, e).link, AnswersLeft(d.link, d.link.ops[id]))
  {
    hide OnReady, FreshTag, ShouldAttempt, PassesChecks;
    match e
    case Handshake =>
    case Execute(_) =>
    case TaskRuns(_, _) =>
    case Deliver(_, _, _, _) =>
    case DropNow =>
    case Attempt(_) =>
    case _ =>
  }
}
