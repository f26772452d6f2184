/** The order in which the bootstrap talks to the broker, and why it ends. */
module DriverBootstrap {
  import opened Prelude
  import opened BusConfig
  import opened KeyedLists
  import opened DriverLink

  predicate ExchangeKnown(l: Link, name: string) { name in Keys(l.exchanges, ExchangeName) }
  predicate QueueKnown(l: Link, name: string) { name in Keys(l.queues, QueueName) }

  /** An exchange (a queue) of this name has been confirmed on this connection. */
  predicate ExchangeUp(l: Link, name: string) { exists d :: d in l.confirmed && d.X? && d.exchange.name == name }
  predicate QueueUp(l: Link, name: string) { exists d :: d in l.confirmed && d.Q? && d.queue.name == name }

  predicate BindingUp(l: Link, key: (string, string, string)) {
    exists b :: b in l.bindings && B(b) in l.confirmed && BindingKey(b) == key
  }

  lemma UpMeansKnown(l: Link, name: string)
    requires LinkInv(l)
    ensures ExchangeUp(l, name) ==> ExchangeKnown(l, name)
    ensures QueueUp(l, name) ==> QueueKnown(l, name)
  {
  }

  lemma AllExchangesUp(l: Link, name: string)
    requires ExchangesConfirmed(l, |l.exchanges|) && ExchangeKnown(l, name)
    ensures ExchangeUp(l, name)
  {
    var i :| 0 <= i < |l.exchanges| && Keys(l.exchanges, ExchangeName)[i] == name;
    assert Keys(l.exchanges, ExchangeName)[i] == l.exchanges[i].name;
    assert X(l.exchanges[i]) in l.confirmed;
    assert X(l.exchanges[i]).exchange.name == name;
  }

  lemma AllQueuesUp(l: Link, name: string)
    requires QueuesConfirmed(l, |l.queues|) && QueueKnown(l, name)
    ensures QueueUp(l, name)
  {
    var i :| 0 <= i < |l.queues| && Keys(l.queues, QueueName)[i] == name;
    assert Keys(l.queues, QueueName)[i] == l.queues[i].name;
    assert Q(l.queues[i]) in l.confirmed;
    assert Q(l.queues[i]).queue.name == name;
  }

  lemma AllBindingsUp(l: Link, key: (string, string, string))
    requires BindingsConfirmed(l, |l.bindings|) && key in Keys(l.bindings, BindingKey)
    ensures BindingUp(l, key)
  {
    var i :| 0 <= i < |l.bindings| && Keys(l.bindings, BindingKey)[i] == key;
    assert Keys(l.bindings, BindingKey)[i] == BindingKey(l.bindings[i]);
    assert B(l.bindings[i]) in l.confirmed;
  }

  /** The operation binds `b`, for the bootstrap or for a caller. */
  predicate Binds(op: Op, b: BindingSpec) { (op.BootBinding? && op.binding == b) || (op.Declare? && op.decl == B(b)) }

  /** An outstanding bind, of the bootstrap or of a caller, has both its endpoints confirmed exactly
      when both are remembered; nothing else can put it out of order. */
  lemma BindInOrderIffKnown(l: Link, id: nat, b: BindingSpec)
    requires LinkInv(l) && id in l.ops && Binds(l.ops[id], b)
    ensures ExchangeUp(l, b.exchange) && QueueUp(l, b.queue) <==> ExchangeKnown(l, b.exchange) && QueueKnown(l, b.queue)
  {
    assert l.ops[id].BootBinding? && !l.ready ==> AtItsPlace(l, l.ops[id]);
    UpMeansKnown(l, b.exchange);
    UpMeansKnown(l, b.queue);
    if ExchangeKnown(l, b.exchange) { AllExchangesUp(l, b.exchange); }
    if QueueKnown(l, b.queue) { AllQueuesUp(l, b.queue); }
  }

  lemma ConsumeInOrderIffKnown(l: Link, id: nat)
    requires LinkInv(l) && id in l.ops && l.ops[id].Consume?
    ensures QueueUp(l, l.ops[id].consumer.queue) <==> QueueKnown(l, l.ops[id].consumer.queue)
  {
    assert AtItsPlace(l, l.ops[id]);
    UpMeansKnown(l, l.ops[id].consumer.queue);
    if QueueKnown(l, l.ops[id].consumer.queue) { AllQueuesUp(l, l.ops[id].consumer.queue); }
  }

  /** No remembered binding and no consumer dangles. */
  predicate ClosedTopology(l: Link) {
    && (forall b :: b in l.bindings ==> ExchangeKnown(l, b.exchange) && QueueKnown(l, b.queue))
    && (forall s :: s in l.consumers ==> QueueKnown(l, s.queue))
  }

  predicate KnownDecl(l: Link, d: Decl) {
    d.B? ==> ExchangeKnown(l, d.binding.exchange) && QueueKnown(l, d.binding.queue)
  }

  /** Remembering a confirmed declaration never forgets a name. */
  lemma RememberKeepsNames(l: Link, d: Decl)
    requires UniqueTopology(l)
    ensures forall n :: ExchangeKnown(l, n) ==> ExchangeKnown(Remember(l, d), n)
    ensures forall n :: QueueKnown(l, n) ==> QueueKnown(Remember(l, d), n)
  {
    match d
    case X(x) => UpsertRefinesMapUpdate(l.exchanges, ExchangeName, x);
    case Q(q) => UpsertRefinesMapUpdate(l.queues, QueueName, q);
    case B(_) =>
  }

  /** A topology stays closed as long as only known names are bound. */
  lemma RememberKeepsClosed(l: Link, d: Decl)
    requires UniqueTopology(l) && ClosedTopology(l) && KnownDecl(l, d)
    ensures ClosedTopology(Remember(l, d))
  {
    var l' := Remember(l, d);
    RememberKeepsNames(l, d);
    forall b | b in l'.bindings ensures ExchangeKnown(l', b.exchange) && QueueKnown(l', b.queue) {
      if b !in l.bindings { UpsertMember(l.bindings, BindingKey, d.binding, b); }
    }
  }

  // ---- the chain ends ----

  /** Broker answers still needed when this bootstrap operation is outstanding. */
  function AnswersLeft(l: Link, op: Op): int {
    match op
    case BootExchange(i, _) => |l.exchanges| - i + |l.queues| + |l.bindings| + 2 * |l.consumers|
    case BootQueue(i, _) => |l.queues| - i + |l.bindings| + 2 * |l.consumers|
    case BootBinding(i, _) => |l.bindings| - i + 2 * |l.consumers|
    case Qos(i, _) => 2 * (|l.consumers| - i)
    case Consume(i, _) => 2 * (|l.consumers| - i) - 1
    case Declare(_, _) => 0
  }

  /** The chain has not stopped silently: it is ready, about to reconnect, or waiting for the broker. */
  predicate Alive(l: Link) { l.ready || l.pendingDisconnect || l.ops != map[] }

  predicate AtMost(l: Link, n: int) { forall id :: id in l.ops ==> AnswersLeft(l, l.ops[id]) <= n }

  lemma StartLeft(l: Link, i: nat)
    requires l.ops == map[] && i < |l.consumers|
    ensures AtMost(StartConsumer(l, i), 2 * (|l.consumers| - i) - 1) && Alive(StartConsumer(l, i))
  {
    if l.consumers[i].name in l.runtimes { assert l.nextOp in StartConsumer(l, i).ops; }
  }

  lemma ConsumersLeft(l: Link, i: nat)
    requires l.ops == map[] && i <= |l.consumers|
    ensures AtMost(BootstrapConsumers(l, i), 2 * (|l.consumers| - i)) && Alive(BootstrapConsumers(l, i))
  {
    if i < |l.consumers| {
      var spec := l.consumers[i];
      StartLeft(OpenChannel(l, spec), i);
      assert spec.prefetchCount > 0 ==> l.nextOp in BootstrapConsumers(l, i).ops;
    }
  }

  lemma BindingsLeft(l: Link, i: nat)
    requires l.ops == map[] && i <= |l.bindings|
    ensures AtMost(BootstrapBindings(l, i), |l.bindings| - i + 2 * |l.consumers|) && Alive(BootstrapBindings(l, i))
  {
    if i < |l.bindings| { assert l.nextOp in BootstrapBindings(l, i).ops; } else { ConsumersLeft(l, 0); }
  }

  lemma QueuesLeft(l: Link, i: nat)
    requires l.ops == map[] && i <= |l.queues|
    ensures AtMost(BootstrapQueues(l, i), |l.queues| - i + |l.bindings| + 2 * |l.consumers|) && Alive(BootstrapQueues(l, i))
  {
    if i < |l.queues| { assert l.nextOp in BootstrapQueues(l, i).ops; } else { BindingsLeft(l, 0); }
  }

  lemma ExchangesLeft(l: Link, i: nat)
    requires l.ops == map[] && i <= |l.exchanges|
    ensures AtMost(BootstrapExchanges(l, i), |l.exchanges| - i + |l.queues| + |l.bindings| + 2 * |l.consumers|)
    ensures Alive(BootstrapExchanges(l, i))
  {
    if i < |l.exchanges| { assert l.nextOp in BootstrapExchanges(l, i).ops; } else { QueuesLeft(l, 0); }
  }

  predicate InRange(l: Link, op: Op) {
    match op
    case BootExchange(i, _) => i < |l.exchanges|
    case BootQueue(i, _) => i < |l.queues|
    case BootBinding(i, _) => i < |l.bindings|
    case Qos(i, _) => i < |l.consumers|
    case Consume(i, _) => i < |l.consumers|
    case Declare(_, _) => false
  }

  lemma ChainLeft(f: Link, op: Op)
    requires f.ops == map[] && InRange(f, op)
    ensures AnswersLeft(f, op) >= 1 && AtMost(ChainGoesOn(f, op), AnswersLeft(f, op) - 1) && Alive(ChainGoesOn(f, op))
  {
    hide BootstrapExchanges, BootstrapQueues, BootstrapBindings, BootstrapConsumers, StartConsumer, AtMost, Alive;
    match op
    case BootExchange(i, x) => ExchangesLeft(Confirm(f, X(x)), i + 1);
    case BootQueue(i, q) => QueuesLeft(Confirm(f, Q(q)), i + 1);
    case BootBinding(i, b) => BindingsLeft(Confirm(f, B(b)), i + 1);
    case Qos(i, n) => StartLeft(Limit(f, f.consumers[i].name, n), i);
    case Consume(i, s) =>
      if s.name in f.runtimes {
        ConsumersLeft(f.(runtimes := f.runtimes[s.name := f.runtimes[s.name].(active := true)]), i + 1);
      } else {
        ConsumersLeft(f, i + 1);
      }
  }

  /** Every success of a bootstrap operation brings the chain nearer to its end: fewer answers are
      needed afterwards, and the chain never stops without being ready or about to reconnect. */
  lemma BootstrapMeasure(l: Link, id: nat)
    requires LinkInv(l) && l.handshake && !l.ready && id in l.ops && (l.ops[id].Qos? ==> l.ops[id].index < |l.consumers|)
    ensures AnswersLeft(l, l.ops[id]) >= 1
    ensures AtMost(OnSuccess(l, id), AnswersLeft(l, l.ops[id]) - 1) && Alive(OnSuccess(l, id))
  {
    FinishedRests(l, id);
    var f := Finished(l, id);
    hide LinkInv, ChainGoesOn, OnlyRemembered, UniqueTopology, AtMost, Alive;
    ChainLeft(f, l.ops[id]);
    assert AnswersLeft(f, l.ops[id]) == AnswersLeft(l, l.ops[id]);
  }

  /** The whole bootstrap takes at most this many broker answers. */
  lemma BootstrapLength(l: Link)
    requires LinkInv(l) && l.connected && !l.handshake
    ensures AtMost(OnReady(l), |l.exchanges| + |l.queues| + |l.bindings| + 2 * |l.consumers|) && Alive(OnReady(l))
  {
    ExchangesLeft(l.(handshake := true), 0);
  }
}
