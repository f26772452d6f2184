/** One connection of the driver: the bootstrap chain that rebuilds the remembered topology, the
    declarations made at run time, and what "ready" means.

    The AMQP library is the environment.  An operation that has been submitted stays outstanding
    until its success or its error callback fires, and dropping the connection drops what is
    outstanding.  `confirmed` records what the broker has confirmed on this connection, and `prefetch`
    the limits it has accepted for the consumers' channels. */
module DriverLink {
  import opened Prelude
  import opened BusConfig
  import opened KeyedLists

  datatype ConnectionState = Created | Connecting | Connected | Reconnecting | Stopped | Error

  datatype Decl = X(exchange: ExchangeSpec) | Q(queue: QueueSpec) | B(binding: BindingSpec)

  datatype Op =
    | BootExchange(index: nat, exchange: ExchangeSpec)
    | BootQueue(index: nat, queue: QueueSpec)
    | BootBinding(index: nat, binding: BindingSpec)
    | Qos(index: nat, count: nat)
    | Consume(index: nat, consumer: ConsumerSpec)
    | Declare(decl: Decl, ticket: nat)

  datatype Runtime = Runtime(spec: ConsumerSpec, active: bool)

  datatype Link = Link(
    exchanges: seq<ExchangeSpec>, queues: seq<QueueSpec>, bindings: seq<BindingSpec>, consumers: seq<ConsumerSpec>,
    state: ConnectionState, connected: bool, ready: bool, handshake: bool, pendingDisconnect: bool,
    runtimes: map<string, Runtime>, ops: map<nat, Op>, nextOp: nat, epoch: nat, confirmed: set<Decl>,
    prefetch: map<string, nat>)

  function Submit(l: Link, op: Op): Link {
    l.(ops := l.ops[l.nextOp := op], nextOp := l.nextOp + 1)
  }

  function RequestDisconnect(l: Link): Link { l.(pendingDisconnect := true) }

  // ---- the bootstrap chain ----

  function StartConsumer(l: Link, i: nat): Link
    requires i < |l.consumers|
  {
    if l.consumers[i].name !in l.runtimes then RequestDisconnect(l) else Submit(l, Consume(i, l.consumers[i]))
  }

  /** The consumer's runtime, with a channel of its own that has no limit yet. */
  function OpenChannel(l: Link, spec: ConsumerSpec): Link {
    l.(runtimes := l.runtimes[spec.name := Runtime(spec, false)], prefetch := l.prefetch - {spec.name})
  }

  function BootstrapConsumers(l: Link, i: nat): Link {
    if i >= |l.consumers| then l.(state := Connected, ready := true)
    else
      var spec := l.consumers[i];
      var l' := OpenChannel(l, spec);
      if spec.prefetchCount > 0 then Submit(l', Qos(i, spec.prefetchCount)) else StartConsumer(l', i)
  }

  function BootstrapBindings(l: Link, i: nat): Link {
    if i >= |l.bindings| then BootstrapConsumers(l, 0) else Submit(l, BootBinding(i, l.bindings[i]))
  }

  function BootstrapQueues(l: Link, i: nat): Link {
    if i >= |l.queues| then BootstrapBindings(l, 0) else Submit(l, BootQueue(i, l.queues[i]))
  }

  function BootstrapExchanges(l: Link, i: nat): Link {
    if i >= |l.exchanges| then BootstrapQueues(l, 0) else Submit(l, BootExchange(i, l.exchanges[i]))
  }

  /** The handshake has completed. */
  function OnReady(l: Link): Link { BootstrapExchanges(l.(handshake := true), 0) }

  // ---- callbacks of submitted operations ----

  function Finished(l: Link, id: nat): Link { l.(ops := l.ops - {id}) }

  function Confirm(l: Link, d: Decl): Link { l.(confirmed := l.confirmed + {d}) }

  /** The broker has accepted the limit of a consumer's channel. */
  function Limit(l: Link, name: string, count: nat): Link { l.(prefetch := l.prefetch[name := count]) }

  /** A run-time declaration is remembered for the next reconnect once the broker has confirmed it. */
  function Remember(l: Link, d: Decl): Link {
    match d
    case X(x) => l.(exchanges := Upsert(l.exchanges, ExchangeName, x))
    case Q(q) => l.(queues := Upsert(l.queues, QueueName, q))
    case B(b) => l.(bindings := Upsert(l.bindings, BindingKey, b))
  }

  /** After the success of a bootstrap operation. */
  function ChainGoesOn(f: Link, op: Op): Link
    requires !op.Declare? && (op.Qos? ==> op.index < |f.consumers|)
  {
    match op
    case BootExchange(i, x) => BootstrapExchanges(Confirm(f, X(x)), i + 1)
    case BootQueue(i, q) => BootstrapQueues(Confirm(f, Q(q)), i + 1)
    case BootBinding(i, b) => BootstrapBindings(Confirm(f, B(b)), i + 1)
    case Qos(i, n) => StartConsumer(Limit(f, f.consumers[i].name, n), i)
    case Consume(i, s) =>
      BootstrapConsumers(if s.name in f.runtimes
                         then f.(runtimes := f.runtimes[s.name := f.runtimes[s.name].(active := true)]) else f, i + 1)
  }

  function OnSuccess(l: Link, id: nat): Link
    requires id in l.ops && (l.ops[id].Qos? ==> l.ops[id].index < |l.consumers|)
  {
    var f := Finished(l, id);
    if l.ops[id].Declare? then Remember(Confirm(f, l.ops[id].decl), l.ops[id].decl) else ChainGoesOn(f, l.ops[id])
  }

  function OnError(l: Link, id: nat): Link
    requires id in l.ops
  {
    var f := Finished(l, id);
    if l.ops[id].Declare? then f else RequestDisconnect(f)
  }

  // ---- the connection as a whole ----

  function SocketOpen(l: Link): Link {
    l.(connected := true, ready := false, handshake := false, pendingDisconnect := false, state := Connecting,
       epoch := l.epoch + 1, confirmed := {}, prefetch := map[])
  }

  function Drop(l: Link, next: ConnectionState): Link {
    l.(connected := false, ready := false, handshake := false, pendingDisconnect := false, runtimes := map[],
       ops := map[], confirmed := {}, prefetch := map[], state := next)
  }

  // ---- what holds of every link ----

  predicate ExchangesConfirmed(l: Link, n: nat) { forall j :: 0 <= j < n && j < |l.exchanges| ==> X(l.exchanges[j]) in l.confirmed }
  predicate QueuesConfirmed(l: Link, n: nat) { forall j :: 0 <= j < n && j < |l.queues| ==> Q(l.queues[j]) in l.confirmed }
  predicate BindingsConfirmed(l: Link, n: nat) { forall j :: 0 <= j < n && j < |l.bindings| ==> B(l.bindings[j]) in l.confirmed }

  predicate ConsumersActive(l: Link, n: nat) {
    forall j :: 0 <= j < n && j < |l.consumers| ==>
      l.consumers[j].name in l.runtimes && l.runtimes[l.consumers[j].name] == Runtime(l.consumers[j], true) &&
      Limited(l, l.consumers[j])
  }

  /** The consumer's channel has its configured limit, and none when none is configured. */
  predicate Limited(l: Link, s: ConsumerSpec) {
    if s.prefetchCount > 0 then s.name in l.prefetch && l.prefetch[s.name] == s.prefetchCount else s.name !in l.prefetch
  }

  predicate ActiveLimited(l: Link) {
    forall n :: n in l.runtimes && l.runtimes[n].active ==> l.runtimes[n].spec.name == n && Limited(l, l.runtimes[n].spec)
  }

  predicate RuntimeCreated(l: Link, i: nat)
    requires i < |l.consumers|
  {
    l.consumers[i].name in l.runtimes && l.runtimes[l.consumers[i].name] == Runtime(l.consumers[i], false)
  }

  /** An outstanding bootstrap operation knows its place, and everything before it is done. */
  predicate AtItsPlace(l: Link, op: Op) {
    match op
    case BootExchange(i, x) => i < |l.exchanges| && x == l.exchanges[i] && ExchangesConfirmed(l, i)
    case BootQueue(i, q) =>
      i < |l.queues| && q == l.queues[i] && ExchangesConfirmed(l, |l.exchanges|) && QueuesConfirmed(l, i)
    case BootBinding(i, b) =>
      i < |l.bindings| && b == l.bindings[i] && ExchangesConfirmed(l, |l.exchanges|) &&
      QueuesConfirmed(l, |l.queues|) && BindingsConfirmed(l, i)
    case Qos(i, n) =>
      i < |l.consumers| && TopologyConfirmed(l) && ConsumersActive(l, i) && RuntimeCreated(l, i) &&
      n == l.consumers[i].prefetchCount > 0
    case Consume(i, s) =>
      i < |l.consumers| && s == l.consumers[i] && TopologyConfirmed(l) && ConsumersActive(l, i) && RuntimeCreated(l, i) &&
      Limited(l, s)
    case Declare(_, _) => false
  }

  /** Every exchange, queue and binding now remembered was confirmed on this connection. */
  predicate TopologyConfirmed(l: Link) {
    ExchangesConfirmed(l, |l.exchanges|) && QueuesConfirmed(l, |l.queues|) && BindingsConfirmed(l, |l.bindings|)
  }

  ghost predicate UniqueTopology(l: Link) {
    && UniqueKeys(l.exchanges, ExchangeName) && UniqueKeys(l.queues, QueueName)
    && UniqueKeys(l.bindings, BindingKey) && UniqueKeys(l.consumers, ConsumerName)
  }

  /** Before the link is ready nothing but remembered declarations has been confirmed. */
  predicate OnlyRemembered(l: Link) {
    forall d :: d in l.confirmed ==>
      match d
      case X(x) => x in l.exchanges
      case Q(q) => q in l.queues
      case B(b) => b in l.bindings
  }

  /** What has been confirmed on this connection is remembered at least by its name. */
  predicate NamesRemembered(l: Link) {
    forall d :: d in l.confirmed ==>
      match d
      case X(x) => x.name in Keys(l.exchanges, ExchangeName)
      case Q(q) => q.name in Keys(l.queues, QueueName)
      case B(b) => BindingKey(b) in Keys(l.bindings, BindingKey)
  }

  predicate OneBootOp(l: Link) {
    && (forall id :: id in l.ops ==> AtItsPlace(l, l.ops[id]))
    && (forall id, id' :: id in l.ops && id' in l.ops ==> id == id')
    && (l.ops == map[] ==> l.pendingDisconnect)
  }

  predicate Flags(l: Link) {
    && (l.state.Connected? <==> l.ready)
    && (l.ready ==> l.handshake) && (l.handshake ==> l.connected)
    && (!l.connected ==> l.runtimes == map[])
    && (!l.handshake ==> l.ops == map[] && l.confirmed == {})
    && (forall id :: id in l.ops ==> id < l.nextOp)
  }

  ghost predicate LinkInv(l: Link) {
    && UniqueTopology(l) && Flags(l) && ActiveLimited(l)
    && (l.handshake && !l.ready ==> OneBootOp(l) && OnlyRemembered(l))
    && (l.handshake ==> NamesRemembered(l))
    && (l.ready ==> TopologyConfirmed(l) && ConsumersActive(l, |l.consumers|) &&
                    forall id :: id in l.ops ==> l.ops[id].Declare?)
  }

  // ---- the chain keeps it ----

  lemma MemberKey<T, K>(list: seq<T>, key: T -> K, t: T)
    requires t in list
    ensures key(t) in Keys(list, key)
  {
    var i :| 0 <= i < |list| && list[i] == t;
    assert Keys(list, key)[i] == key(t);
  }

  lemma RememberedByName(l: Link)
    requires OnlyRemembered(l)
    ensures NamesRemembered(l)
  {
    forall d | d in l.confirmed
      ensures match d
              case X(x) => x.name in Keys(l.exchanges, ExchangeName)
              case Q(q) => q.name in Keys(l.queues, QueueName)
              case B(b) => BindingKey(b) in Keys(l.bindings, BindingKey)
    {
      match d
      case X(x) => MemberKey(l.exchanges, ExchangeName, x);
      case Q(q) => MemberKey(l.queues, QueueName, q);
      case B(b) => MemberKey(l.bindings, BindingKey, b);
    }
  }

  /** Everything up to here is done and nothing is outstanding: the next link of the chain may start. */
  ghost predicate Resting(l: Link) {
    && UniqueTopology(l) && l.connected && l.handshake && !l.ready && !l.state.Connected?
    && l.ops == map[] && OnlyRemembered(l) && ActiveLimited(l)
  }

  lemma ConsumerStarts(l: Link, i: nat)
    requires Resting(l) && i < |l.consumers| && TopologyConfirmed(l) && ConsumersActive(l, i) && RuntimeCreated(l, i)
    requires Limited(l, l.consumers[i])
    ensures LinkInv(StartConsumer(l, i))
  {
    RememberedByName(l);
    var l' := StartConsumer(l, i);
    assert l'.ops == map[l.nextOp := Consume(i, l.consumers[i])];
    assert AtItsPlace(l', l'.ops[l.nextOp]);
  }

  /** A new runtime leaves those before it alone. */
  lemma OpenChannelRests(l: Link, i: nat)
    requires Resting(l) && TopologyConfirmed(l) && ConsumersActive(l, i) && i < |l.consumers|
    ensures var l' := OpenChannel(l, l.consumers[i]);
            && Resting(l') && TopologyConfirmed(l') && ConsumersActive(l', i) && RuntimeCreated(l', i)
            && l.consumers[i].name !in l'.prefetch
  {
    forall j | 0 <= j < i ensures l.consumers[j].name != l.consumers[i].name {
      assert ConsumerName(l.consumers[j]) != ConsumerName(l.consumers[i]);
    }
  }

  lemma ConsumersBoot(l: Link, i: nat)
    requires Resting(l) && TopologyConfirmed(l) && ConsumersActive(l, i)
    ensures LinkInv(BootstrapConsumers(l, i))
  {
    RememberedByName(l);
    if i < |l.consumers| {
      var spec := l.consumers[i];
      var l1 := OpenChannel(l, spec);
      OpenChannelRests(l, i);
      if spec.prefetchCount > 0 {
        RememberedByName(l1);
        var l2 := Submit(l1, Qos(i, spec.prefetchCount));
        assert l2.ops == map[l.nextOp := Qos(i, spec.prefetchCount)];
        assert AtItsPlace(l2, l2.ops[l.nextOp]);
        assert LinkInv(l2);
      } else {
        ConsumerStarts(l1, i);
      }
    }
  }

  lemma BindingsBoot(l: Link, i: nat)
    requires Resting(l) && ExchangesConfirmed(l, |l.exchanges|) && QueuesConfirmed(l, |l.queues|) && BindingsConfirmed(l, i)
    ensures LinkInv(BootstrapBindings(l, i))
  {
    RememberedByName(l);
    if i < |l.bindings| {
      var l' := BootstrapBindings(l, i);
      assert l'.ops == map[l.nextOp := BootBinding(i, l.bindings[i])];
      assert AtItsPlace(l', l'.ops[l.nextOp]);
    } else {
      ConsumersBoot(l, 0);
    }
  }

  lemma QueuesBoot(l: Link, i: nat)
    requires Resting(l) && ExchangesConfirmed(l, |l.exchanges|) && QueuesConfirmed(l, i)
    ensures LinkInv(BootstrapQueues(l, i))
  {
    RememberedByName(l);
    if i < |l.queues| {
      var l' := BootstrapQueues(l, i);
      assert l'.ops == map[l.nextOp := BootQueue(i, l.queues[i])];
      assert AtItsPlace(l', l'.ops[l.nextOp]);
    } else {
      BindingsBoot(l, 0);
    }
  }

  lemma ExchangesBoot(l: Link, i: nat)
    requires Resting(l) && ExchangesConfirmed(l, i)
    ensures LinkInv(BootstrapExchanges(l, i))
  {
    RememberedByName(l);
    if i < |l.exchanges| {
      var l' := BootstrapExchanges(l, i);
      assert l'.ops == map[l.nextOp := BootExchange(i, l.exchanges[i])];
      assert AtItsPlace(l', l'.ops[l.nextOp]);
    } else {
      QueuesBoot(l, 0);
    }
  }

  lemma HandshakeKeepsInv(l: Link)
    requires LinkInv(l) && l.connected && !l.handshake
    ensures LinkInv(OnReady(l))
  {
    ExchangesBoot(l.(handshake := true), 0);
  }

  /** The state between the removal of the one outstanding bootstrap operation and the next link. */
  lemma FinishedRests(l: Link, id: nat)
    requires LinkInv(l) && l.handshake && !l.ready && id in l.ops
    ensures Resting(Finished(l, id)) && AtItsPlace(l, l.ops[id])
  {
    assert Finished(l, id).ops == map[];
  }

  lemma ChainKeepsInv(f: Link, op: Op)
    requires Resting(f) && AtItsPlace(f, op)
    ensures LinkInv(ChainGoesOn(f, op))
  {
    hide LinkInv, Resting, AtItsPlace, Confirm, BootstrapExchanges, BootstrapQueues, BootstrapBindings, BootstrapConsumers,
         StartConsumer, Limit;
    match op
    case BootExchange(i, x) => ExchangeIsUp(f, i, x); ExchangesBoot(Confirm(f, X(x)), i + 1);
    case BootQueue(i, q) => QueueIsUp(f, i, q); QueuesBoot(Confirm(f, Q(q)), i + 1);
    case BootBinding(i, b) => BindingIsUp(f, i, b); BindingsBoot(Confirm(f, B(b)), i + 1);
    case Qos(i, n) => LimitIsSet(f, i, n); ConsumerStarts(Limit(f, f.consumers[i].name, n), i);
    case Consume(i, s) =>
      ConsumerIsActive(f, i, s);
      ConsumersBoot(f.(runtimes := f.runtimes[s.name := f.runtimes[s.name].(active := true)]), i + 1);
    case Declare(_, _) => NoDeclareInChain(f, op);
  }

  lemma ExchangeIsUp(f: Link, i: nat, x: ExchangeSpec)
    requires Resting(f) && AtItsPlace(f, BootExchange(i, x))
    ensures Resting(Confirm(f, X(x))) && ExchangesConfirmed(Confirm(f, X(x)), i + 1)
  {
  }

  lemma QueueIsUp(f: Link, i: nat, q: QueueSpec)
    requires Resting(f) && AtItsPlace(f, BootQueue(i, q))
    ensures var l := Confirm(f, Q(q)); Resting(l) && ExchangesConfirmed(l, |l.exchanges|) && QueuesConfirmed(l, i + 1)
  {
  }

  lemma BindingIsUp(f: Link, i: nat, b: BindingSpec)
    requires Resting(f) && AtItsPlace(f, BootBinding(i, b))
    ensures var l := Confirm(f, B(b));
            Resting(l) && ExchangesConfirmed(l, |l.exchanges|) && QueuesConfirmed(l, |l.queues|) && BindingsConfirmed(l, i + 1)
  {
  }

  lemma LimitIsSet(f: Link, i: nat, n: nat)
    requires Resting(f) && AtItsPlace(f, Qos(i, n))
    ensures i < |f.consumers|
    ensures var l := Limit(f, f.consumers[i].name, n);
            i < |l.consumers| && Resting(l) && TopologyConfirmed(l) && ConsumersActive(l, i) && RuntimeCreated(l, i) && Limited(l, l.consumers[i])
  {
    forall j | 0 <= j < i ensures f.consumers[j].name != f.consumers[i].name {
      assert ConsumerName(f.consumers[j]) != ConsumerName(f.consumers[i]);
    }
  }

  lemma ConsumerIsActive(f: Link, i: nat, s: ConsumerSpec)
    requires Resting(f) && AtItsPlace(f, Consume(i, s))
    ensures s.name in f.runtimes
    ensures var l := f.(runtimes := f.runtimes[s.name := f.runtimes[s.name].(active := true)]);
            Resting(l) && TopologyConfirmed(l) && ConsumersActive(l, i + 1)
  {
  }

  lemma NoDeclareInChain(f: Link, op: Op)
    requires AtItsPlace(f, op)
    ensures !op.Declare?
  {
  }

  lemma BootSuccessKeepsInv(l: Link, id: nat)
    requires LinkInv(l) && l.handshake && !l.ready && id in l.ops
    ensures l.ops[id].Qos? ==> l.ops[id].index < |l.consumers|
    ensures LinkInv(OnSuccess(l, id))
  {
    hide LinkInv, Resting, ChainGoesOn;
    FinishedRests(l, id);
    assert AtItsPlace(Finished(l, id), l.ops[id]);
    ChainKeepsInv(Finished(l, id), l.ops[id]);
  }

  // ---- run-time declarations keep it ----

  lemma UpsertMember<T, K>(list: seq<T>, key: T -> K, item: T, t: T)
    requires t in Upsert(list, key, item)
    ensures t == item || t in list
  {
  }

  lemma RememberConfirms(l: Link, d: Decl)
    requires TopologyConfirmed(l) && d in l.confirmed
    ensures TopologyConfirmed(Remember(l, d))
  {
    var l' := Remember(l, d);
    match d
    case X(x) =>
      forall j | 0 <= j < |l'.exchanges| ensures X(l'.exchanges[j]) in l'.confirmed {
        UpsertMember(l.exchanges, ExchangeName, x, l'.exchanges[j]);
      }
    case Q(q) =>
      forall j | 0 <= j < |l'.queues| ensures Q(l'.queues[j]) in l'.confirmed {
        UpsertMember(l.queues, QueueName, q, l'.queues[j]);
      }
    case B(b) =>
      forall j | 0 <= j < |l'.bindings| ensures B(l'.bindings[j]) in l'.confirmed {
        UpsertMember(l.bindings, BindingKey, b, l'.bindings[j]);
      }
  }

  lemma RememberKeepsUnique(l: Link, d: Decl)
    requires UniqueTopology(l)
    ensures UniqueTopology(Remember(l, d))
  {
    match d
    case X(x) => UpsertRefinesMapUpdate(l.exchanges, ExchangeName, x);
    case Q(q) => UpsertRefinesMapUpdate(l.queues, QueueName, q);
    case B(b) => UpsertRefinesMapUpdate(l.bindings, BindingKey, b);
  }

  lemma RememberNames(l: Link, d: Decl)
    requires UniqueTopology(l) && NamesRemembered(l)
    ensures NamesRemembered(Remember(Confirm(l, d), d))
  {
    match d
    case X(x) => UpsertRefinesMapUpdate(l.exchanges, ExchangeName, x);
    case Q(q) => UpsertRefinesMapUpdate(l.queues, QueueName, q);
    case B(b) => UpsertRefinesMapUpdate(l.bindings, BindingKey, b);
  }

  lemma DeclareKeepsInv(l: Link, id: nat)
    requires LinkInv(l) && l.ready && id in l.ops
    ensures LinkInv(OnSuccess(l, id))
  {
    hide UniqueTopology, TopologyConfirmed, NamesRemembered;
    var d := l.ops[id].decl;
    var f := Finished(l, id);
    FinishedKeepsFacts(l, id);
    ConfirmKeepsFacts(f, d);
    RememberConfirms(Confirm(f, d), d);
    RememberKeepsUnique(Confirm(f, d), d);
    RememberNames(f, d);
  }

  lemma FinishedKeepsFacts(l: Link, id: nat)
    requires UniqueTopology(l) && TopologyConfirmed(l) && NamesRemembered(l)
    ensures UniqueTopology(Finished(l, id)) && TopologyConfirmed(Finished(l, id)) && NamesRemembered(Finished(l, id))
  {
  }

  lemma ConfirmKeepsFacts(l: Link, d: Decl)
    requires UniqueTopology(l) && TopologyConfirmed(l)
    ensures UniqueTopology(Confirm(l, d)) && TopologyConfirmed(Confirm(l, d))
  {
  }

  lemma SuccessKeepsInv(l: Link, id: nat)
    requires LinkInv(l) && id in l.ops
    ensures l.ops[id].Qos? ==> l.ops[id].index < |l.consumers|
    ensures LinkInv(OnSuccess(l, id))
  {
    if l.ready { DeclareKeepsInv(l, id); } else { BootSuccessKeepsInv(l, id); }
  }

  /** An error ends a bootstrap with a request to disconnect; a failed run-time declaration asks for nothing. */
  lemma ErrorKeepsInv(l: Link, id: nat)
    requires LinkInv(l) && id in l.ops
    ensures LinkInv(OnError(l, id))
    ensures OnError(l, id).pendingDisconnect <==> l.pendingDisconnect || !l.ready
  {
    if !l.ready { FinishedRests(l, id); }
  }

  /** A run-time declaration is submitted only on a ready link. */
  lemma SubmitDeclareKeepsInv(l: Link, d: Decl, ticket: nat)
    requires LinkInv(l) && l.ready
    ensures LinkInv(Submit(l, Declare(d, ticket)))
  {
  }

  lemma SocketOpenKeepsInv(l: Link)
    requires LinkInv(l) && !l.connected
    ensures LinkInv(SocketOpen(l))
  {
  }

  lemma DropKeepsInv(l: Link, next: ConnectionState)
    requires LinkInv(l) && !next.Connected?
    ensures LinkInv(Drop(l, next))
  {
  }

  /** Callers see the state of a closed connection change; it never says connected. */
  lemma StateKeepsInv(l: Link, next: ConnectionState)
    requires LinkInv(l) && !l.connected && !next.Connected?
    ensures LinkInv(l.(state := next))
  {
    var l' := l.(state := next);
    assert UniqueTopology(l');
  }

  lemma TroubleKeepsInv(l: Link)
    requires LinkInv(l)
    ensures LinkInv(RequestDisconnect(l))
  {
    var l' := RequestDisconnect(l);
    assert UniqueTopology(l');
    if l.handshake && !l.ready { assert forall id :: id in l.ops ==> AtItsPlace(l', l'.ops[id]); }
  }

  // ---- what the chain leaves alone ----

  predicate SameConfig(l: Link, l': Link) {
    l'.exchanges == l.exchanges && l'.queues == l.queues && l'.bindings == l.bindings && l'.consumers == l.consumers
  }

  /** The chain submits at most one operation, never a run-time declaration. */
  predicate Advanced(l: Link, l': Link) {
    && SameConfig(l, l') && l'.connected == l.connected && l'.handshake == l.handshake && l'.epoch == l.epoch
    && (l'.state == l.state || l'.state.Connected?)
    && (l'.ops == l.ops ||
        (l.nextOp in l'.ops && !l'.ops[l.nextOp].Declare? && l'.ops == l.ops[l.nextOp := l'.ops[l.nextOp]]))
  }

  lemma StartAdvances(l: Link, i: nat)
    requires i < |l.consumers|
    ensures Advanced(l, StartConsumer(l, i))
  {
    if l.consumers[i].name in l.runtimes { assert StartConsumer(l, i) == Submit(l, Consume(i, l.consumers[i])); }
  }

  lemma ConsumersAdvance(l: Link, i: nat)
    ensures Advanced(l, BootstrapConsumers(l, i))
  {
    hide StartConsumer;
    if i < |l.consumers| {
      var spec := l.consumers[i];
      StartAdvances(OpenChannel(l, spec), i);
    }
  }

  lemma BindingsAdvance(l: Link, i: nat)
    ensures Advanced(l, BootstrapBindings(l, i))
  {
    ConsumersAdvance(l, 0);
  }

  lemma QueuesAdvance(l: Link, i: nat)
    ensures Advanced(l, BootstrapQueues(l, i))
  {
    BindingsAdvance(l, 0);
  }

  lemma ExchangesAdvance(l: Link, i: nat)
    ensures Advanced(l, BootstrapExchanges(l, i))
  {
    QueuesAdvance(l, 0);
  }

  lemma ChainAdvances(f: Link, op: Op)
    requires !op.Declare? && (op.Qos? ==> op.index < |f.consumers|)
    ensures Advanced(f, ChainGoesOn(f, op))
  {
    hide BootstrapExchanges, BootstrapQueues, BootstrapBindings, BootstrapConsumers;
    match op
    case BootExchange(i, x) => ExchangesAdvance(Confirm(f, X(x)), i + 1);
    case BootQueue(i, q) => QueuesAdvance(Confirm(f, Q(q)), i + 1);
    case BootBinding(i, b) => BindingsAdvance(Confirm(f, B(b)), i + 1);
    case Qos(i, _) =>
    case Consume(i, s) => ActivationAdvances(f, i, s);
  }

  lemma ActivationAdvances(f: Link, i: nat, s: ConsumerSpec)
    ensures Advanced(f, ChainGoesOn(f, Consume(i, s)))
  {
    hide BootstrapExchanges, BootstrapQueues, BootstrapBindings, BootstrapConsumers;
    ConsumersAdvance(f, i + 1);
    if s.name in f.runtimes {
      ConsumersAdvance(f.(runtimes := f.runtimes[s.name := f.runtimes[s.name].(active := true)]), i + 1);
    }
  }

  /** Only the chain submits something when a callback fires. */
  lemma CallbackOps(l: Link, id: nat)
    requires id in l.ops && (l.ops[id].Qos? ==> l.ops[id].index < |l.consumers|)
    ensures OnError(l, id).ops == Finished(l, id).ops
    ensures l.ops[id].Declare? ==> OnSuccess(l, id).ops == Finished(l, id).ops
  {
    hide ChainGoesOn;
  }

  /** A callback of the chain leaves the remembered topology alone. */
  lemma BootSuccessAdvances(l: Link, id: nat)
    requires id in l.ops && !l.ops[id].Declare? && (l.ops[id].Qos? ==> l.ops[id].index < |l.consumers|)
    ensures Advanced(Finished(l, id), OnSuccess(l, id))
  {
    hide ChainGoesOn, Advanced;
    ChainAdvances(Finished(l, id), l.ops[id]);
  }
}
