/** The limit on unanswered deliveries that each consumer's channel is given before it consumes. */
module DriverLimits {
  import opened Prelude
  import opened BusConfig
  import opened DriverLink
  import opened DriverModel
  import opened DriverInvariants
  import opened DriverResults

  /** In every reachable state a consumer that runs, and one whose consume has been submitted, has had
      exactly its configured limit accepted by the broker on this connection, and none if it has none. */
  lemma ConsumersAreLimited(c: Settings, config: Config, d: Driver)
    requires Consistent(config) && Reachable(c, config, d)
    ensures forall n :: n in d.link.runtimes && d.link.runtimes[n].active ==>
              var s := d.link.runtimes[n].spec;
              s.name == n && (if s.prefetchCount > 0 then n in d.link.prefetch && d.link.prefetch[n] == s.prefetchCount
                              else n !in d.link.prefetch)
    ensures forall id :: id in d.link.ops && d.link.ops[id].Consume? ==>
              var s := d.link.ops[id].consumer;
              if s.prefetchCount > 0 then s.name in d.link.prefetch && d.link.prefetch[s.name] == s.prefetchCount
              else s.name !in d.link.prefetch
  {
    ReachableInv(c, config, d);
    LinkIsLimited(d.link);
  }

  lemma LinkIsLimited(l: Link)
    requires LinkInv(l)
    ensures ActiveLimited(l) && forall id :: id in l.ops && l.ops[id].Consume? ==> Limited(l, l.ops[id].consumer)
  {
    forall id | id in l.ops && l.ops[id].Consume? ensures Limited(l, l.ops[id].consumer) {
      assert AtItsPlace(l, l.ops[id]);
    }
  }

  // ---- a limit is what the broker has accepted, and nothing else ----

  predicate NoNewLimit(l: Link, l': Link) {
    forall n :: n in l'.prefetch ==> n in l.prefetch && l'.prefetch[n] == l.prefetch[n]
  }

  lemma StartLimit(l: Link, i: nat)
    requires i < |l.consumers|
    ensures StartConsumer(l, i).prefetch == l.prefetch
  {
  }

  lemma ConsumersLimit(l: Link, i: nat)
    ensures NoNewLimit(l, BootstrapConsumers(l, i))
  {
    hide StartConsumer;
    if i < |l.consumers| { StartLimit(OpenChannel(l, l.consumers[i]), i); }
  }

  lemma BindingsLimit(l: Link, i: nat)
    ensures NoNewLimit(l, BootstrapBindings(l, i))
  {
    hide BootstrapConsumers;
    ConsumersLimit(l, 0);
  }

  lemma QueuesLimit(l: Link, i: nat)
    ensures NoNewLimit(l, BootstrapQueues(l, i))
  {
    hide BootstrapBindings;
    BindingsLimit(l, 0);
  }

  lemma ExchangesLimit(l: Link, i: nat)
    ensures NoNewLimit(l, BootstrapExchanges(l, i))
  {
    hide BootstrapQueues;
    QueuesLimit(l, 0);
  }

  lemma ChainLimits(f: Link, op: Op)
    requires !op.Declare? && (op.Qos? ==> op.index < |f.consumers|)
    ensures !op.Qos? ==> NoNewLimit(f, ChainGoesOn(f, op))
    ensures op.Qos? ==> NoNewLimit(Limit(f, f.consumers[op.index].name, op.count), ChainGoesOn(f, op))
  {
    hide BootstrapExchanges, BootstrapQueues, BootstrapBindings, BootstrapConsumers, StartConsumer;
    match op
    case BootExchange(i, x) => ExchangesLimit(Confirm(f, X(x)), i + 1);
    case BootQueue(i, q) => QueuesLimit(Confirm(f, Q(q)), i + 1);
    case BootBinding(i, b) => BindingsLimit(Confirm(f, B(b)), i + 1);
    case Qos(i, n) => StartLimit(Limit(f, f.consumers[i].name, n), i);
    case Consume(i, s) =>
      ConsumersLimit(if s.name in f.runtimes then f.(runtimes := f.runtimes[s.name := f.runtimes[s.name].(active := true)]) else f,
                     i + 1);
  }

  predicate SameConsumers(l: Link, l': Link) {
    l'.prefetch == l.prefetch && l'.consumers == l.consumers && l'.runtimes == l.runtimes
  }

  lemma RememberLeavesConsumers(l: Link, decl: Decl)
    ensures SameConsumers(l, Remember(Confirm(l, decl), decl))
  {
    match decl
    case X(_) =>
    case Q(_) =>
    case B(_) =>
  }

  lemma SuccessGoesOn(l: Link, id: nat)
    requires id in l.ops && (l.ops[id].Qos? ==> l.ops[id].index < |l.consumers|)
    ensures SameConsumers(l, Finished(l, id)) && SameConsumers(l, OnError(l, id))
    ensures l.ops[id].Declare? ==> SameConsumers(l, OnSuccess(l, id))
    ensures !l.ops[id].Declare? ==> OnSuccess(l, id) == ChainGoesOn(Finished(l, id), l.ops[id])
  {
    hide ChainGoesOn, Remember, Confirm;
    if l.ops[id].Declare? { RememberLeavesConsumers(Finished(l, id), l.ops[id].decl); }
  }

  lemma SuccessLimits(l: Link, id: nat, name: string)
    requires id in l.ops && (l.ops[id].Qos? ==> l.ops[id].index < |l.consumers|)
    requires var l' := OnSuccess(l, id); name in l'.prefetch && (name !in l.prefetch || l.prefetch[name] != l'.prefetch[name])
    ensures l.ops[id].Qos? && l.consumers[l.ops[id].index].name == name && l.ops[id].count == OnSuccess(l, id).prefetch[name]
  {
    hide OnSuccess, ChainGoesOn, Finished;
    SuccessGoesOn(l, id);
    if !l.ops[id].Declare? { ChainLimits(Finished(l, id), l.ops[id]); }
  }

  lemma OthersLimitNothing(c: Settings, d: Driver, e: Event)
    requires Enabled(c, d, e) && !e.OpSucceeds?
    ensures NoNewLimit(d.link, Step(c, d, e).link)
  {
    hide BootstrapExchanges, FreshTag, ShouldAttempt, PassesChecks;
    match e
    case Handshake => ExchangesLimit(d.link.(handshake := true), 0);
    case Execute(_) =>
    case TaskRuns(_, _) =>
    case Deliver(_, _, _, _) =>
    case OpFails(_) =>
    case Attempt(_) =>
    case DropNow =>
    case _ =>
  }

  /** A limit comes about, or changes, only when the broker accepts it for this consumer's channel. */
  lemma OnlyTheBrokerLimits(c: Settings, d: Driver, e: Event, name: string)
    requires Enabled(c, d, e)
    requires var l' := Step(c, d, e).link;
             name in l'.prefetch && (name !in d.link.prefetch || d.link.prefetch[name] != l'.prefetch[name])
    ensures e.OpSucceeds? && d.link.ops[e.id].Qos? && d.link.consumers[d.link.ops[e.id].index].name == name
    ensures d.link.ops[e.id].count == Step(c, d, e).link.prefetch[name]
  {
    hide OnSuccess, OnError;
    if e.OpSucceeds? { SuccessLimits(d.link, e.id, name); } else { OthersLimitNothing(c, d, e); }
  }
}
