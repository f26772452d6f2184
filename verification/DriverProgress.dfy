/** If the broker confirms every operation, the bootstrap ends, and it ends ready. */
module DriverProgress {
  import opened Prelude
  import opened BusConfig
  import opened KeyedLists
  import opened DriverLink
  import opened DriverBootstrap
  import opened DriverModel
  import opened DriverInvariants

  /** Ready with nothing outstanding, or waiting for the broker; not about to disconnect. */
  predicate Calm(l: Link) { !l.pendingDisconnect && (l.ready <==> l.ops == map[]) }

  lemma StartIsCalm(l: Link, i: nat)
    requires Resting(l) && !l.pendingDisconnect && i < |l.consumers| && l.consumers[i].name in l.runtimes
    ensures Calm(StartConsumer(l, i))
  {
    assert l.nextOp in StartConsumer(l, i).ops;
  }

  lemma ConsumersCalm(l: Link, i: nat)
    requires Resting(l) && !l.pendingDisconnect
    ensures Calm(BootstrapConsumers(l, i))
  {
    if i < |l.consumers| {
      var spec := l.consumers[i];
      StartIsCalm(OpenChannel(l, spec), i);
      assert spec.prefetchCount > 0 ==> l.nextOp in BootstrapConsumers(l, i).ops;
    }
  }

  lemma BindingsCalm(l: Link, i: nat)
    requires Resting(l) && !l.pendingDisconnect
    ensures Calm(BootstrapBindings(l, i))
  {
    if i < |l.bindings| { assert l.nextOp in BootstrapBindings(l, i).ops; } else { ConsumersCalm(l, 0); }
  }

  lemma QueuesCalm(l: Link, i: nat)
    requires Resting(l) && !l.pendingDisconnect
    ensures Calm(BootstrapQueues(l, i))
  {
    if i < |l.queues| { assert l.nextOp in BootstrapQueues(l, i).ops; } else { BindingsCalm(l, 0); }
  }

  lemma ExchangesCalm(l: Link, i: nat)
    requires Resting(l) && !l.pendingDisconnect
    ensures Calm(BootstrapExchanges(l, i))
  {
    if i < |l.exchanges| { assert l.nextOp in BootstrapExchanges(l, i).ops; } else { QueuesCalm(l, 0); }
  }

  lemma ChainIsCalm(f: Link, op: Op)
    requires Resting(f) && !f.pendingDisconnect && AtItsPlace(f, op)
    ensures Calm(ChainGoesOn(f, op))
  {
    hide BootstrapExchanges, BootstrapQueues, BootstrapBindings, BootstrapConsumers, StartConsumer, Calm,
         TopologyConfirmed, ExchangesConfirmed, QueuesConfirmed, BindingsConfirmed, ConsumersActive;
    match op
    case BootExchange(i, x) => MoreConfirmed(f, X(x)); ExchangesCalm(Confirm(f, X(x)), i + 1);
    case BootQueue(i, q) => MoreConfirmed(f, Q(q)); QueuesCalm(Confirm(f, Q(q)), i + 1);
    case BootBinding(i, b) => MoreConfirmed(f, B(b)); BindingsCalm(Confirm(f, B(b)), i + 1);
    case Qos(i, n) => StartIsCalm(Limit(f, f.consumers[i].name, n), i);
    case Consume(i, s) => ConsumersCalm(f.(runtimes := f.runtimes[s.name := f.runtimes[s.name].(active := true)]), i + 1);
  }

  lemma MoreConfirmed(f: Link, d: Decl)
    requires Resting(f)
    requires match d case X(x) => x in f.exchanges case Q(q) => q in f.queues case B(b) => b in f.bindings
    ensures Resting(Confirm(f, d))
  {
  }

  lemma AnswerIsCalm(l: Link, id: nat)
    requires LinkInv(l) && l.handshake && !l.ready && !l.pendingDisconnect && id in l.ops
    ensures !l.ops[id].Declare? && (l.ops[id].Qos? ==> l.ops[id].index < |l.consumers|)
    ensures Calm(OnSuccess(l, id))
  {
    hide LinkInv, Resting, ChainGoesOn, Calm;
    FinishedRests(l, id);
    assert AtItsPlace(Finished(l, id), l.ops[id]);
    ChainIsCalm(Finished(l, id), l.ops[id]);
  }

  predicate OnlyConfirmations(run: seq<Event>) { forall i :: 0 <= i < |run| ==> run[i].OpSucceeds? }

  /** Confirmations alone lead from any point of the bootstrap to ready: there cannot be more of them
      than this, and when no more is possible the connection is ready. */
  lemma {:induction false} ConfirmationsMakeReady(c: Settings, d: Driver, id: nat, run: seq<Event>, d': Driver)
    requires Inv(c, d) && d.pc.Pump? && d.link.handshake && !d.link.ready && !d.link.pendingDisconnect && id in d.link.ops
    requires Runs(c, d, run, d') && OnlyConfirmations(run)
    ensures |run| <= AnswersLeft(d.link, d.link.ops[id])
    ensures d'.link.ops == map[] <==> d'.link.ready
    decreases |run|
  {
    assert d.link.ops != map[] && (forall other :: other in d.link.ops ==> other == id);
    if run == [] {
      LeftIsPositive(d.link, id);
    } else {
      Answered(c, d, id, run[0]);
      var next := Step(c, d, run[0]);
      InvStep(c, d, run[0]);
      hide Inv, LinkInv, AnswersLeft;
      if next.link.ready {
        NothingMore(c, next, run[1..], d');
      } else {
        var id' :| id' in next.link.ops;
        ConfirmationsMakeReady(c, next, id', run[1..], d');
      }
    }
  }

  lemma LeftIsPositive(l: Link, id: nat)
    requires LinkInv(l) && l.handshake && !l.ready && id in l.ops
    ensures AnswersLeft(l, l.ops[id]) >= 1
  {
    AnswerInRange(l, id);
    BootstrapMeasure(l, id);
  }

  lemma AnswerInRange(l: Link, id: nat)
    requires LinkInv(l) && l.handshake && !l.ready && id in l.ops
    ensures l.ops[id].Qos? ==> l.ops[id].index < |l.consumers|
  {
    assert AtItsPlace(l, l.ops[id]);
  }

  /** One confirmation. */
  lemma Answered(c: Settings, d: Driver, id: nat, e: Event)
    requires Inv(c, d) && d.pc.Pump? && d.link.handshake && !d.link.ready && !d.link.pendingDisconnect
    requires Enabled(c, d, e) && e == OpSucceeds(id)
    ensures var next := Step(c, d, e);
            && next.pc.Pump? && next.link.handshake && Calm(next.link)
            && AtMost(next.link, AnswersLeft(d.link, d.link.ops[id]) - 1) && AnswersLeft(d.link, d.link.ops[id]) >= 1
  {
    hide LinkInv, ThreadInv, QueueInv, PromiseInv, AnswerInv, WaitInv, WorkInv, ClockInv, AttemptInv, Calm, OnSuccess, AtMost;
    AnswerIsCalm(d.link, id);
    BootstrapMeasure(d.link, id);
    BootSuccessAdvances(d.link, id);
  }

  lemma NothingMore(c: Settings, d: Driver, run: seq<Event>, d': Driver)
    requires d.link.ops == map[] && OnlyConfirmations(run) && Runs(c, d, run, d')
    ensures run == []
  {
  }
}
