/** What every run of the driver keeps, whatever the broker, the socket, the callers, the handlers
    and the schedule do. */
module DriverInvariants {
  import opened Prelude
  import opened Backoff
  import opened BusConfig
  import opened KeyedLists
  import opened DriverLink
  import opened DriverModel

  // ---- the thread and the connection ----

  predicate ThreadInv(d: Driver) {
    && (d.pc.NoThread? || d.pc.Exited? ==> !d.link.connected)
    && (d.pc.Pump? || d.pc.SelfWait? ==> d.link.connected)
    && (d.pc == Failing(false) ==> d.link.connected)
    && (d.pc == Failing(true) ==> d.stopRequested)
    && (d.queue.local != [] ==> d.pc.Drain?)
    && (d.pc.Exited? && !d.stopRequested ==> d.link.state.Error?)
  }

  // ---- the command queue is a FIFO ----

  ghost predicate QueueInv(q: Queue) {
    && q.accepted == q.executed + q.local + q.commands
    && (forall i :: 0 <= i < |q.accepted| ==> q.accepted[i].ticket == i)
  }

  lemma AcceptKeepsQueue(q: Queue, command: Command)
    requires QueueInv(q)
    ensures QueueInv(Accept(q, command))
  {
    var q' := Accept(q, command);
    assert q'.accepted == q'.executed + q'.local + q'.commands;
  }

  lemma SwapKeepsQueue(q: Queue)
    requires QueueInv(q) && q.local == []
    ensures QueueInv(q.(local := q.commands, commands := []))
  {
    var q' := q.(local := q.commands, commands := []);
    assert q'.accepted == q'.executed + q'.local + q'.commands;
  }

  lemma PopKeepsQueue(q: Queue)
    requires QueueInv(q) && q.local != []
    ensures QueueInv(Popped(q)) && q.local[0].ticket == |q.executed| && Popped(q).executed <= q.accepted
    ensures q.local[0] == q.accepted[|q.executed|]
  {
    var q' := Popped(q);
    assert q.local == [q.local[0]] + q.local[1..];
    assert q'.executed + q'.local + q'.commands == q.executed + ([q.local[0]] + q.local[1..]) + q.commands;
    assert q.accepted[|q.executed|] == q.local[0];
  }

  // ---- each promise is set once ----

  /** A command that has run owes its caller an answer while its operation is outstanding, and has
      given it otherwise; no answer is given twice. */
  ghost predicate PromiseInv(q: Queue, ops: map<nat, Op>) {
    && Distinct(q.completions) && (forall t :: t in q.completions <==> t in q.answers)
    && (forall t :: t in q.completions ==> t < |q.executed|)
    && (forall id :: id in ops && ops[id].Declare? ==> ops[id].ticket < |q.executed| && ops[id].ticket !in q.completions)
    && (forall id, id' :: id in ops && id' in ops && id != id' && ops[id].Declare? && ops[id'].Declare? ==>
          ops[id].ticket != ops[id'].ticket)
  }

  /** Only a declaration can be left without an answer by a command that has run. */
  ghost predicate AnswerInv(q: Queue) {
    forall i :: 0 <= i < |q.executed| && !q.executed[i].command.DeclareOne? ==> q.executed[i].ticket in q.completions
  }

  /** What the driver thread waits for has not run. */
  ghost predicate WaitInv(d: Driver) {
    d.pc.SelfWait? ==> |d.queue.executed| <= d.pc.ticket < |d.queue.accepted|
  }

  // ---- deliveries ----

  /** A delivery is the one recorded under its number. */
  predicate Recorded(w: Work, x: Delivery) { x.id < |w.deliveries| && w.deliveries[x.id] == x }

  ghost predicate TasksOnce(w: Work) {
    && (forall k :: 0 <= k < |w.tasks| ==> Recorded(w, w.tasks[k].delivery))
    && (forall j, k :: 0 <= j < k < |w.tasks| ==> w.tasks[j].delivery.id != w.tasks[k].delivery.id)
  }

  /** A delivery is settled by one command at most, and only if the broker expects it. */
  ghost predicate SettlesOnce(q: Queue, w: Work) {
    && (forall i :: 0 <= i < |q.accepted| && q.accepted[i].command.Settle? ==>
          var s := q.accepted[i].command;
          Recorded(w, s.delivery) && !s.delivery.autoAck && s.action == ActionFor(s.verdict))
    && (forall i, j :: 0 <= i < j < |q.accepted| && q.accepted[i].command.Settle? && q.accepted[j].command.Settle? ==>
          q.accepted[i].command.delivery.id != q.accepted[j].command.delivery.id)
    && (forall i, k :: 0 <= i < |q.accepted| && q.accepted[i].command.Settle? && 0 <= k < |w.tasks| ==>
          q.accepted[i].command.delivery.id != w.tasks[k].delivery.id)
  }

  predicate SameChannel(x: Delivery, y: Delivery) { x.epoch == y.epoch && x.consumer == y.consumer }

  /** The broker numbers the deliveries of a channel, that is of a consumer within one connection, and
      none is answered before it has arrived. */
  ghost predicate Numbered(w: Work, epoch: nat) {
    && (forall i :: 0 <= i < |w.deliveries| ==> w.deliveries[i].id == i && w.deliveries[i].epoch <= epoch)
    && (forall i, j :: 0 <= i < j < |w.deliveries| && SameChannel(w.deliveries[i], w.deliveries[j]) ==>
          w.deliveries[i].tag != w.deliveries[j].tag)
    && (forall s :: s in w.settled ==> s.delivery.epoch <= s.epoch <= epoch)
  }

  /** The settlements are executed commands, in order and without repetition. */
  ghost predicate SettledFromQueue(q: Queue, w: Work) {
    && (forall i :: 0 <= i < |w.settled| ==>
          w.settled[i].ticket < |q.executed| && w.settled[i].ticket < |q.accepted| &&
          q.accepted[w.settled[i].ticket].command ==
            Settle(w.settled[i].delivery, w.settled[i].verdict, w.settled[i].action))
    && (forall i, j :: 0 <= i < j < |w.settled| ==> w.settled[i].ticket < w.settled[j].ticket)
  }

  ghost predicate WorkInv(d: Driver) {
    TasksOnce(d.work) && SettlesOnce(d.queue, d.work) && Numbered(d.work, d.link.epoch) && SettledFromQueue(d.queue, d.work)
  }

  // ---- backing off ----

  ghost predicate ClockInv(c: Settings, d: Driver) {
    && d.clock.delay == DelayAfter(c.initialDelay, c.maxDelay, d.clock.failures)
    && (d.clock.failures > 0 ==>
          d.clock.nextAt == d.clock.lastFailure + DelayAfter(c.initialDelay, c.maxDelay, d.clock.failures - 1))
  }

  /** Without reconnecting there is at most one attempt per start, and no failure before it. */
  ghost predicate AttemptInv(c: Settings, d: Driver) {
    !c.enabled ==>
      && d.clock.attempts <= 1
      && (d.link.connected || d.link.state.Connecting? ==> d.clock.failures == 0)
      && (d.clock.attempts == 1 && !d.link.connected ==> !d.link.state.Connecting?)
  }

  ghost predicate Inv(c: Settings, d: Driver) {
    && LinkInv(d.link) && ThreadInv(d) && QueueInv(d.queue) && PromiseInv(d.queue, d.link.ops) && AnswerInv(d.queue)
    && WaitInv(d) && WorkInv(d) && ClockInv(c, d) && AttemptInv(c, d)
  }

  // ---- the link and the thread, event by event ----

  lemma LinkStep(c: Settings, d: Driver, e: Event)
    requires LinkInv(d.link) && ThreadInv(d) && Enabled(c, d, e)
    ensures LinkInv(Step(c, d, e).link)
  {
    hide LinkInv, UniqueTopology, OnReady, OnSuccess, OnError, ShouldAttempt;
    match e
    case Start(socketOk) => StateKeepsInv(d.link, if socketOk then Connecting else Error);
    case StopRequest => if d.pc.NoThread? { StateKeepsInv(d.link, Stopped); }
    case Join => StateKeepsInv(d.link, Stopped);
    case Execute(_) =>
      if d.queue.local[0].command.DeclareOne? && d.link.ready {
        SubmitDeclareKeepsInv(d.link, d.queue.local[0].command.decl, d.queue.local[0].ticket);
      }
    case Attempt(ok) => if ok { SocketOpenKeepsInv(d.link); } else { StateKeepsInv(d.link, AfterFailure(c)); }
    case Handshake => HandshakeKeepsInv(d.link);
    case OpSucceeds(id) => SuccessKeepsInv(d.link, id);
    case OpFails(id) => ErrorKeepsInv(d.link, id);
    case Trouble => TroubleKeepsInv(d.link);
    case DropNow => DropKeepsInv(d.link, if d.stopRequested then Stopped else AfterFailure(c));
    case _ =>
  }

  /** Which way the connection may change while the thread pumps. */
  predicate SameConnection(l: Link, l': Link) {
    l'.connected == l.connected && l'.epoch == l.epoch && (l'.state == l.state || l'.state.Connected?)
  }

  lemma CallbackKeepsConnection(l: Link, id: nat)
    requires id in l.ops && (l.ops[id].Qos? ==> l.ops[id].index < |l.consumers|)
    ensures SameConnection(l, OnSuccess(l, id)) && SameConnection(l, OnError(l, id))
  {
    hide ChainGoesOn;
    if !l.ops[id].Declare? { BootSuccessAdvances(l, id); }
  }

  lemma HandshakeKeepsConnection(l: Link)
    ensures SameConnection(l, OnReady(l))
  {
    hide BootstrapExchanges;
    ExchangesAdvance(l.(handshake := true), 0);
  }

  lemma ThreadStep(c: Settings, d: Driver, e: Event)
    requires ThreadInv(d) && Enabled(c, d, e)
    ensures ThreadInv(Step(c, d, e))
  {
    hide OnReady, OnSuccess, OnError, ShouldAttempt, FreshTag, PassesChecks, BackOff;
    match e
    case Start(_) =>
    case StopRequest =>
    case Join =>
    case Tick(_) =>
    case Call(_) =>
    case TaskRuns(_, _) =>
    case LoopTest =>
    case SwapQueue =>
    case Execute(_) =>
    case DrainDone =>
    case SkipAttempt =>
    case Attempt(_) =>
    case BeginPump =>
    case Handshake => HandshakeKeepsConnection(d.link);
    case OpSucceeds(id) => CallbackKeepsConnection(d.link, id);
    case OpFails(id) => CallbackKeepsConnection(d.link, id);
    case Trouble =>
    case Deliver(_, _, _, _) =>
    case EndPump =>
    case DropNow =>
  }

  lemma QueueStep(c: Settings, d: Driver, e: Event)
    requires QueueInv(d.queue) && ThreadInv(d) && Enabled(c, d, e)
    ensures QueueInv(Step(c, d, e).queue)
  {
    match e
    case Call(command) => AcceptKeepsQueue(d.queue, command);
    case TaskRuns(k, outcome) =>
      var v := VerdictOf(d.work.tasks[k], outcome);
      AcceptKeepsQueue(d.queue, Settle(d.work.tasks[k].delivery, v, ActionFor(v)));
    case SwapQueue => SwapKeepsQueue(d.queue);
    case Execute(_) => PopKeepsQueue(d.queue);
    case Deliver(consumer, tag, _, _) =>
      var x := NewDelivery(d, consumer, tag);
      AcceptKeepsQueue(d.queue, Settle(x, NotSubmitted, ActionFor(NotSubmitted)));
    case _ =>
  }

  lemma ClockStep(c: Settings, d: Driver, e: Event)
    requires ClockInv(c, d) && Enabled(c, d, e)
    ensures ClockInv(c, Step(c, d, e))
  {
    match e
    case Attempt(_) =>
    case DropNow =>
    case _ =>
  }

  lemma AttemptStep(c: Settings, d: Driver, e: Event)
    requires AttemptInv(c, d) && ThreadInv(d) && Enabled(c, d, e)
    ensures AttemptInv(c, Step(c, d, e))
  {
    hide OnReady, OnSuccess, OnError, FreshTag, PassesChecks;
    match e
    case Start(_) =>
    case StopRequest =>
    case Join =>
    case TaskRuns(_, _) =>
    case Execute(_) =>
    case Attempt(_) =>
    case Handshake => HandshakeKeepsConnection(d.link);
    case OpSucceeds(id) => CallbackKeepsConnection(d.link, id);
    case OpFails(id) => CallbackKeepsConnection(d.link, id);
    case Deliver(_, _, _, _) =>
    case DropNow =>
    case _ =>
  }

  // ---- promises, event by event ----

  lemma AdvanceKeepsPromises(q: Queue, l: Link, l': Link)
    requires PromiseInv(q, l.ops) && Advanced(l, l')
    ensures PromiseInv(q, l'.ops)
  {
  }

  /** A command that answers at once. */
  lemma AnswerKeepsPromises(q: Queue, ops: map<nat, Op>, answer: Status)
    requires PromiseInv(q, ops) && QueueInv(q) && q.local != []
    ensures PromiseInv(Complete(Popped(q), q.local[0].ticket, answer), ops)
  {
    PopKeepsQueue(q);
    AppendDistinct(q.completions, q.local[0].ticket);
  }

  /** A declaration that leaves its answer to the broker. */
  lemma DeferKeepsPromises(q: Queue, l: Link, decl: Decl)
    requires PromiseInv(q, l.ops) && QueueInv(q) && q.local != [] && LinkInv(l)
    ensures PromiseInv(Popped(q), Submit(l, Declare(decl, q.local[0].ticket)).ops)
  {
    hide LinkInv;
    PopKeepsQueue(q);
  }

  lemma ExecuteKeepsPromises(d: Driver, channelOk: bool)
    requires PromiseInv(d.queue, d.link.ops) && QueueInv(d.queue) && d.queue.local != [] && LinkInv(d.link)
    ensures var d' := ExecuteOne(d, channelOk); PromiseInv(d'.queue, d'.link.ops)
  {
    hide LinkInv, PromiseInv, QueueInv;
    match d.queue.local[0].command
    case Publish(_) =>
      AnswerKeepsPromises(d.queue, d.link.ops, if !d.link.ready then Failure(Disconnected) else LocalAnswer(channelOk));
    case DeclareOne(decl) =>
      if d.link.ready {
        DeferKeepsPromises(d.queue, d.link, decl);
      } else {
        AnswerKeepsPromises(d.queue, d.link.ops, Failure(Disconnected));
      }
    case Settle(x, _, _) =>
      AnswerKeepsPromises(d.queue, d.link.ops,
                          if x.consumer !in d.link.runtimes then Failure(Disconnected) else LocalAnswer(channelOk));
  }

  lemma FinishedKeepsPromises(q: Queue, l: Link, id: nat)
    requires PromiseInv(q, l.ops) && id in l.ops
    ensures PromiseInv(q, Finished(l, id).ops)
  {
  }

  /** The broker's answer to a declaration is passed on once. */
  lemma PassOnKeepsPromises(q: Queue, l: Link, id: nat, answer: Status)
    requires PromiseInv(q, l.ops) && id in l.ops && l.ops[id].Declare?
    ensures PromiseInv(Complete(q, l.ops[id].ticket, answer), Finished(l, id).ops)
  {
    AppendDistinct(q.completions, l.ops[id].ticket);
  }

  lemma OutcomeKeepsPromises(d: Driver, id: nat, ok: bool)
    requires PromiseInv(d.queue, d.link.ops) && id in d.link.ops
    requires d.link.ops[id].Qos? ==> d.link.ops[id].index < |d.link.consumers|
    ensures var d' := OpOutcome(d, id, ok); PromiseInv(d'.queue, d'.link.ops)
  {
    hide PromiseInv, OnSuccess, OnError, ChainGoesOn, Advanced, Complete, Finished;
    CallbackOps(d.link, id);
    if d.link.ops[id].Declare? {
      PassOnKeepsPromises(d.queue, d.link, id, LocalAnswer(ok));
    } else {
      FinishedKeepsPromises(d.queue, d.link, id);
      if ok {
        BootSuccessAdvances(d.link, id);
        AdvanceKeepsPromises(d.queue, Finished(d.link, id), OnSuccess(d.link, id));
      }
    }
  }

  lemma PromiseStep(c: Settings, d: Driver, e: Event)
    requires PromiseInv(d.queue, d.link.ops) && QueueInv(d.queue) && LinkInv(d.link) && Enabled(c, d, e)
    ensures var d' := Step(c, d, e); PromiseInv(d'.queue, d'.link.ops)
  {
    hide LinkInv, QueueInv, OnSuccess, OnError, ExecuteOne, OpOutcome, FreshTag, ShouldAttempt, BootstrapExchanges;
    match e
    case Execute(channelOk) => ExecuteKeepsPromises(d, channelOk);
    case Handshake =>
      ExchangesAdvance(d.link.(handshake := true), 0);
      AdvanceKeepsPromises(d.queue, d.link.(handshake := true), OnReady(d.link));
    case OpSucceeds(id) => OutcomeKeepsPromises(d, id, true);
    case OpFails(id) => OutcomeKeepsPromises(d, id, false);
    case TaskRuns(_, _) =>
    case Deliver(_, _, _, _) =>
    case DropNow =>
    case Attempt(_) =>
    case _ =>
  }

  // ---- deliveries, event by event ----

  lemma AcceptKeepsWork(q: Queue, w: Work, command: Command, epoch: nat)
    requires QueueInv(q) && TasksOnce(w) && SettlesOnce(q, w) && SettledFromQueue(q, w)
    requires command.Settle? ==>
               && Recorded(w, command.delivery) && !command.delivery.autoAck && command.action == ActionFor(command.verdict)
               && (forall k :: 0 <= k < |w.tasks| ==> w.tasks[k].delivery.id != command.delivery.id)
               && (forall i :: 0 <= i < |q.accepted| && q.accepted[i].command.Settle? ==>
                     q.accepted[i].command.delivery.id != command.delivery.id)
    ensures SettlesOnce(Accept(q, command), w) && SettledFromQueue(Accept(q, command), w)
  {
  }

  lemma TaskKeepsWork(d: Driver, k: nat, outcome: Outcome)
    requires QueueInv(d.queue) && WorkInv(d) && k < |d.work.tasks|
    ensures WorkInv(RunTask(d, k, outcome))
  {
    hide QueueInv, TasksOnce, SettlesOnce, Numbered, SettledFromQueue, VerdictOf;
    var t := d.work.tasks[k];
    var v := VerdictOf(t, outcome);
    var w := d.work.(tasks := d.work.tasks[..k] + d.work.tasks[k + 1..]);
    TakenTaskKeepsWork(d.queue, d.work, k, d.link.epoch);
    if !NeedsNoSettling(t.delivery) {
      AcceptKeepsWork(d.queue, w, Settle(t.delivery, v, ActionFor(v)), d.link.epoch);
    }
  }

  /** A task that a worker has taken is in no other task or command. */
  lemma TakenTaskKeepsWork(q: Queue, w: Work, k: nat, epoch: nat)
    requires k < |w.tasks| && TasksOnce(w) && SettlesOnce(q, w) && Numbered(w, epoch) && SettledFromQueue(q, w)
    ensures var x, w' := w.tasks[k].delivery, w.(tasks := w.tasks[..k] + w.tasks[k + 1..]);
            && TasksOnce(w') && SettlesOnce(q, w') && Numbered(w', epoch) && SettledFromQueue(q, w')
            && Recorded(w', x)
            && (forall i :: 0 <= i < |w'.tasks| ==> w'.tasks[i].delivery.id != x.id)
            && (forall i :: 0 <= i < |q.accepted| && q.accepted[i].command.Settle? ==> q.accepted[i].command.delivery.id != x.id)
  {
    var w' := w.(tasks := w.tasks[..k] + w.tasks[k + 1..]);
    assert forall i :: 0 <= i < |w'.tasks| ==> w'.tasks[i] == w.tasks[if i < k then i else i + 1];
  }

  lemma NewDeliveryKeepsWork(d: Driver, x: Delivery)
    requires WorkInv(d) && x.id == |d.work.deliveries| && x.epoch == d.link.epoch && FreshTag(d, x.consumer, x.tag)
    ensures var w := d.work.(deliveries := d.work.deliveries + [x]);
            TasksOnce(w) && SettlesOnce(d.queue, w) && Numbered(w, d.link.epoch) && SettledFromQueue(d.queue, w)
  {
    var w := d.work.(deliveries := d.work.deliveries + [x]);
    assert forall y :: Recorded(d.work, y) ==> Recorded(w, y);
    forall i | 0 <= i < |d.work.deliveries| && SameChannel(d.work.deliveries[i], x)
      ensures d.work.deliveries[i].tag != x.tag
    {
      assert d.work.deliveries[i] in d.work.deliveries;
    }
  }

  lemma DeliverKeepsWork(d: Driver, consumer: string, tag: nat, hasHandler: bool, pool: PoolAnswer)
    requires QueueInv(d.queue) && WorkInv(d) && consumer in d.link.runtimes && FreshTag(d, consumer, tag)
    ensures WorkInv(DeliverOne(d, consumer, tag, hasHandler, pool))
  {
    hide QueueInv, FreshTag, SettledFromQueue;
    var x := NewDelivery(d, consumer, tag);
    var w := d.work.(deliveries := d.work.deliveries + [x]);
    NewDeliveryKeepsWork(d, x);
    if pool.Submitted? {
      var w' := w.(tasks := w.tasks + [Task(x, hasHandler)]);
      SettledSame(d.queue, w, w');
    } else if !NeedsNoSettling(x) && Running(d) {
      AcceptKeepsWork(d.queue, w, Settle(x, NotSubmitted, ActionFor(NotSubmitted)), d.link.epoch);
    }
  }

  lemma SettledSame(q: Queue, w: Work, w': Work)
    requires SettledFromQueue(q, w) && w'.settled == w.settled
    ensures SettledFromQueue(q, w')
  {
  }

  lemma ProgressKeepsWork(q: Queue, q': Queue, w: Work)
    requires SettlesOnce(q, w) && SettledFromQueue(q, w) && q'.accepted == q.accepted && |q.executed| <= |q'.executed|
    ensures SettlesOnce(q', w) && SettledFromQueue(q', w)
  {
  }

  /** The command at the head of the batch answers its delivery. */
  lemma SettlingKeepsWork(q: Queue, q': Queue, w: Work, epoch: nat)
    requires QueueInv(q) && TasksOnce(w) && SettlesOnce(q, w) && SettledFromQueue(q, w) && Numbered(w, epoch)
    requires q.local != [] && q.local[0].command.Settle?
    requires q'.accepted == q.accepted && |q'.executed| == |q.executed| + 1
    ensures var e := q.local[0];
            var s := Settlement(e.ticket, epoch, e.command.delivery, e.command.verdict, e.command.action);
            var w' := w.(settled := w.settled + [s]);
            TasksOnce(w') && SettlesOnce(q', w') && SettledFromQueue(q', w') && Numbered(w', epoch)
  {
    PopKeepsQueue(q);
    hide QueueInv;
    assert Recorded(w, q.accepted[|q.executed|].command.delivery);
  }

  lemma ExecuteKeepsWork(d: Driver, channelOk: bool)
    requires QueueInv(d.queue) && WorkInv(d) && d.queue.local != []
    ensures WorkInv(ExecuteOne(d, channelOk))
  {
    hide QueueInv, TasksOnce, SettlesOnce, SettledFromQueue, Numbered;
    var d' := ExecuteOne(d, channelOk);
    ProgressKeepsWork(d.queue, d'.queue, d.work);
    match d.queue.local[0].command
    case Publish(_) => PublishedKeepsWork(d'.queue, d.work, d'.work, d.link.epoch);
    case DeclareOne(_) =>
    case Settle(_, _, _) => SettlingKeepsWork(d.queue, d'.queue, d.work, d.link.epoch);
  }

  lemma PublishedKeepsWork(q: Queue, w: Work, w': Work, epoch: nat)
    requires TasksOnce(w) && SettlesOnce(q, w) && SettledFromQueue(q, w) && Numbered(w, epoch)
    requires w' == w.(published := w'.published)
    ensures TasksOnce(w') && SettlesOnce(q, w') && SettledFromQueue(q, w') && Numbered(w', epoch)
  {
  }

  lemma EpochKeepsTags(w: Work, epoch: nat, epoch': nat)
    requires Numbered(w, epoch) && epoch <= epoch'
    ensures Numbered(w, epoch')
  {
  }

  lemma WorkStep(c: Settings, d: Driver, e: Event)
    requires QueueInv(d.queue) && WorkInv(d) && Enabled(c, d, e)
    ensures WorkInv(Step(c, d, e))
  {
    hide QueueInv, OnReady, OnSuccess, OnError, TasksOnce, SettlesOnce, Numbered, SettledFromQueue,
         ExecuteOne, RunTask, DeliverOne, FreshTag, ShouldAttempt;
    match e
    case Call(command) => if Running(d) { CallKeepsWork(d, command); }
    case TaskRuns(k, outcome) => TaskKeepsWork(d, k, outcome);
    case SwapQueue => SwapKeepsWork(d.queue, d.work);
    case Execute(channelOk) => ExecuteKeepsWork(d, channelOk);
    case Attempt(_) => EpochKeepsTags(d.work, d.link.epoch, d.link.epoch + 1);
    case Deliver(consumer, tag, hasHandler, pool) => DeliverKeepsWork(d, consumer, tag, hasHandler, pool);
    case Handshake => HandshakeKeepsConnection(d.link);
    case OpSucceeds(id) =>
      CallbackKeepsConnection(d.link, id);
      CompletionKeepsWork(d.queue, d.work, d.link.ops[id], LocalAnswer(true));
    case OpFails(id) =>
      CallbackKeepsConnection(d.link, id);
      CompletionKeepsWork(d.queue, d.work, d.link.ops[id], LocalAnswer(false));
    case _ =>
  }

  lemma CallKeepsWork(d: Driver, command: Command)
    requires QueueInv(d.queue) && WorkInv(d) && !command.Settle?
    ensures SettlesOnce(Accept(d.queue, command), d.work) && SettledFromQueue(Accept(d.queue, command), d.work)
  {
    AcceptKeepsWork(d.queue, d.work, command, d.link.epoch);
  }

  lemma SwapKeepsWork(q: Queue, w: Work)
    requires SettlesOnce(q, w) && SettledFromQueue(q, w)
    ensures SettlesOnce(q.(local := q.commands, commands := []), w)
    ensures SettledFromQueue(q.(local := q.commands, commands := []), w)
  {
  }

  lemma CompletionKeepsWork(q: Queue, w: Work, op: Op, answer: Status)
    requires SettlesOnce(q, w) && SettledFromQueue(q, w)
    ensures op.Declare? ==> SettlesOnce(Complete(q, op.ticket, answer), w) && SettledFromQueue(Complete(q, op.ticket, answer), w)
  {
  }

  lemma AnswerStep(c: Settings, d: Driver, e: Event)
    requires AnswerInv(d.queue) && QueueInv(d.queue) && Enabled(c, d, e)
    ensures AnswerInv(Step(c, d, e).queue)
  {
    hide QueueInv, OnReady, OnSuccess, OnError, FreshTag, ShouldAttempt, PassesChecks;
    match e
    case Execute(_) => assert QueueInv(d.queue); PopKeepsQueue(d.queue);
    case Deliver(_, _, _, _) =>
    case OpSucceeds(_) =>
    case OpFails(_) =>
    case TaskRuns(_, _) =>
    case Attempt(_) =>
    case Handshake =>
    case DropNow =>
    case _ =>
  }

  lemma WaitStep(c: Settings, d: Driver, e: Event)
    requires QueueInv(d.queue) && ThreadInv(d) && WaitInv(d) && Enabled(c, d, e)
    ensures WaitInv(Step(c, d, e))
  {
    hide QueueInv, OnReady, OnSuccess, OnError, FreshTag, ShouldAttempt, PassesChecks;
    match e
    case Execute(_) =>
    case Deliver(_, _, _, _) => PrefixLength(d.queue);
    case OpSucceeds(_) =>
    case OpFails(_) =>
    case TaskRuns(_, _) =>
    case Attempt(_) =>
    case Handshake =>
    case DropNow =>
    case _ =>
  }

  lemma PrefixLength(q: Queue)
    requires QueueInv(q)
    ensures |q.executed| <= |q.accepted|
  {
  }

  // ---- every run ----

  lemma InvStep(c: Settings, d: Driver, e: Event)
    requires Inv(c, d) && Enabled(c, d, e)
    ensures Inv(c, Step(c, d, e))
  {
    hide LinkInv, ThreadInv, QueueInv, PromiseInv, AnswerInv, WaitInv, WorkInv, ClockInv, AttemptInv, Enabled, Step;
    LinkStep(c, d, e);
    ThreadStep(c, d, e);
    QueueStep(c, d, e);
    PromiseStep(c, d, e);
    AnswerStep(c, d, e);
    WaitStep(c, d, e);
    WorkStep(c, d, e);
    ClockStep(c, d, e);
    AttemptStep(c, d, e);
  }

  lemma InitialInv(c: Settings, config: Config)
    requires Consistent(config)
    ensures Inv(c, Initial(c, config))
  {
    hide LinkInv, WorkInv;
    InitialLink(c, config);
    InitialWork(c, config);
  }

  lemma InitialLink(c: Settings, config: Config)
    requires Consistent(config)
    ensures LinkInv(Initial(c, config).link)
  {
  }

  lemma InitialWork(c: Settings, config: Config)
    ensures WorkInv(Initial(c, config))
  {
  }

  lemma {:induction false} RunKeepsInv(c: Settings, from: Driver, run: seq<Event>, to: Driver)
    requires Inv(c, from) && Runs(c, from, run, to)
    ensures Inv(c, to)
    decreases |run|
  {
    hide Inv, Enabled, Step;
    if run != [] {
      InvStep(c, from, run[0]);
      RunKeepsInv(c, Step(c, from, run[0]), run[1..], to);
    }
  }

  lemma ReachableInv(c: Settings, config: Config, d: Driver)
    requires Consistent(config) && Reachable(c, config, d)
    ensures Inv(c, d)
  {
    hide Inv;
    var run :| Runs(c, Initial(c, config), run, d);
    InitialInv(c, config);
    RunKeepsInv(c, Initial(c, config), run, d);
  }
}
