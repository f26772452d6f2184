/** What an answer tells the caller. */
module DriverAnswers {
  import opened Prelude
  import opened BusConfig
  import opened KeyedLists
  import opened DriverLink
  import opened DriverBootstrap
  import opened DriverModel
  import opened DriverInvariants
  import opened DriverResults
  import opened DriverOrder

  /** Something of this kind and name is remembered. */
  predicate Holds(l: Link, decl: Decl) {
    match decl
    case X(x) => ExchangeKnown(l, x.name)
    case Q(q) => QueueKnown(l, q.name)
    case B(b) => BindingKey(b) in Keys(l.bindings, BindingKey)
  }

  predicate SameName(a: Decl, b: Decl) {
    || (a.X? && b.X? && a.exchange.name == b.exchange.name)
    || (a.Q? && b.Q? && a.queue.name == b.queue.name)
    || (a.B? && b.B? && BindingKey(a.binding) == BindingKey(b.binding))
  }

  predicate Answered(q: Queue, i: nat, answer: Status) { i in q.answers && q.answers[i] == answer }

  /** A declaration of this kind and name has been answered with success. */
  predicate Declared(q: Queue, decl: Decl) {
    exists i :: 0 <= i < |q.executed| && q.executed[i].command.DeclareOne? && SameName(q.executed[i].command.decl, decl) &&
                Answered(q, i, Success)
  }

  predicate Settled(w: Work, i: nat) { exists k :: 0 <= k < |w.settled| && w.settled[k].ticket == i }

  // ---- the invariants ----

  /** An outstanding declaration is the one its command asked for. */
  predicate OpsMatch(q: Queue, l: Link) {
    forall id :: id in l.ops && l.ops[id].Declare? ==>
      l.ops[id].ticket < |q.executed| && q.executed[l.ops[id].ticket].command == DeclareOne(l.ops[id].decl)
  }

  ghost predicate Remembers(first: Link, q: Queue, l: Link) {
    forall decl :: Holds(l, decl) <==> Holds(first, decl) || Declared(q, decl)
  }

  predicate SettleTold(q: Queue, w: Work) {
    forall i :: 0 <= i < |q.executed| && q.executed[i].command.Settle? ==> (Answered(q, i, Success) <==> Settled(w, i))
  }

  ghost predicate AnswersInv(first: Link, d: Driver) {
    OpsMatch(d.queue, d.link) && Remembers(first, d.queue, d.link) && SettleTold(d.queue, d.work)
  }

  // ---- outstanding declarations ----

  lemma OpsMatchStep(c: Settings, d: Driver, e: Event)
    requires OpsMatch(d.queue, d.link) && QueueInv(d.queue) && Enabled(c, d, e)
    ensures OpsMatch(Step(c, d, e).queue, Step(c, d, e).link)
  {
    hide OpsMatch, NoNewDeclare, QueueInv, ExecuteOne, FreshTag, ShouldAttempt, PassesChecks, OnReady, OpOutcome;
    if e.Execute? {
      ExecuteMatches(d, e.channelOk);
    } else {
      OthersDeclareNothing(c, d, e);
      FewerOpsMatch(d.queue, d.link, Step(c, d, e).queue, Step(c, d, e).link);
    }
  }

  lemma ExecuteMatches(d: Driver, channelOk: bool)
    requires OpsMatch(d.queue, d.link) && QueueInv(d.queue) && d.queue.local != []
    ensures OpsMatch(ExecuteOne(d, channelOk).queue, ExecuteOne(d, channelOk).link)
  {
    PopKeepsQueue(d.queue);
    hide QueueInv;
    match d.queue.local[0].command
    case Publish(_) =>
    case DeclareOne(_) =>
    case Settle(_, _, _) =>
  }

  lemma OthersDeclareNothing(c: Settings, d: Driver, e: Event)
    requires Enabled(c, d, e) && !e.Execute?
    ensures NoNewDeclare(d.link, Step(c, d, e).link) && Step(c, d, e).queue.executed == d.queue.executed
  {
    hide OnReady, OnSuccess, OnError, FreshTag, ShouldAttempt, PassesChecks;
    match e
    case Handshake => HandshakeSubmitsNoDeclare(d.link);
    case OpSucceeds(id) => CallbackSubmitsNoDeclare(d.link, id);
    case OpFails(id) => CallbackSubmitsNoDeclare(d.link, id);
    case TaskRuns(_, _) =>
    case Deliver(_, _, _, _) =>
    case DropNow =>
    case Attempt(_) =>
    case _ =>
  }

  lemma FewerOpsMatch(q: Queue, l: Link, q': Queue, l': Link)
    requires OpsMatch(q, l) && NoNewDeclare(l, l') && q'.executed == q.executed
    ensures OpsMatch(q', l')
  {
  }

  // ---- remembered declarations ----

  lemma RememberHolds(l: Link, d: Decl, decl: Decl)
    requires UniqueTopology(l)
    ensures Holds(Remember(l, d), decl) <==> Holds(l, decl) || SameName(d, decl)
  {
    match d
    case X(x) => UpsertRefinesMapUpdate(l.exchanges, ExchangeName, x);
    case Q(q) => UpsertRefinesMapUpdate(l.queues, QueueName, q);
    case B(b) => UpsertRefinesMapUpdate(l.bindings, BindingKey, b);
  }

  /** What the queue tells about declarations has not changed. */
  predicate TellsTheSame(q: Queue, q': Queue) {
    && q.executed <= q'.executed
    && (forall i :: |q.executed| <= i < |q'.executed| && q'.executed[i].command.DeclareOne? ==> !Answered(q', i, Success))
    && (forall i :: 0 <= i < |q.executed| && q.executed[i].command.DeclareOne? ==>
          (Answered(q, i, Success) <==> Answered(q', i, Success)))
  }

  lemma SameTelling(q: Queue, q': Queue, decl: Decl)
    requires TellsTheSame(q, q')
    ensures Declared(q, decl) <==> Declared(q', decl)
  {
    if Declared(q, decl) {
      var i :| 0 <= i < |q.executed| && q.executed[i].command.DeclareOne? &&
               SameName(q.executed[i].command.decl, decl) && Answered(q, i, Success);
      assert q'.executed[i] == q.executed[i];
    }
    if Declared(q', decl) {
      var i :| 0 <= i < |q'.executed| && q'.executed[i].command.DeclareOne? &&
               SameName(q'.executed[i].command.decl, decl) && Answered(q', i, Success);
      assert q'.executed[i] == q.executed[i];
    }
  }

  lemma SameLists(l: Link, l': Link, decl: Decl)
    requires SameConfig(l, l')
    ensures Holds(l, decl) <==> Holds(l', decl)
  {
  }

  /** What running one command does to the answers and the settlements. */
  ghost predicate RanOne(d: Driver, d': Driver)
    requires |d.queue.executed| < |d.queue.accepted|
  {
    var n := |d.queue.executed|;
    && d'.queue.executed == d.queue.executed + [d.queue.accepted[n]]
    && (forall i, a :: 0 <= i < n ==> (Answered(d'.queue, i, a) <==> Answered(d.queue, i, a)))
    && (d.queue.accepted[n].command.DeclareOne? ==> !Answered(d'.queue, n, Success))
    && (forall i :: 0 <= i < n ==> (Settled(d'.work, i) <==> Settled(d.work, i)))
    && (d.queue.accepted[n].command.Settle? ==> (Answered(d'.queue, n, Success) <==> Settled(d'.work, n)))
  }

  lemma OneMoreSettled(w: Work, w': Work, s: Settlement)
    requires w'.settled == w.settled + [s]
    ensures forall i :: Settled(w', i) <==> Settled(w, i) || i == s.ticket
  {
    forall i: nat ensures Settled(w', i) <==> Settled(w, i) || i == s.ticket {
      if Settled(w, i) {
        var k :| 0 <= k < |w.settled| && w.settled[k].ticket == i;
        assert w'.settled[k].ticket == i;
      }
      assert w'.settled[|w.settled|].ticket == s.ticket;
    }
  }

  lemma RunsPublish(d: Driver, channelOk: bool)
    requires QueueInv(d.queue) && d.queue.local != [] && d.queue.local[0].command.Publish?
    ensures |d.queue.executed| < |d.queue.accepted| && RanOne(d, ExecuteOne(d, channelOk))
  {
    PopKeepsQueue(d.queue);
    hide QueueInv, Settled;
  }

  lemma RunsDeclare(d: Driver, channelOk: bool)
    requires QueueInv(d.queue) && PromiseInv(d.queue, d.link.ops) && d.queue.local != [] && d.queue.local[0].command.DeclareOne?
    ensures |d.queue.executed| < |d.queue.accepted| && RanOne(d, ExecuteOne(d, channelOk))
  {
    PopKeepsQueue(d.queue);
    hide QueueInv, Settled;
    assert |d.queue.executed| !in d.queue.answers;
  }

  lemma RunsSettle(d: Driver, channelOk: bool)
    requires QueueInv(d.queue) && PromiseInv(d.queue, d.link.ops) && SettledFromQueue(d.queue, d.work)
    requires d.queue.local != [] && d.queue.local[0].command.Settle?
    ensures |d.queue.executed| < |d.queue.accepted| && RanOne(d, ExecuteOne(d, channelOk))
  {
    hide QueueInv, Settled;
    PopKeepsQueue(d.queue);
    NotYetSettled(d.queue, d.work);
    assert |d.queue.executed| !in d.queue.answers;
    var e := d.queue.local[0];
    var s := Settlement(e.ticket, d.link.epoch, e.command.delivery, e.command.verdict, e.command.action);
    OneMoreSettled(d.work, d.work.(settled := d.work.settled + [s]), s);
  }

  lemma NotYetSettled(q: Queue, w: Work)
    requires SettledFromQueue(q, w)
    ensures !Settled(w, |q.executed|)
  {
  }

  lemma RunsOne(d: Driver, channelOk: bool)
    requires QueueInv(d.queue) && PromiseInv(d.queue, d.link.ops) && SettledFromQueue(d.queue, d.work) && d.queue.local != []
    ensures |d.queue.executed| < |d.queue.accepted| && RanOne(d, ExecuteOne(d, channelOk))
  {
    PopKeepsQueue(d.queue);
    hide QueueInv, PromiseInv, SettledFromQueue, RanOne, ExecuteOne;
    match d.queue.local[0].command
    case Publish(_) => RunsPublish(d, channelOk);
    case DeclareOne(_) => RunsDeclare(d, channelOk);
    case Settle(_, _, _) => RunsSettle(d, channelOk);
  }

  /** Every step but the confirmation of a declaration leaves both sides alone. */
  lemma StepTellsTheSame(c: Settings, d: Driver, e: Event)
    requires OpsMatch(d.queue, d.link) && PromiseInv(d.queue, d.link.ops) && QueueInv(d.queue) && Enabled(c, d, e)
    requires SettledFromQueue(d.queue, d.work)
    requires !(e.OpSucceeds? && d.link.ops[e.id].Declare?)
    ensures TellsTheSame(d.queue, Step(c, d, e).queue) && SameConfig(d.link, Step(c, d, e).link)
  {
    hide QueueInv, SettledFromQueue, PromiseInv, OnReady, OnError, ChainGoesOn, FreshTag, ShouldAttempt, PassesChecks,
         ExecuteOne, OpOutcome, OpsMatch;
    match e
    case Execute(channelOk) => ExecuteTellsTheSame(d, channelOk);
    case Handshake => HandshakeKeepsLists(d.link);
    case OpSucceeds(id) => OutcomeTellsTheSame(d, id, true);
    case OpFails(id) => OutcomeTellsTheSame(d, id, false);
    case TaskRuns(_, _) =>
    case Deliver(_, _, _, _) =>
    case DropNow =>
    case Attempt(_) =>
    case _ =>
  }

  lemma ExecuteTellsTheSame(d: Driver, channelOk: bool)
    requires PromiseInv(d.queue, d.link.ops) && QueueInv(d.queue) && SettledFromQueue(d.queue, d.work) && d.queue.local != []
    ensures TellsTheSame(d.queue, ExecuteOne(d, channelOk).queue) && SameConfig(d.link, ExecuteOne(d, channelOk).link)
  {
    assert SameConfig(d.link, ExecuteOne(d, channelOk).link) by { ExecuteKeepsLists(d, channelOk); }
    hide QueueInv, PromiseInv, SettledFromQueue, ExecuteOne, SameConfig, Settled;
    RunsOne(d, channelOk);
  }

  lemma ExecuteKeepsLists(d: Driver, channelOk: bool)
    requires d.queue.local != []
    ensures SameConfig(d.link, ExecuteOne(d, channelOk).link)
  {
  }

  lemma OutcomeTellsTheSame(d: Driver, id: nat, ok: bool)
    requires OpsMatch(d.queue, d.link) && PromiseInv(d.queue, d.link.ops) && id in d.link.ops
    requires d.link.ops[id].Qos? ==> d.link.ops[id].index < |d.link.consumers|
    requires !(ok && d.link.ops[id].Declare?)
    ensures TellsTheSame(d.queue, OpOutcome(d, id, ok).queue) && SameConfig(d.link, OpOutcome(d, id, ok).link)
  {
    hide ChainGoesOn;
    ErrorKeepsLists(d.link, id);
    if ok { BootSuccessAdvances(d.link, id); }
  }

  lemma HandshakeKeepsLists(l: Link)
    ensures SameConfig(l, OnReady(l))
  {
    hide BootstrapExchanges;
    ExchangesAdvance(l.(handshake := true), 0);
  }

  lemma ErrorKeepsLists(l: Link, id: nat)
    requires id in l.ops
    ensures SameConfig(l, OnError(l, id))
  {
  }

  /** The confirmation of a declaration adds its name on both sides. */
  lemma ConfirmationAddsName(d: Driver, id: nat, decl: Decl)
    requires OpsMatch(d.queue, d.link) && PromiseInv(d.queue, d.link.ops) && UniqueTopology(d.link)
    requires id in d.link.ops && d.link.ops[id].Declare?
    ensures var d' := OpOutcome(d, id, true);
            && (Declared(d'.queue, decl) <==> Declared(d.queue, decl) || SameName(d.link.ops[id].decl, decl))
            && (Holds(d'.link, decl) <==> Holds(d.link, decl) || SameName(d.link.ops[id].decl, decl))
  {
    var op := d.link.ops[id];
    var q, q' := d.queue, OpOutcome(d, id, true).queue;
    var f := Confirm(Finished(d.link, id), op.decl);
    assert UniqueTopology(f);
    RememberHolds(f, op.decl, decl);
    SameLists(d.link, f, decl);
    hide UniqueTopology, Holds;
    assert forall i :: 0 <= i < |q.executed| && i != op.ticket ==> (Answered(q, i, Success) <==> Answered(q', i, Success));
    assert Answered(q', op.ticket, Success) && !Answered(q, op.ticket, Success);
  }

  lemma RemembersStep(c: Settings, first: Link, d: Driver, e: Event)
    requires Inv(c, d) && Enabled(c, d, e) && OpsMatch(d.queue, d.link) && Remembers(first, d.queue, d.link)
    ensures Remembers(first, Step(c, d, e).queue, Step(c, d, e).link)
  {
    hide Holds, Declared, ThreadInv, QueueInv, PromiseInv, AnswerInv, WaitInv, ClockInv, AttemptInv, OpsMatch,
         TellsTheSame, OnSuccess, UniqueTopology, TasksOnce, SettlesOnce, SettledFromQueue, Numbered;
    var d' := Step(c, d, e);
    forall decl ensures Holds(d'.link, decl) <==> Holds(first, decl) || Declared(d'.queue, decl) {
      if e.OpSucceeds? && d.link.ops[e.id].Declare? {
        ConfirmationAddsName(d, e.id, decl);
      } else {
        StepTellsTheSame(c, d, e);
        SameTelling(d.queue, d'.queue, decl);
        SameLists(d.link, d'.link, decl);
      }
    }
  }

  // ---- settlements ----

  lemma SettleToldStep(c: Settings, d: Driver, e: Event)
    requires SettleTold(d.queue, d.work) && OpsMatch(d.queue, d.link) && PromiseInv(d.queue, d.link.ops)
    requires QueueInv(d.queue) && SettledFromQueue(d.queue, d.work) && Enabled(c, d, e)
    ensures SettleTold(Step(c, d, e).queue, Step(c, d, e).work)
  {
    hide QueueInv, OnReady, OnSuccess, OnError, FreshTag, ShouldAttempt, PassesChecks;
    match e
    case Execute(channelOk) => ExecuteTellsSettle(d, channelOk);
    case OpSucceeds(_) =>
    case OpFails(_) =>
    case TaskRuns(_, _) =>
    case Deliver(_, _, _, _) =>
    case DropNow =>
    case Attempt(_) =>
    case _ =>
  }

  lemma ExecuteTellsSettle(d: Driver, channelOk: bool)
    requires SettleTold(d.queue, d.work) && PromiseInv(d.queue, d.link.ops) && QueueInv(d.queue) && d.queue.local != []
    requires SettledFromQueue(d.queue, d.work)
    ensures var d' := ExecuteOne(d, channelOk); SettleTold(d'.queue, d'.work)
  {
    hide QueueInv, PromiseInv, SettledFromQueue, ExecuteOne, Settled;
    RunsOne(d, channelOk);
  }

  // ---- every run ----

  lemma AnswersStep(c: Settings, first: Link, d: Driver, e: Event)
    requires Inv(c, d) && AnswersInv(first, d) && Enabled(c, d, e)
    ensures AnswersInv(first, Step(c, d, e))
  {
    hide LinkInv, ThreadInv, QueueInv, PromiseInv, AnswerInv, WaitInv, ClockInv, AttemptInv, OpsMatch, Remembers, SettleTold,
         Enabled, Step, TasksOnce, SettlesOnce, SettledFromQueue, Numbered;
    OpsMatchStep(c, d, e);
    RemembersStep(c, first, d, e);
    SettleToldStep(c, d, e);
  }

  lemma {:induction false} RunKeepsAnswers(c: Settings, first: Link, from: Driver, run: seq<Event>, to: Driver)
    requires Inv(c, from) && AnswersInv(first, from) && Runs(c, from, run, to)
    ensures AnswersInv(first, to)
    decreases |run|
  {
    hide Inv, AnswersInv, Enabled, Step;
    if run != [] {
      InvStep(c, from, run[0]);
      AnswersStep(c, first, from, run[0]);
      RunKeepsAnswers(c, first, Step(c, from, run[0]), run[1..], to);
    }
  }

  lemma ReachableAnswers(c: Settings, config: Config, d: Driver)
    requires Consistent(config) && Reachable(c, config, d)
    ensures AnswersInv(Initial(c, config).link, d)
  {
    var run :| Runs(c, Initial(c, config), run, d);
    InitialInv(c, config);
    assert AnswersInv(Initial(c, config).link, Initial(c, config)) by { NothingDeclared(c, config); }
    hide Inv, AnswersInv, Initial;
    RunKeepsAnswers(c, Initial(c, config).link, Initial(c, config), run, d);
  }

  lemma NothingDeclared(c: Settings, config: Config)
    ensures AnswersInv(Initial(c, config).link, Initial(c, config))
  {
    hide Holds;
    assert forall decl :: !Declared(Initial(c, config).queue, decl);
  }

  // ---- what callers may conclude ----

  /** What is remembered is what was configured and what has been answered with success, and nothing else. */
  lemma RememberedIffAnswered(c: Settings, config: Config, d: Driver, decl: Decl)
    requires Consistent(config) && Reachable(c, config, d)
    ensures Holds(d.link, decl) <==> Holds(Initial(c, config).link, decl) || Declared(d.queue, decl)
  {
    ReachableAnswers(c, config, d);
  }

  /** A declaration answered with success is rebuilt on every later ready connection. */
  lemma AnsweredIsRebuilt(c: Settings, config: Config, d: Driver, decl: Decl, run: seq<Event>, d': Driver)
    requires Consistent(config) && Reachable(c, config, d) && Declared(d.queue, decl)
    requires Runs(c, d, run, d') && d'.link.ready
    ensures decl.X? ==> ExchangeUp(d'.link, decl.exchange.name)
    ensures decl.Q? ==> QueueUp(d'.link, decl.queue.name)
    ensures decl.B? ==> BindingUp(d'.link, BindingKey(decl.binding))
  {
    hide Declared, Initial;
    RememberedIffAnswered(c, config, d, decl);
    OnceRememberedAlwaysRebuilt(c, config, d, run, d');
  }

  /** A settle command is answered with success exactly when the ack or reject went to a channel. */
  lemma SettleAnswerIsTrue(c: Settings, config: Config, d: Driver, i: nat)
    requires Consistent(config) && Reachable(c, config, d)
    requires i < |d.queue.executed| && d.queue.executed[i].command.Settle?
    ensures Answered(d.queue, i, Success) <==> Settled(d.work, i)
  {
    ReachableAnswers(c, config, d);
  }
}
