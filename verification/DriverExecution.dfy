/** What running a command does on the connection, and what its answer tells of that moment. */
module DriverExecution {
  import opened Prelude
  import opened BusConfig
  import opened DriverLink
  import opened DriverModel
  import opened DriverInvariants
  import opened DriverResults
  import opened DriverTraps
  import opened DriverAnswers
  import opened DriverCalls

  // ---- one command ----

  /** A publish goes out exactly when the link is ready and the library takes it, once, as it was asked
      for and on the present connection; the answer says which of the three it was. */
  lemma PublishRuns(c: Settings, d: Driver, ok: bool)
    requires Inv(c, d) && Enabled(c, d, Execute(ok)) && d.queue.local[0].command.Publish?
    ensures var n, request, d' := |d.queue.executed|, d.queue.local[0].command.request, Step(c, d, Execute(ok));
            && d'.queue.executed == d.queue.executed + [Entry(n, Publish(request))]
            && d'.work.published ==
                 (if d.link.ready && ok then d.work.published + [Publication(n, d.link.epoch, request)] else d.work.published)
            && Answered(d'.queue, n, if !d.link.ready then Failure(Disconnected)
                                     else if ok then Success else Failure(OperationFailed))
            && d'.link == d.link && d'.work.settled == d.work.settled
  {
    HeadHasNoAnswer(d);
    hide Inv;
  }

  /** A settle command sends its own answer exactly when the consumer has a channel that takes it. */
  lemma SettleRuns(c: Settings, d: Driver, ok: bool)
    requires Inv(c, d) && Enabled(c, d, Execute(ok)) && d.queue.local[0].command.Settle?
    ensures var n, s, d' := |d.queue.executed|, d.queue.local[0].command, Step(c, d, Execute(ok));
            && d'.queue.executed == d.queue.executed + [Entry(n, s)]
            && d'.work.settled ==
                 (if s.delivery.consumer in d.link.runtimes && ok
                  then d.work.settled + [Settlement(n, d.link.epoch, s.delivery, s.verdict, s.action)] else d.work.settled)
            && Answered(d'.queue, n, if s.delivery.consumer !in d.link.runtimes then Failure(Disconnected)
                                     else if ok then Success else Failure(OperationFailed))
            && d'.link == d.link && d'.work.published == d.work.published
  {
    HeadHasNoAnswer(d);
    hide Inv;
  }

  /** A declaration is submitted, without an answer yet, exactly when the link is ready. */
  lemma DeclareRuns(c: Settings, d: Driver, ok: bool)
    requires Inv(c, d) && Enabled(c, d, Execute(ok)) && d.queue.local[0].command.DeclareOne?
    ensures var n, decl, d' := |d.queue.executed|, d.queue.local[0].command.decl, Step(c, d, Execute(ok));
            && d'.queue.executed == d.queue.executed + [Entry(n, DeclareOne(decl))]
            && d'.link.ops == (if d.link.ready then d.link.ops[d.link.nextOp := Declare(decl, n)] else d.link.ops)
            && d.link.nextOp !in d.link.ops
            && (if d.link.ready then n !in d'.queue.answers else Answered(d'.queue, n, Failure(Disconnected)))
            && d'.work == d.work
  {
    HeadHasNoAnswer(d);
    FreshOp(d.link);
    hide Inv;
  }

  lemma FreshOp(l: Link)
    requires LinkInv(l)
    ensures l.nextOp !in l.ops
  {
  }

  lemma HeadHasNoAnswer(d: Driver)
    requires QueueInv(d.queue) && PromiseInv(d.queue, d.link.ops) && d.queue.local != []
    ensures d.queue.local[0].ticket == |d.queue.executed| && |d.queue.executed| !in d.queue.answers
    ensures d.queue.local[0] == Entry(|d.queue.executed|, d.queue.local[0].command)
    ensures |d.queue.executed| < |d.queue.accepted| && d.queue.local[0] == d.queue.accepted[|d.queue.executed|]
  {
    PopKeepsQueue(d.queue);
  }

  /** The broker's answer to a declaration: success, or an operation that failed. */
  lemma DeclarationIsAnswered(c: Settings, d: Driver, e: Event)
    requires Inv(c, d) && Enabled(c, d, e) && (e.OpSucceeds? || e.OpFails?) && d.link.ops[e.id].Declare?
    ensures Answered(Step(c, d, e).queue, d.link.ops[e.id].ticket,
                     if e.OpSucceeds? then Success else Failure(OperationFailed))
  {
    assert d.link.ops[e.id].ticket !in d.queue.answers;
    hide Inv;
  }

  // ---- over runs ----

  predicate Sent(w: Work, i: nat) { exists k :: 0 <= k < |w.published| && w.published[k].ticket == i }

  /** The publications are executed publish commands, each with its own request, in order, none twice. */
  ghost predicate PublishedFromQueue(q: Queue, w: Work) {
    && (forall k :: 0 <= k < |w.published| ==>
          w.published[k].ticket < |q.executed| && q.executed[w.published[k].ticket].command == Publish(w.published[k].request))
    && (forall j, k :: 0 <= j < k < |w.published| ==> w.published[j].ticket < w.published[k].ticket)
  }

  /** A publish that has run is answered with success exactly when it went out. */
  ghost predicate PublishTold(q: Queue, w: Work) {
    forall i :: 0 <= i < |q.executed| && q.executed[i].command.Publish? ==> (Answered(q, i, Success) <==> Sent(w, i))
  }

  ghost predicate PublishInv(d: Driver) { PublishedFromQueue(d.queue, d.work) && PublishTold(d.queue, d.work) }

  /** Nothing but a publish command publishes, and only a run command is answered at once. */
  lemma OthersDoNotPublish(c: Settings, d: Driver, e: Event)
    requires Inv(c, d) && Enabled(c, d, e) && !e.Execute?
    ensures Step(c, d, e).work.published == d.work.published && Step(c, d, e).queue.executed == d.queue.executed
    ensures forall i: nat :: i in d.queue.answers ==>
              i in Step(c, d, e).queue.answers && Step(c, d, e).queue.answers[i] == d.queue.answers[i]
    ensures forall i :: i in Step(c, d, e).queue.answers && i !in d.queue.answers ==>
              exists id :: id in d.link.ops && d.link.ops[id].Declare? && d.link.ops[id].ticket == i
  {
    hide Inv, OnReady, OnSuccess, OnError, FreshTag, ShouldAttempt, PassesChecks;
    match e
    case TaskRuns(_, _) =>
    case Deliver(_, _, _, _) =>
    case OpSucceeds(_) =>
    case OpFails(_) =>
    case DropNow =>
    case Attempt(_) =>
    case _ =>
  }

  lemma ExecutePublishes(c: Settings, d: Driver, ok: bool)
    requires Inv(c, d) && Enabled(c, d, Execute(ok)) && PublishInv(d)
    ensures PublishInv(Step(c, d, Execute(ok)))
  {
    hide Inv, Step, PublishedFromQueue, PublishTold;
    AnswersOnlyItself(c, d, ok);
    if d.queue.local[0].command.Publish? {
      PublishRuns(c, d, ok);
      RanAPublish(d.queue, d.work, Step(c, d, Execute(ok)).queue, Step(c, d, Execute(ok)).work, d.link.epoch, d.link.ready && ok);
    } else {
      if d.queue.local[0].command.Settle? { SettleRuns(c, d, ok); } else { DeclareRuns(c, d, ok); }
      RanAnother(d.queue, d.work, Step(c, d, Execute(ok)).queue, Step(c, d, Execute(ok)).work);
    }
  }

  lemma RanAPublish(q: Queue, w: Work, q': Queue, w': Work, epoch: nat, sent: bool)
    requires PublishedFromQueue(q, w) && PublishTold(q, w)
    requires |q'.executed| == |q.executed| + 1 && q.executed <= q'.executed && q'.executed[|q.executed|].command.Publish?
    requires var n := |q.executed|;
             && w'.published == (if sent then w.published + [Publication(n, epoch, q'.executed[n].command.request)] else w.published)
             && (Answered(q', n, Success) <==> sent)
             && (forall i: nat :: i != n ==> (Answered(q', i, Success) <==> Answered(q, i, Success)))
    ensures PublishedFromQueue(q', w') && PublishTold(q', w')
  {
    hide Sent, PublishTold;
    PublicationIsAppended(q, w, q', w', epoch, sent);
    MoreSent(w, w', |q.executed|, sent);
    NotYetSent(q, w);
    AnswerIsTold(q, w, q', w', sent);
  }

  lemma PublicationIsAppended(q: Queue, w: Work, q': Queue, w': Work, epoch: nat, sent: bool)
    requires PublishedFromQueue(q, w) && |q'.executed| == |q.executed| + 1 && q.executed <= q'.executed
    requires q'.executed[|q.executed|].command.Publish?
    requires w'.published == if sent then w.published + [Publication(|q.executed|, epoch, q'.executed[|q.executed|].command.request)]
                             else w.published
    ensures PublishedFromQueue(q', w')
  {
    forall k | 0 <= k < |w'.published|
      ensures w'.published[k].ticket < |q'.executed| &&
              q'.executed[w'.published[k].ticket].command == Publish(w'.published[k].request)
    {
      if k < |w.published| { assert w'.published[k] == w.published[k]; }
    }
  }

  lemma AnswerIsTold(q: Queue, w: Work, q': Queue, w': Work, sent: bool)
    requires PublishTold(q, w) && |q'.executed| == |q.executed| + 1 && q.executed <= q'.executed && !Sent(w, |q.executed|)
    requires Answered(q', |q.executed|, Success) <==> sent
    requires forall i: nat :: i != |q.executed| ==> (Answered(q', i, Success) <==> Answered(q, i, Success))
    requires forall i :: Sent(w', i) <==> Sent(w, i) || (sent && i == |q.executed|)
    ensures PublishTold(q', w')
  {
    hide Sent, Answered;
  }

  lemma RanAnother(q: Queue, w: Work, q': Queue, w': Work)
    requires PublishedFromQueue(q, w) && PublishTold(q, w) && w'.published == w.published
    requires |q'.executed| == |q.executed| + 1 && q.executed <= q'.executed && !q'.executed[|q.executed|].command.Publish?
    requires forall i: nat :: i != |q.executed| ==> (Answered(q', i, Success) <==> Answered(q, i, Success))
    ensures PublishedFromQueue(q', w') && PublishTold(q', w')
  {
    hide Sent;
    SameSent(w, w');
  }

  lemma NotYetSent(q: Queue, w: Work)
    requires PublishedFromQueue(q, w)
    ensures !Sent(w, |q.executed|)
  {
  }

  lemma SameSent(w: Work, w': Work)
    requires w'.published == w.published
    ensures forall i :: Sent(w', i) <==> Sent(w, i)
  {
  }

  lemma MoreSent(w: Work, w': Work, n: nat, sent: bool)
    requires |w'.published| == |w.published| + (if sent then 1 else 0) && w.published <= w'.published
    requires sent ==> w'.published[|w.published|].ticket == n
    ensures forall i :: Sent(w', i) <==> Sent(w, i) || (sent && i == n)
  {
    forall i: nat ensures Sent(w', i) <==> Sent(w, i) || (sent && i == n) {
      if Sent(w, i) {
        var k :| 0 <= k < |w.published| && w.published[k].ticket == i;
        assert w'.published[k].ticket == i;
      }
    }
  }

  /** Running a command answers no other. */
  lemma AnswersOnlyItself(c: Settings, d: Driver, ok: bool)
    requires Inv(c, d) && Enabled(c, d, Execute(ok))
    ensures forall i: nat :: i != |d.queue.executed| ==>
              (i in Step(c, d, Execute(ok)).queue.answers <==> i in d.queue.answers) &&
              (i in d.queue.answers ==> Step(c, d, Execute(ok)).queue.answers[i] == d.queue.answers[i])
    ensures Step(c, d, Execute(ok)).queue.executed == d.queue.executed + [d.queue.accepted[|d.queue.executed|]]
  {
    HeadHasNoAnswer(d);
    hide Inv;
    match d.queue.local[0].command
    case Publish(_) =>
    case DeclareOne(_) =>
    case Settle(_, _, _) =>
  }

  lemma PublishStep(c: Settings, d: Driver, e: Event)
    requires Inv(c, d) && Enabled(c, d, e) && PublishInv(d) && OpsMatch(d.queue, d.link)
    ensures PublishInv(Step(c, d, e))
  {
    if e.Execute? {
      ExecutePublishes(c, d, e.channelOk);
    } else {
      OthersDoNotPublish(c, d, e);
      hide Inv, Step, Enabled;
      SameSent(d.work, Step(c, d, e).work);
      assert forall id :: id in d.link.ops && d.link.ops[id].Declare? ==>
        !d.queue.executed[d.link.ops[id].ticket].command.Publish?;
    }
  }

  lemma {:induction false} RunKeepsPublish(c: Settings, first: Link, from: Driver, run: seq<Event>, to: Driver)
    requires Inv(c, from) && AnswersInv(first, from) && PublishInv(from) && Runs(c, from, run, to)
    ensures PublishInv(to)
    decreases |run|
  {
    hide Inv, PublishInv, Enabled, Step, Remembers, SettleTold, OpsMatch;
    if run != [] {
      InvStep(c, from, run[0]);
      AnswersStep(c, first, from, run[0]);
      PublishStep(c, from, run[0]);
      RunKeepsPublish(c, first, Step(c, from, run[0]), run[1..], to);
    }
  }

  /** The messages handed to the library are those of publish commands that have run, each with its own
      request, none twice and in order; and a publish that has run is answered with success exactly when
      it went out. */
  lemma PublishAnswerIsTrue(c: Settings, config: Config, d: Driver)
    requires Consistent(config) && Reachable(c, config, d)
    ensures forall k :: 0 <= k < |d.work.published| ==>
              d.work.published[k].ticket < |d.queue.executed| &&
              d.queue.executed[d.work.published[k].ticket].command == Publish(d.work.published[k].request)
    ensures forall j, k :: 0 <= j < k < |d.work.published| ==> d.work.published[j].ticket < d.work.published[k].ticket
    ensures forall i :: 0 <= i < |d.queue.executed| && d.queue.executed[i].command.Publish? ==>
              (Answered(d.queue, i, Success) <==> exists k :: 0 <= k < |d.work.published| && d.work.published[k].ticket == i)
  {
    ReachablePublish(c, config, d);
    assert forall i :: 0 <= i < |d.queue.executed| && d.queue.executed[i].command.Publish? ==>
      (Answered(d.queue, i, Success) <==> Sent(d.work, i));
  }

  lemma ReachablePublish(c: Settings, config: Config, d: Driver)
    requires Consistent(config) && Reachable(c, config, d)
    ensures PublishInv(d)
  {
    hide Inv, AnswersInv, PublishInv, Initial, Consistent;
    var run :| Runs(c, Initial(c, config), run, d);
    InitialInv(c, config);
    NothingDeclared(c, config);
    NothingPublished(c, config);
    RunKeepsPublish(c, Initial(c, config).link, Initial(c, config), run, d);
  }

  lemma NothingPublished(c: Settings, config: Config)
    ensures PublishInv(Initial(c, config))
  {
  }

  // ---- the moment a command runs ----

  lemma StepRunsOne(c: Settings, d: Driver, e: Event)
    requires Inv(c, d) && Enabled(c, d, e)
    ensures |Step(c, d, e).queue.executed| == |d.queue.executed| + (if e.Execute? then 1 else 0)
    ensures forall i: nat :: i in d.queue.answers ==>
              i in Step(c, d, e).queue.answers && Step(c, d, e).queue.answers[i] == d.queue.answers[i]
    ensures d.work.published <= Step(c, d, e).work.published && d.work.settled <= Step(c, d, e).work.settled
  {
    if e.Execute? {
      AnswersOnlyItself(c, d, e.channelOk);
      HeadHasNoAnswer(d);
      match d.queue.local[0].command
      case Publish(_) => PublishRuns(c, d, e.channelOk);
      case DeclareOne(_) => DeclareRuns(c, d, e.channelOk);
      case Settle(_, _, _) => SettleRuns(c, d, e.channelOk);
    } else {
      OthersDoNotPublish(c, d, e);
      OthersDoNotSettle(c, d, e);
    }
  }

  lemma OthersDoNotSettle(c: Settings, d: Driver, e: Event)
    requires Enabled(c, d, e) && !e.Execute?
    ensures Step(c, d, e).work.settled == d.work.settled
  {
    hide OnReady, OnSuccess, OnError, FreshTag, ShouldAttempt, PassesChecks;
    match e
    case TaskRuns(_, _) =>
    case Deliver(_, _, _, _) =>
    case OpSucceeds(_) =>
    case OpFails(_) =>
    case _ =>
  }

  lemma {:induction false} WhatIsDoneStays(c: Settings, d: Driver, run: seq<Event>, d': Driver)
    requires Inv(c, d) && Runs(c, d, run, d')
    ensures forall i: nat :: i in d.queue.answers ==> i in d'.queue.answers && d'.queue.answers[i] == d.queue.answers[i]
    ensures d.work.published <= d'.work.published && d.work.settled <= d'.work.settled
    decreases |run|
  {
    hide Inv, Enabled, Step;
    if run != [] {
      InvStep(c, d, run[0]);
      StepRunsOne(c, d, run[0]);
      WhatIsDoneStays(c, Step(c, d, run[0]), run[1..], d');
    }
  }

  /** The step of a run at which the command with this ticket runs. */
  lemma {:induction false} Moment(c: Settings, d: Driver, run: seq<Event>, d': Driver, n: nat) returns (i: nat, e: Driver)
    requires Inv(c, d) && Runs(c, d, run, d') && |d.queue.executed| <= n < |d'.queue.executed|
    ensures i < |run| && run[i].Execute? && Runs(c, d, run[..i], e) && Inv(c, e) && Enabled(c, e, run[i])
    ensures |e.queue.executed| == n && Runs(c, Step(c, e, run[i]), run[i + 1..], d')
    decreases |run|
  {
    hide Inv, Enabled, Step;
    assert run != [];
    var next := Step(c, d, run[0]);
    InvStep(c, d, run[0]);
    StepRunsOne(c, d, run[0]);
    if n < |next.queue.executed| {
      i, e := 0, d;
      assert run[..0] == [];
    } else {
      i, e := Moment(c, next, run[1..], d', n);
      assert run[1..][..i] == run[..i + 1][1..] && run[1..][i + 1..] == run[i + 2..];
      i := i + 1;
    }
  }

  /** The head of the batch at that moment is the command with this ticket. */
  lemma CommandOfMoment(c: Settings, config: Config, d: Driver, run: seq<Event>, e: Driver, ok: bool, n: nat)
    requires Reachable(c, config, d) && Runs(c, d, run, e) && Inv(c, e) && Enabled(c, e, Execute(ok))
    requires |e.queue.executed| == n < |d.queue.accepted|
    ensures e.queue.local[0].command == d.queue.accepted[n].command && Reachable(c, config, e)
  {
    RunAccepts(c, config, d, run, e);
    HeadHasNoAnswer(e);
  }

  // ---- what a publish tells its caller ----

  /** A call of `Publish` that was accepted has its command run at some moment meanwhile.  It returns
      that the driver is disconnected if the link was not ready then, that the operation failed if the
      library did not take the message, and success otherwise; and it returns success exactly when the
      message went out, on the connection of that moment. */
  lemma ReturnedPublishTells(c: Settings, config: Config, d: Driver, request: PublishRequest, meanwhile: seq<Event>, d': Driver,
                             r: Status) returns (i: nat, e: Driver)
    requires Consistent(config) && Reachable(c, config, d) && request.exchange != "" && Running(d)
    requires Called(c, d, Publish(request), meanwhile, d', r)
    ensures i < |meanwhile| && Runs(c, EnqueueCommand(d, Publish(request)), meanwhile[..i], e) && meanwhile[i].Execute?
    ensures r == if !e.link.ready then Failure(Disconnected)
                 else if meanwhile[i].channelOk then Success else Failure(OperationFailed)
    ensures r == Success <==> Publication(|d.queue.accepted|, e.link.epoch, request) in d'.work.published
  {
    hide Inv, Enabled, Step, Initial, Reachable, Consistent, Called;
    var command, n := Publish(request), |d.queue.accepted|;
    AnsweredHasRun(c, config, d, command, meanwhile, d', r);
    var q := CallIsQueued(c, config, d, command, meanwhile, d', r);
    i, e := Moment(c, q, meanwhile, d', n);
    CommandOfMoment(c, config, q, meanwhile[..i], e, meanwhile[i].channelOk, n);
    PublishMoment(c, config, e, meanwhile[i].channelOk, request, meanwhile[i + 1..], d', r);
  }

  /** The state right after the call has enqueued its command. */
  lemma CallIsQueued(c: Settings, config: Config, d: Driver, command: Command, meanwhile: seq<Event>, d': Driver, r: Status)
    returns (q: Driver)
    requires Consistent(config) && Reachable(c, config, d) && PassesChecks(command) && Running(d)
    requires Called(c, d, command, meanwhile, d', r)
    ensures q == EnqueueCommand(d, command) && Reachable(c, config, q) && Inv(c, q) && Runs(c, q, meanwhile, d')
    ensures var n := |d.queue.accepted|;
            n < |q.queue.accepted| && q.queue.accepted[n].command == command && |q.queue.executed| <= n
  {
    ReachStep(c, config, d, Call(command));
    q := EnqueueCommand(d, command);
    hide Reachable;
    ReachableInv(c, config, q);
    StillToRun(q, |d.queue.accepted|);
  }

  lemma PublishMoment(c: Settings, config: Config, e: Driver, ok: bool, request: PublishRequest, rest: seq<Event>, d': Driver,
                      r: Status)
    requires Consistent(config) && Reachable(c, config, d') && Inv(c, e) && Enabled(c, e, Execute(ok))
    requires e.queue.local[0].command == Publish(request)
    requires Runs(c, Step(c, e, Execute(ok)), rest, d') && Answered(d'.queue, |e.queue.executed|, r)
    requires |e.queue.executed| < |d'.queue.executed| && d'.queue.executed[|e.queue.executed|].command == Publish(request)
    ensures r == if !e.link.ready then Failure(Disconnected) else if ok then Success else Failure(OperationFailed)
    ensures r == Success <==> Publication(|e.queue.executed|, e.link.epoch, request) in d'.work.published
  {
    hide Inv, Step, Initial, Reachable, Consistent;
    PublishRuns(c, e, ok);
    InvStep(c, e, Execute(ok));
    WhatIsDoneStays(c, Step(c, e, Execute(ok)), rest, d');
    if r == Success {
      PublicationStays(e.work.published, Publication(|e.queue.executed|, e.link.epoch, request), d'.work.published);
    } else {
      PublishAnswerIsTrue(c, config, d');
    }
  }

  lemma PublicationStays(before: seq<Publication>, p: Publication, after: seq<Publication>)
    requires before + [p] <= after
    ensures p in after
  {
    assert after[|before|] == (before + [p])[|before|];
  }

  lemma StillToRun(d: Driver, n: nat)
    requires QueueInv(d.queue) && d.queue.commands != [] && n == |d.queue.accepted| - 1
    ensures |d.queue.executed| <= n
  {
  }

  // ---- what becomes of a handler's decision ----

  /** A worker's decision on a delivery reaches the broker exactly when, at the moment its command runs,
      the consumer has a channel and the channel takes the answer; and what reaches it is the handler's
      decision, or a requeue when there is no handler or it threw, sent on the connection of that moment. */
  lemma DecisionReachesTheChannelIff(c: Settings, config: Config, d: Driver, k: nat, outcome: Outcome, run: seq<Event>, d': Driver)
    returns (i: nat, e: Driver)
    requires Consistent(config) && Reachable(c, config, d) && k < |d.work.tasks| && Running(d)
    requires var x := d.work.tasks[k].delivery; x.consumer != "" && !x.autoAck
    requires Runs(c, Step(c, d, TaskRuns(k, outcome)), run, d') && |d.queue.accepted| < |d'.queue.executed|
    ensures i < |run| && Runs(c, Step(c, d, TaskRuns(k, outcome)), run[..i], e) && run[i].Execute?
    ensures var t, n := d.work.tasks[k], |d.queue.accepted|;
            && (Settled(d'.work, n) <==> t.delivery.consumer in e.link.runtimes && run[i].channelOk)
            && (forall s :: s in d'.work.settled && s.ticket == n ==>
                  && s.delivery == t.delivery && s.epoch == e.link.epoch
                  && s.action == (if t.hasHandler && outcome.Returned? then outcome.action else Requeue))
  {
    var t, n := d.work.tasks[k], |d.queue.accepted|;
    ReachStep(c, config, d, TaskRuns(k, outcome));
    var q := Step(c, d, TaskRuns(k, outcome));
    TaskAsks(d, k, outcome);
    ReachableInv(c, config, q);
    StillToRun(q, n);
    hide Inv, Step, Initial, Reachable;
    i, e := Moment(c, q, run, d', n);
    CommandOfMoment(c, config, q, run[..i], e, run[i].channelOk, n);
    SettleRuns(c, e, run[i].channelOk);
    InvStep(c, e, run[i]);
    WhatIsDoneStays(c, Step(c, e, run[i]), run[i + 1..], d');
    RunAccepts(c, config, q, run, d');
    SettleAnswerIsTrue(c, config, d', n) by { ExecutedIsAccepted(c, config, d', n); }
    ExecutedIsAccepted(c, config, d', n);
    OnlyThisSettlement(c, config, d', n);
    if t.delivery.consumer in e.link.runtimes && run[i].channelOk {
      var v := VerdictOf(t, outcome);
      SettlementStays(e.work.settled, Settlement(n, e.link.epoch, t.delivery, v, ActionFor(v)), d'.work.settled);
    }
  }

  lemma TaskAsks(d: Driver, k: nat, outcome: Outcome)
    requires k < |d.work.tasks| && Running(d) && !NeedsNoSettling(d.work.tasks[k].delivery)
    ensures var t, v, q := d.work.tasks[k], VerdictOf(d.work.tasks[k], outcome), RunTask(d, k, outcome).queue;
            && |q.accepted| == |d.queue.accepted| + 1 && q.commands != []
            && q.accepted[|d.queue.accepted|].command == Settle(t.delivery, v, ActionFor(v))
            && ActionFor(v) == (if t.hasHandler && outcome.Returned? then outcome.action else Requeue)
  {
  }

  lemma ExecutedIsAccepted(c: Settings, config: Config, d: Driver, n: nat)
    requires Consistent(config) && Reachable(c, config, d) && n < |d.queue.executed|
    ensures n < |d.queue.accepted| && d.queue.executed[n] == d.queue.accepted[n]
  {
    ReachableInv(c, config, d);
  }

  /** No two settlements have the same ticket. */
  lemma OnlyThisSettlement(c: Settings, config: Config, d: Driver, n: nat)
    requires Consistent(config) && Reachable(c, config, d)
    ensures forall s, s' :: s in d.work.settled && s' in d.work.settled && s.ticket == n == s'.ticket ==> s == s'
  {
    SettledOnceAsDecided(c, config, d);
  }

  lemma SettlementStays(before: seq<Settlement>, s: Settlement, after: seq<Settlement>)
    requires before + [s] <= after
    ensures s in after && exists k :: 0 <= k < |after| && after[k].ticket == s.ticket
  {
    assert after[|before|] == (before + [s])[|before|];
  }
}
