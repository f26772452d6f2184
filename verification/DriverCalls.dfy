/** The public calls: a command is enqueued, others go on, and the call returns the answer. */
module DriverCalls {
  import opened Prelude
  import opened BusConfig
  import opened DriverLink
  import opened DriverBootstrap
  import opened DriverModel
  import opened DriverInvariants
  import opened DriverTraps
  import opened DriverAnswers

  /** These events can happen one after another, and then the command has its answer. */
  predicate Awaits(c: Settings, d: Driver, meanwhile: seq<Event>, ticket: nat)
    decreases |meanwhile|
  {
    if meanwhile == [] then ticket in d.queue.answers
    else Enabled(c, d, meanwhile[0]) && Awaits(c, Step(c, d, meanwhile[0]), meanwhile[1..], ticket)
  }

  lemma OneOfAwaited(c: Settings, d: Driver, meanwhile: seq<Event>, ticket: nat)
    requires Awaits(c, d, meanwhile, ticket) && meanwhile != []
    ensures Enabled(c, d, meanwhile[0]) && Awaits(c, Step(c, d, meanwhile[0]), meanwhile[1..], ticket)
  {
  }

  /** The call comes to its end: if its command is accepted, what happens meanwhile answers it. */
  predicate Returns(c: Settings, d: Driver, command: Command, meanwhile: seq<Event>) {
    PassesChecks(command) && Running(d) ==> Awaits(c, EnqueueCommand(d, command), meanwhile, |d.queue.accepted|)
  }

  /** A bad argument or a driver that does not run is refused and changes nothing; otherwise the result is
      the answer given to this very command. */
  predicate Called(c: Settings, d: Driver, command: Command, meanwhile: seq<Event>, d': Driver, r: Status) {
    if !PassesChecks(command) then r == Failure(InvalidArgument) && d' == d
    else if !Running(d) then r == Failure(InvalidState) && d' == d
    else Runs(c, EnqueueCommand(d, command), meanwhile, d') && Answered(d'.queue, |d.queue.accepted|, r)
  }

  // ---- what a caller knows when its call returns ----

  lemma StepAccepts(c: Settings, d: Driver, e: Event)
    requires Enabled(c, d, e)
    ensures d.queue.accepted <= Step(c, d, e).queue.accepted
  {
    hide OnReady, OnSuccess, OnError, FreshTag, ShouldAttempt, PassesChecks;
    match e
    case Call(_) =>
    case TaskRuns(_, _) =>
    case Execute(_) =>
    case Deliver(_, _, _, _) =>
    case OpSucceeds(_) =>
    case OpFails(_) =>
    case _ =>
  }

  lemma {:induction false} RunAccepts(c: Settings, config: Config, d: Driver, run: seq<Event>, d': Driver)
    requires Reachable(c, config, d) && Runs(c, d, run, d')
    ensures d.queue.accepted <= d'.queue.accepted && Reachable(c, config, d')
    decreases |run|
  {
    hide Enabled, Step, Reachable;
    if run != [] {
      StepAccepts(c, d, run[0]);
      ReachStep(c, config, d, run[0]);
      RunAccepts(c, config, Step(c, d, run[0]), run[1..], d');
    }
  }

  /** The command of a call that was accepted keeps its ticket, and has run when it is answered. */
  lemma AnsweredHasRun(c: Settings, config: Config, d: Driver, command: Command, meanwhile: seq<Event>, d': Driver, r: Status)
    requires Consistent(config) && Reachable(c, config, d) && PassesChecks(command) && Running(d)
    requires Called(c, d, command, meanwhile, d', r)
    ensures Reachable(c, config, d') && Answered(d'.queue, |d.queue.accepted|, r)
    ensures |d.queue.accepted| < |d'.queue.executed| && d'.queue.executed[|d.queue.accepted|].command == command
  {
    ReachStep(c, config, d, Call(command));
    var e := EnqueueCommand(d, command);
    RunAccepts(c, config, e, meanwhile, d');
    ReachableInv(c, config, d');
    hide Reachable, Runs;
    var k := |d.queue.accepted|;
    assert e.queue.accepted[k] == Entry(k, command) == d'.queue.accepted[k];
    assert k in d'.queue.completions;
  }

  /** When a declaration returns success, whatever happened meanwhile, what it declared is remembered; when
      the run goes on, every later ready connection has it confirmed. */
  lemma ReturnedDeclareIsRemembered(c: Settings, config: Config, d: Driver, decl: Decl, meanwhile: seq<Event>, d': Driver,
                                    run: seq<Event>, later: Driver)
    requires Consistent(config) && Reachable(c, config, d)
    requires Called(c, d, DeclareOne(decl), meanwhile, d', Success) && Runs(c, d', run, later)
    ensures Holds(d'.link, decl)
    ensures later.link.ready && decl.X? ==> ExchangeUp(later.link, decl.exchange.name)
    ensures later.link.ready && decl.Q? ==> QueueUp(later.link, decl.queue.name)
    ensures later.link.ready && decl.B? ==> BindingUp(later.link, BindingKey(decl.binding))
  {
    AnsweredHasRun(c, config, d, DeclareOne(decl), meanwhile, d', Success);
    hide Reachable, Runs, Holds, Initial;
    var k := |d.queue.accepted|;
    assert Declared(d'.queue, decl) by { assert d'.queue.executed[k].command.DeclareOne? && Answered(d'.queue, k, Success); }
    RememberedIffAnswered(c, config, d', decl);
    if later.link.ready { AnsweredIsRebuilt(c, config, d', decl, run, later); }
  }
}
