/** What holds in every reachable state of the driver, and over every run. */
module DriverResults {
  import opened Prelude
  import opened Backoff
  import opened ConfigValues
  import opened BusConfig
  import opened KeyedLists
  import opened DriverLink
  import opened DriverBootstrap
  import opened DriverModel
  import opened DriverInvariants

  function SettingsOf(config: Config): Settings {
    Settings(config.reconnect.enabled, config.reconnect.initialDelayMs, config.reconnect.maxDelayMs)
  }

  // ---- ready ----

  /** Ready means that this very connection is open and handshaken, that every exchange, queue and
      binding now remembered was confirmed on it with its current spec, and that every configured
      consumer runs with its configured spec and under its configured limit, if it has one. */
  lemma ReadyMeansRebuilt(c: Settings, config: Config, d: Driver)
    requires Consistent(config) && Reachable(c, config, d) && d.link.ready
    ensures d.link.connected && d.link.handshake
    ensures forall x :: x in d.link.exchanges ==> X(x) in d.link.confirmed
    ensures forall q :: q in d.link.queues ==> Q(q) in d.link.confirmed
    ensures forall b :: b in d.link.bindings ==> B(b) in d.link.confirmed
    ensures forall s :: s in config.consumers ==>
              s.name in d.link.runtimes && d.link.runtimes[s.name] == Runtime(s, true)
    ensures forall s :: s in config.consumers ==>
              if s.prefetchCount > 0 then s.name in d.link.prefetch && d.link.prefetch[s.name] == s.prefetchCount
              else s.name !in d.link.prefetch
  {
    ReachableInv(c, config, d);
    var run :| Runs(c, Initial(c, config), run, d);
    RunOnlyGrows(c, Initial(c, config), run, d, config);
    forall s | s in config.consumers ensures Limited(d.link, s) {
      var i :| 0 <= i < |d.link.consumers| && d.link.consumers[i] == s;
      assert Limited(d.link, d.link.consumers[i]);
    }
  }

  /** Callers see Connected exactly when the driver is ready, and ready implies handshaken implies
      connected; a thread that is gone has no connection. */
  lemma StateTellsReadiness(c: Settings, config: Config, d: Driver)
    requires Consistent(config) && Reachable(c, config, d)
    ensures d.link.state.Connected? <==> d.link.ready
    ensures d.link.ready ==> d.link.handshake
    ensures d.link.handshake ==> d.link.connected
    ensures d.link.connected ==> !d.pc.NoThread? && !d.pc.Exited?
  {
    ReachableInv(c, config, d);
  }

  // ---- the remembered topology only grows ----

  /** Consumers never change; what is remembered keeps its place, and new keys come last. */
  ghost predicate Grown(l: Link, l': Link) {
    && l'.consumers == l.consumers
    && Keys(l.exchanges, ExchangeName) <= Keys(l'.exchanges, ExchangeName)
    && Keys(l.queues, QueueName) <= Keys(l'.queues, QueueName)
    && Keys(l.bindings, BindingKey) <= Keys(l'.bindings, BindingKey)
  }

  lemma GrownNames(l: Link, l': Link)
    requires Grown(l, l')
    ensures forall n :: ExchangeKnown(l, n) ==> ExchangeKnown(l', n)
    ensures forall n :: QueueKnown(l, n) ==> QueueKnown(l', n)
    ensures forall b :: b in Keys(l.bindings, BindingKey) ==> b in Keys(l'.bindings, BindingKey)
  {
    PrefixContents(Keys(l.exchanges, ExchangeName), Keys(l'.exchanges, ExchangeName));
    PrefixContents(Keys(l.queues, QueueName), Keys(l'.queues, QueueName));
    PrefixContents(Keys(l.bindings, BindingKey), Keys(l'.bindings, BindingKey));
  }

  lemma PrefixContents<T>(s: seq<T>, t: seq<T>)
    requires s <= t
    ensures forall x :: x in s ==> x in t
  {
    assert forall i :: 0 <= i < |s| ==> s[i] == t[i];
  }

  lemma RememberGrows(l: Link, d: Decl)
    requires UniqueTopology(l)
    ensures Grown(l, Remember(l, d))
  {
    match d
    case X(x) => UpsertRefinesMapUpdate(l.exchanges, ExchangeName, x);
    case Q(q) => UpsertRefinesMapUpdate(l.queues, QueueName, q);
    case B(b) => UpsertRefinesMapUpdate(l.bindings, BindingKey, b);
  }

  lemma CallbackGrows(l: Link, id: nat)
    requires LinkInv(l) && id in l.ops && (l.ops[id].Qos? ==> l.ops[id].index < |l.consumers|)
    ensures Grown(l, OnSuccess(l, id)) && Grown(l, OnError(l, id))
  {
    hide ChainGoesOn;
    if l.ops[id].Declare? {
      RememberGrows(Confirm(Finished(l, id), l.ops[id].decl), l.ops[id].decl);
    } else {
      BootSuccessAdvances(l, id);
    }
  }

  lemma StepGrows(c: Settings, d: Driver, e: Event)
    requires LinkInv(d.link) && Enabled(c, d, e)
    ensures Grown(d.link, Step(c, d, e).link)
  {
    hide LinkInv, OnReady, OnSuccess, OnError, FreshTag, ShouldAttempt, PassesChecks;
    match e
    case Handshake => HandshakeGrows(d.link);
    case OpSucceeds(id) => CallbackGrows(d.link, id);
    case OpFails(id) => CallbackGrows(d.link, id);
    case Execute(_) =>
    case Deliver(_, _, _, _) =>
    case TaskRuns(_, _) =>
    case Attempt(_) =>
    case DropNow =>
    case _ =>
  }

  lemma HandshakeGrows(l: Link)
    ensures Grown(l, OnReady(l))
  {
    hide BootstrapExchanges;
    ExchangesAdvance(l.(handshake := true), 0);
  }

  lemma {:induction false} RunGrows(c: Settings, from: Driver, run: seq<Event>, to: Driver)
    requires Inv(c, from) && Runs(c, from, run, to)
    ensures Grown(from.link, to.link)
    decreases |run|
  {
    hide Enabled, Step, LinkInv, ThreadInv, QueueInv, PromiseInv, AnswerInv, WaitInv, WorkInv, ClockInv, AttemptInv;
    if run != [] {
      InvStep(c, from, run[0]);
      StepGrows(c, from, run[0]);
      RunGrows(c, Step(c, from, run[0]), run[1..], to);
    }
  }

  lemma RunOnlyGrows(c: Settings, from: Driver, run: seq<Event>, to: Driver, config: Config)
    requires Consistent(config) && from == Initial(c, config) && Runs(c, from, run, to)
    ensures to.link.consumers == config.consumers
  {
    hide Inv;
    InitialInv(c, config);
    RunGrows(c, from, run, to);
  }

  /** For the driver's whole life the keys of each list stay distinct, what is remembered keeps its
      place, and the consumers stay the configured ones. */
  lemma ListsOnlyGrow(c: Settings, config: Config, d: Driver, run: seq<Event>, d': Driver)
    requires Consistent(config) && Reachable(c, config, d) && Runs(c, d, run, d')
    ensures UniqueTopology(d.link) && UniqueTopology(d'.link) && Grown(d.link, d'.link)
    ensures d.link.consumers == config.consumers
  {
    ReachableInv(c, config, d);
    RunGrows(c, d, run, d');
    RunKeepsInv(c, d, run, d');
    var before :| Runs(c, Initial(c, config), before, d);
    RunOnlyGrows(c, Initial(c, config), before, d, config);
  }

  /** Whatever was once remembered, by configuration or by a confirmed run-time declaration, is part of
      every later ready connection: reconnecting rebuilds it. */
  lemma OnceRememberedAlwaysRebuilt(c: Settings, config: Config, d: Driver, run: seq<Event>, d': Driver)
    requires Consistent(config) && Reachable(c, config, d) && Runs(c, d, run, d') && d'.link.ready
    ensures forall n :: ExchangeKnown(d.link, n) ==> ExchangeUp(d'.link, n)
    ensures forall n :: QueueKnown(d.link, n) ==> QueueUp(d'.link, n)
    ensures forall k :: k in Keys(d.link.bindings, BindingKey) ==> BindingUp(d'.link, k)
  {
    ReachableInv(c, config, d);
    RunGrows(c, d, run, d');
    RunKeepsInv(c, d, run, d');
    GrownNames(d.link, d'.link);
    forall n | ExchangeKnown(d.link, n) ensures ExchangeUp(d'.link, n) { AllExchangesUp(d'.link, n); }
    forall n | QueueKnown(d.link, n) ensures QueueUp(d'.link, n) { AllQueuesUp(d'.link, n); }
    forall k | k in Keys(d.link.bindings, BindingKey) ensures BindingUp(d'.link, k) { AllBindingsUp(d'.link, k); }
  }

  // ---- the queue ----

  /** The commands ever accepted are those executed, the local batch and those still queued, in the
      order of acceptance; outside a drain no batch is left over, so whatever a drain took has run. */
  lemma CommandsAreFifo(c: Settings, config: Config, d: Driver)
    requires Consistent(config) && Reachable(c, config, d)
    ensures d.queue.accepted == d.queue.executed + d.queue.local + d.queue.commands
    ensures !d.pc.Drain? ==> d.queue.local == []
    ensures forall i :: 0 <= i < |d.queue.accepted| ==> d.queue.accepted[i].ticket == i
  {
    ReachableInv(c, config, d);
  }

  /** No promise is set twice, only commands that have run are answered, and every command that has
      run is answered unless it is a declaration, whose answer is up to the broker. */
  lemma EachPromiseOnce(c: Settings, config: Config, d: Driver)
    requires Consistent(config) && Reachable(c, config, d)
    ensures Distinct(d.queue.completions)
    ensures forall t :: t in d.queue.completions ==> t < |d.queue.executed|
    ensures forall i :: 0 <= i < |d.queue.executed| && !d.queue.executed[i].command.DeclareOne? ==> i in d.queue.completions
    ensures forall id :: id in d.link.ops && d.link.ops[id].Declare? ==>
              d.link.ops[id].ticket < |d.queue.executed| && d.link.ops[id].ticket !in d.queue.completions
  {
    ReachableInv(c, config, d);
    assert forall i :: 0 <= i < |d.queue.executed| ==> d.queue.accepted[i] == d.queue.executed[i];
  }

  /** A drain can always run to its end, and runs every command of its batch in order, whether or not
      a stop has been requested meanwhile. */
  lemma {:induction false} DrainsCompletely(c: Settings, d: Driver) returns (run: seq<Event>, d': Driver)
    requires d.pc.Drain?
    ensures Runs(c, d, run, d') && d'.pc.Turn? && d'.queue.local == []
    ensures d'.queue.executed == d.queue.executed + d.queue.local && d'.stopRequested == d.stopRequested
    decreases |d.queue.local|
  {
    hide Enabled, Step;
    if d.queue.local == [] {
      DrainCanEnd(c, d);
      run, d' := [DrainDone], Step(c, d, DrainDone);
      assert Runs(c, d', run[1..], d');
    } else {
      DrainGoesOn(c, d);
      Reassociate(d.queue.executed, [d.queue.local[0]], d.queue.local[1..]);
      HeadAndTail(d.queue.local);
      var next := Step(c, d, Execute(true));
      var rest;
      rest, d' := DrainsCompletely(c, next);
      run := [Execute(true)] + rest;
      assert run[1..] == rest;
    }
  }

  lemma DrainCanEnd(c: Settings, d: Driver)
    requires d.pc.Drain? && d.queue.local == []
    ensures Enabled(c, d, DrainDone) && Step(c, d, DrainDone) == d.(pc := Turn)
  {
  }

  lemma DrainGoesOn(c: Settings, d: Driver)
    requires d.pc.Drain? && d.queue.local != []
    ensures Enabled(c, d, Execute(true))
    ensures var d' := Step(c, d, Execute(true));
            && d'.pc.Drain? && d'.stopRequested == d.stopRequested && d'.queue.local == d.queue.local[1..]
            && d'.queue.executed == d.queue.executed + [d.queue.local[0]]
  {
    hide FreshTag, ShouldAttempt, PassesChecks;
  }

  /** In a drain the batch only moves to the executed commands; outside one these only grow. */
  lemma StepDrains(c: Settings, d: Driver, e: Event)
    requires ThreadInv(d) && Enabled(c, d, e)
    ensures var q, q' := d.queue, Step(c, d, e).queue;
            && q.executed <= q'.executed
            && (d.pc.Drain? ==> q.executed + q.local == q'.executed + q'.local)
            && (d.pc.Drain? && !Step(c, d, e).pc.Drain? ==> q'.local == [])
  {
    hide OnReady, OnSuccess, OnError, FreshTag, ShouldAttempt, PassesChecks;
    match e
    case Execute(_) => HeadAndTail(d.queue.local); Reassociate(d.queue.executed, [d.queue.local[0]], d.queue.local[1..]);
    case TaskRuns(_, _) =>
    case Deliver(_, _, _, _) =>
    case OpSucceeds(_) =>
    case OpFails(_) =>
    case DrainDone =>
    case _ =>
  }

  lemma {:induction false} ExecutedGrows(c: Settings, d: Driver, run: seq<Event>, d': Driver)
    requires Inv(c, d) && Runs(c, d, run, d')
    ensures d.queue.executed <= d'.queue.executed
    decreases |run|
  {
    hide Enabled, Step, LinkInv, ThreadInv, QueueInv, PromiseInv, AnswerInv, WaitInv, WorkInv, ClockInv, AttemptInv;
    if run != [] {
      InvStep(c, d, run[0]);
      StepDrains(c, d, run[0]);
      ExecutedGrows(c, Step(c, d, run[0]), run[1..], d');
    }
  }

  /** Whatever callers and stop requests come in between, a run that leaves a drain has executed the
      whole batch, in order. */
  lemma {:induction false} DrainIsNeverCutShort(c: Settings, d: Driver, run: seq<Event>, d': Driver)
    requires Inv(c, d) && Runs(c, d, run, d') && d.pc.Drain? && !d'.pc.Drain?
    ensures d.queue.executed + d.queue.local <= d'.queue.executed
    decreases |run|
  {
    hide Enabled, Step, LinkInv, ThreadInv, QueueInv, PromiseInv, AnswerInv, WaitInv, WorkInv, ClockInv, AttemptInv;
    assert run != [];
    var next := Step(c, d, run[0]);
    InvStep(c, d, run[0]);
    StepDrains(c, d, run[0]);
    if next.pc.Drain? {
      DrainIsNeverCutShort(c, next, run[1..], d');
    } else {
      ExecutedGrows(c, next, run[1..], d');
    }
  }

  /** How many of the accepted commands have been taken by a drain. */
  function Taken(q: Queue): nat { |q.executed| + |q.local| }

  lemma StepTakes(c: Settings, d: Driver, e: Event)
    requires ThreadInv(d) && QueueInv(d.queue) && Enabled(c, d, e)
    ensures Taken(Step(c, d, e).queue) == if e.SwapQueue? then |d.queue.accepted| else Taken(d.queue)
    ensures |d.queue.accepted| <= |Step(c, d, e).queue.accepted|
  {
    hide OnReady, OnSuccess, OnError, FreshTag, ShouldAttempt, PassesChecks;
    match e
    case Execute(_) =>
    case TaskRuns(_, _) =>
    case Deliver(_, _, _, _) =>
    case OpSucceeds(_) =>
    case OpFails(_) =>
    case SwapQueue =>
    case Attempt(_) =>
    case DropNow =>
    case _ =>
  }

  lemma TakenIsAccepted(q: Queue)
    requires QueueInv(q)
    ensures Taken(q) <= |q.accepted|
  {
  }

  predicate Swaps(run: seq<Event>) { exists i :: 0 <= i < |run| && run[i].SwapQueue? }

  /** A command still queued is taken exactly when the loop swaps the deque out once more. */
  lemma {:induction false} TakenIffSwapped(c: Settings, d: Driver, run: seq<Event>, d': Driver, k: nat)
    requires Inv(c, d) && Runs(c, d, run, d') && k < |d.queue.accepted|
    ensures Taken(d.queue) <= Taken(d'.queue)
    ensures Taken(d.queue) <= k ==> (k < Taken(d'.queue) <==> Swaps(run))
    decreases |run|
  {
    hide Enabled, Step, LinkInv, ThreadInv, QueueInv, PromiseInv, AnswerInv, WaitInv, WorkInv, ClockInv, AttemptInv, Taken;
    if run != [] {
      InvStep(c, d, run[0]);
      StepTakes(c, d, run[0]);
      TakenIsAccepted(d.queue);
      TakenIffSwapped(c, Step(c, d, run[0]), run[1..], d', k);
      assert run[0].SwapQueue? ==> Swaps(run);
      if i :| 0 <= i < |run[1..]| && run[1..][i].SwapQueue? { assert run[i + 1].SwapQueue?; }
      if i :| 0 < i < |run| && run[i].SwapQueue? { assert run[1..][i - 1].SwapQueue?; }
    }
  }

  /** Which accepted commands run: one that no drain has taken yet has been executed, outside the drains,
      exactly when the loop has swapped the deque out once more. */
  lemma CommandRunsIffSwapped(c: Settings, config: Config, d: Driver, run: seq<Event>, d': Driver, k: nat)
    requires Consistent(config) && Reachable(c, config, d) && Runs(c, d, run, d') && !d'.pc.Drain?
    requires |d.queue.executed| + |d.queue.local| <= k < |d.queue.accepted|
    ensures k < |d'.queue.executed| <==> exists i :: 0 <= i < |run| && run[i].SwapQueue?
  {
    ReachableInv(c, config, d);
    RunKeepsInv(c, d, run, d');
    TakenIffSwapped(c, d, run, d', k);
  }

  // ---- backing off ----

  /** Attempts since the last start, and failures or disconnects since the delay was last reset. */
  datatype Past = Past(attempts: nat, failures: nat, lastFailure: int)

  function Lived(d: Driver, e: Event, p: Past): Past {
    match e
    case Start(_) => p.(attempts := 0, failures := 0)
    case Attempt(true) => p.(attempts := p.attempts + 1, failures := 0)
    case Attempt(false) => Past(p.attempts + 1, p.failures + 1, d.clock.now)
    case DropNow => if d.stopRequested then p else p.(failures := p.failures + 1, lastFailure := d.clock.now)
    case _ => p
  }

  function PastOf(c: Settings, from: Driver, run: seq<Event>, p: Past): Past
    decreases |run|
  {
    if run == [] || !Enabled(c, from, run[0]) then p
    else PastOf(c, Step(c, from, run[0]), run[1..], Lived(from, run[0], p))
  }

  function ClockPast(k: Clock): Past { Past(k.attempts, k.failures, k.lastFailure) }

  lemma StepRecordsPast(c: Settings, d: Driver, e: Event)
    requires Enabled(c, d, e)
    ensures ClockPast(Step(c, d, e).clock) == Lived(d, e, ClockPast(d.clock))
  {
    hide OnReady, OnSuccess, OnError, FreshTag, ShouldAttempt, PassesChecks;
    match e
    case Start(_) =>
    case Attempt(_) =>
    case DropNow =>
    case _ =>
  }

  lemma {:induction false} RunRecordsPast(c: Settings, from: Driver, run: seq<Event>, to: Driver)
    requires Runs(c, from, run, to)
    ensures ClockPast(to.clock) == PastOf(c, from, run, ClockPast(from.clock))
    decreases |run|
  {
    hide Enabled, Step, Lived, ClockPast;
    if run != [] {
      StepRecordsPast(c, from, run[0]);
      RunRecordsPast(c, Step(c, from, run[0]), run[1..], to);
    }
  }

  /** With reconnecting disabled every start is followed by one connection attempt at most. */
  lemma OneAttemptPerStart(c: Settings, config: Config, run: seq<Event>, d: Driver)
    requires Consistent(config) && Runs(c, Initial(c, config), run, d) && !c.enabled
    ensures PastOf(c, Initial(c, config), run, Past(0, 0, 0)).attempts <= 1
  {
    RunRecordsPast(c, Initial(c, config), run, d);
    ReachableInv(c, config, d);
  }

  /** The next step may double the delay. */
  predicate AboutToBackOff(c: Settings, d: Driver) {
    Enabled(c, d, Attempt(false)) || (Enabled(c, d, DropNow) && !d.stopRequested)
  }

  /** Without reconnecting the delay is doubled at most once after each start. */
  predicate BackoffGuard(c: Settings) {
    if c.enabled then DoublingGuard(c.initialDelay, c.maxDelay) else FitsInt32(c.initialDelay * 2)
  }

  lemma BackingOffFits(c: Settings, d: Driver)
    requires Inv(c, d) && AboutToBackOff(c, d) && BackoffGuard(c)
    ensures FitsInt32(d.clock.delay * 2)
  {
    hide LinkInv, QueueInv, PromiseInv, AnswerInv, WaitInv, WorkInv, FreshTag, PassesChecks;
    if c.enabled { GuardedStaysSmall(c.initialDelay, c.maxDelay, d.clock.failures); }
  }

  /** Under the guard of `DriverOverflow.BackoffFitsIff`, after k failures or disconnects since the last
      reset the delay is the initial one doubled k times, capped, and no attempt starts before the last
      failure plus the delay that applied to it. */
  lemma BacksOff(c: Settings, config: Config, run: seq<Event>, d: Driver)
    requires Consistent(config) && Runs(c, Initial(c, config), run, d)
    requires 0 <= c.initialDelay <= c.maxDelay && BackoffGuard(c)
    ensures var p := PastOf(c, Initial(c, config), run, Past(0, 0, 0));
            && d.clock.delay == Min(c.initialDelay * Pow2(p.failures), c.maxDelay)
            && (AboutToBackOff(c, d) ==> FitsInt32(d.clock.delay * 2))
            && (c.enabled && p.failures > 0 && (Enabled(c, d, Attempt(true)) || Enabled(c, d, Attempt(false))) ==>
                  d.clock.now >= p.lastFailure + Min(c.initialDelay * Pow2(p.failures - 1), c.maxDelay))
  {
    hide Inv, Initial, AboutToBackOff, BackoffGuard, Enabled, Runs, PastOf;
    InitialPast(c, config);
    RunRecordsPast(c, Initial(c, config), run, d);
    ReachesItself(c, config, run, d);
    ReachableInv(c, config, d);
    if AboutToBackOff(c, d) { BackingOffFits(c, d); }
    DelayIsClosed(c, d);
    AttemptIsDue(c, d);
  }

  lemma InitialPast(c: Settings, config: Config)
    ensures ClockPast(Initial(c, config).clock) == Past(0, 0, 0)
  {
  }

  lemma ReachesItself(c: Settings, config: Config, run: seq<Event>, d: Driver)
    requires Runs(c, Initial(c, config), run, d)
    ensures Reachable(c, config, d)
  {
  }

  lemma DelayIsClosed(c: Settings, d: Driver)
    requires Inv(c, d) && 0 <= c.initialDelay <= c.maxDelay
    ensures d.clock.delay == Min(c.initialDelay * Pow2(d.clock.failures), c.maxDelay)
    ensures d.clock.failures > 0 ==>
              d.clock.nextAt == d.clock.lastFailure + Min(c.initialDelay * Pow2(d.clock.failures - 1), c.maxDelay)
  {
    assert ClockInv(c, d);
    hide Inv;
    var k := d.clock.failures;
    DelayClosedForm(c.initialDelay, c.maxDelay, k);
    if k > 0 { DelayClosedForm(c.initialDelay, c.maxDelay, k - 1); }
  }

  lemma AttemptIsDue(c: Settings, d: Driver)
    ensures c.enabled && (Enabled(c, d, Attempt(true)) || Enabled(c, d, Attempt(false))) ==> d.clock.now >= d.clock.nextAt
  {
  }

  /** From the configuration text to the delays: as long as the configured maximum survives its cast and
      no doubling overflows, the delays of every run are those that were configured. */
  lemma ConfiguredDelaysAreUsed(root: ConfigValue, run: seq<Event>, d: Driver)
    requires BusConfigOf(root).Ok? && ParseTiming(root).value.max < TWO_TO_THE_31
    requires var config := BusConfigOf(root).value;
             BackoffGuard(SettingsOf(config)) && Runs(SettingsOf(config), Initial(SettingsOf(config), config), run, d)
    ensures var config, t := BusConfigOf(root).value, ParseTiming(root).value;
            var p := PastOf(SettingsOf(config), Initial(SettingsOf(config), config), run, Past(0, 0, 0));
            d.clock.delay == Min(t.initial * Pow2(p.failures), t.max)
  {
    var config := BusConfigOf(root).value;
    AcceptedIsConsistent(root);
    DelaysSurviveIff(root);
    hide Consistent, BusConfigOf, ParseTiming, Runs, PastOf, Initial, BackoffGuard;
    BacksOff(SettingsOf(config), config, run, d);
  }

  /** Whatever the delays, a configuration that switches reconnecting off is obeyed. */
  lemma ConfiguredSwitchIsObeyed(root: ConfigValue, run: seq<Event>, d: Driver)
    requires BusConfigOf(root).Ok? && !ParseTiming(root).value.enabled
    requires var config := BusConfigOf(root).value;
             Runs(SettingsOf(config), Initial(SettingsOf(config), config), run, d)
    ensures var config := BusConfigOf(root).value;
            PastOf(SettingsOf(config), Initial(SettingsOf(config), config), run, Past(0, 0, 0)).attempts <= 1
  {
    var config := BusConfigOf(root).value;
    AcceptedIsConsistent(root);
    SwitchSurvives(root);
    hide Consistent, BusConfigOf, ParseTiming, Runs, PastOf, Initial;
    OneAttemptPerStart(SettingsOf(config), config, run, d);
  }

  lemma SwitchSurvives(root: ConfigValue)
    requires BusConfigOf(root).Ok?
    ensures ParseTiming(root).Ok? && BusConfigOf(root).value.reconnect.enabled == ParseTiming(root).value.enabled
  {
  }

  // ---- settlement ----

  /** Every ack or reject answers a recorded delivery that the broker does not acknowledge by itself,
      with the action decided for it; no delivery is answered twice; and answers are given in the
      order in which they were asked for. */
  lemma SettledOnceAsDecided(c: Settings, config: Config, d: Driver)
    requires Consistent(config) && Reachable(c, config, d)
    ensures forall s :: s in d.work.settled ==>
              Recorded(d.work, s.delivery) && !s.delivery.autoAck && s.action == ActionFor(s.verdict)
    ensures forall i, j :: 0 <= i < j < |d.work.settled| ==>
              d.work.settled[i].delivery != d.work.settled[j].delivery && d.work.settled[i].ticket < d.work.settled[j].ticket
  {
    ReachableInv(c, config, d);
    hide Inv;
    SettledFacts(d.queue, d.work);
  }

  lemma SettledFacts(q: Queue, w: Work)
    requires SettlesOnce(q, w) && SettledFromQueue(q, w) && QueueInv(q)
    ensures forall s :: s in w.settled ==> Recorded(w, s.delivery) && !s.delivery.autoAck && s.action == ActionFor(s.verdict)
    ensures forall i, j :: 0 <= i < j < |w.settled| ==>
              w.settled[i].delivery != w.settled[j].delivery && w.settled[i].ticket < w.settled[j].ticket
  {
    forall s | s in w.settled
      ensures Recorded(w, s.delivery) && !s.delivery.autoAck && s.action == ActionFor(s.verdict)
    {
      var i :| 0 <= i < |w.settled| && w.settled[i] == s;
      assert q.accepted[s.ticket].command == Settle(s.delivery, s.verdict, s.action);
    }
    forall i, j | 0 <= i < j < |w.settled| ensures w.settled[i].delivery != w.settled[j].delivery {
      var a, b := w.settled[i].ticket, w.settled[j].ticket;
      assert q.accepted[a].command.delivery.id != q.accepted[b].command.delivery.id;
    }
  }

  /** A consumer's channel gets two answers with one tag only if one of them is for a delivery of an
      earlier connection: within an epoch each tag is answered at most once. */
  lemma TagAnsweredOncePerEpoch(c: Settings, config: Config, d: Driver, i: nat, j: nat)
    requires Consistent(config) && Reachable(c, config, d) && i < j < |d.work.settled|
    requires d.work.settled[i].epoch == d.work.settled[j].epoch
    requires d.work.settled[i].delivery.consumer == d.work.settled[j].delivery.consumer
    requires d.work.settled[i].delivery.tag == d.work.settled[j].delivery.tag
    ensures var s, t := d.work.settled[i], d.work.settled[j];
            s.delivery.epoch != t.delivery.epoch && (s.delivery.epoch < s.epoch || t.delivery.epoch < t.epoch)
  {
    ReachableInv(c, config, d);
    hide Inv;
    SettledFacts(d.queue, d.work);
    var s, t := d.work.settled[i], d.work.settled[j];
    assert s in d.work.settled && t in d.work.settled;
    assert Recorded(d.work, s.delivery) && Recorded(d.work, t.delivery);
    assert s.delivery != t.delivery;
  }

  lemma StepCountsEpochs(c: Settings, d: Driver, e: Event)
    requires Enabled(c, d, e)
    ensures Step(c, d, e).link.epoch == d.link.epoch + (if e == Attempt(true) then 1 else 0)
  {
    hide OnReady, OnSuccess, OnError, FreshTag, ShouldAttempt, PassesChecks;
    match e
    case Handshake => HandshakeKeepsConnection(d.link);
    case OpSucceeds(id) => CallbackKeepsConnection(d.link, id);
    case OpFails(id) => CallbackKeepsConnection(d.link, id);
    case Execute(_) =>
    case TaskRuns(_, _) =>
    case Deliver(_, _, _, _) =>
    case Attempt(_) =>
    case DropNow =>
    case _ =>
  }

  predicate Reconnects(run: seq<Event>) { exists i :: 0 <= i < |run| && run[i] == Attempt(true) }

  lemma {:induction false} RunCountsEpochs(c: Settings, from: Driver, run: seq<Event>, to: Driver)
    requires Runs(c, from, run, to)
    ensures from.link.epoch <= to.link.epoch
    ensures from.link.epoch < to.link.epoch <==> Reconnects(run)
    decreases |run|
  {
    hide Enabled, Step;
    if run != [] {
      StepCountsEpochs(c, from, run[0]);
      RunCountsEpochs(c, Step(c, from, run[0]), run[1..], to);
      assert run[0] == Attempt(true) ==> Reconnects(run);
      if i :| 0 <= i < |run[1..]| && run[1..][i] == Attempt(true) { assert run[i + 1] == Attempt(true); }
      if i :| 0 < i < |run| && run[i] == Attempt(true) { assert run[1..][i - 1] == Attempt(true); }
    }
  }

  /** When an answer is late: the ack or reject of a delivery goes to another connection's channel exactly
      when a connection was opened between the arrival of the delivery and the execution of the command. */
  lemma AnswerIsLateIff(c: Settings, d: Driver, consumer: string, tag: nat, hasHandler: bool, pool: PoolAnswer,
                        run: seq<Event>, d': Driver, channelOk: bool)
    requires Enabled(c, d, Deliver(consumer, tag, hasHandler, pool))
    requires Runs(c, Step(c, d, Deliver(consumer, tag, hasHandler, pool)), run, d') && Enabled(c, d', Execute(channelOk))
    requires var before, after := d'.work.settled, Step(c, d', Execute(channelOk)).work.settled;
             |after| == |before| + 1 && after[|before|].delivery == NewDelivery(d, consumer, tag)
    ensures var s := Step(c, d', Execute(channelOk)).work.settled[|d'.work.settled|];
            s.epoch != s.delivery.epoch <==> Reconnects(run)
  {
    hide Runs, FreshTag;
    RunCountsEpochs(c, Step(c, d, Deliver(consumer, tag, hasHandler, pool)), run, d');
  }

  /** A worker task that must settle asks for exactly the handler's result, and for a requeue when
      there is no handler or the handler threw; one that need not asks for nothing; it runs once. */
  lemma TaskAsksForItsVerdict(c: Settings, config: Config, d: Driver, k: nat, outcome: Outcome)
    requires Consistent(config) && Reachable(c, config, d) && k < |d.work.tasks|
    ensures var t := d.work.tasks[k];
            var d' := Step(c, d, TaskRuns(k, outcome));
            && (forall m :: 0 <= m < |d'.work.tasks| ==> d'.work.tasks[m].delivery != t.delivery)
            && (t.delivery.autoAck || !Running(d) ==> d'.queue == d.queue)
            && (!NeedsNoSettling(t.delivery) && Running(d) ==>
                  && |d'.queue.accepted| == |d.queue.accepted| + 1
                  && var asked := d'.queue.accepted[|d.queue.accepted|].command;
                     asked.Settle? && asked.delivery == t.delivery &&
                     asked.action == if t.hasHandler && outcome.Returned? then outcome.action else Requeue)
  {
    ReachableInv(c, config, d);
    var tasks := d.work.tasks;
    var rest := tasks[..k] + tasks[k + 1..];
    assert TasksOnce(d.work);
    forall m | 0 <= m < |rest| ensures rest[m].delivery != tasks[k].delivery {
      var n := if m < k then m else m + 1;
      assert rest[m] == tasks[n];
      assert tasks[n].delivery.id != tasks[k].delivery.id;
    }
  }
}
