/** `RabbitMqConnectionDriver` with its own fields, updated in place.  Every method is proved to do to
    `View()` exactly what the driver's transition system says; what holds over all its runs is proved
    there.  The fields of the last group only observe. */
module ConnectionDriver {
  import opened Prelude
  import opened Backoff
  import opened BusConfig
  import opened KeyedLists
  import opened DriverLink
  import opened DriverModel
  import opened DriverInvariants
  import opened DriverAnswers
  import opened DriverCalls

  class RabbitMqConnectionDriver {
    const settings: Settings
    // the remembered topology: config_.exchanges, .queues, .bindings, .consumers
    var exchanges: seq<ExchangeSpec>
    var queues: seq<QueueSpec>
    var bindings: seq<BindingSpec>
    var consumers: seq<ConsumerSpec>
    // thread_, and where it is
    var thread: ThreadPc
    var stopRequested: bool
    var state: ConnectionState
    var commands: seq<Entry>
    var localCommands: seq<Entry>
    // the connection
    var consumerRuntimes: map<string, Runtime>
    var connected: bool
    var ready: bool
    var handshakeReady: bool
    var pendingDisconnect: bool
    var callbacks: map<nat, Op>
    var nextReconnectAt: int
    var reconnectDelayMs: int
    // tasks handed to the worker pool
    var tasks: seq<Task>
    // observers
    var now: int
    var nextOp: nat
    var epoch: nat
    var confirmed: set<Decl>
    var prefetch: map<string, nat>
    var accepted: seq<Entry>
    var executed: seq<Entry>
    var completions: seq<nat>
    // the promises that have been set
    var answers: map<nat, Status>
    var failures: nat
    var lastFailure: int
    var attempts: nat
    var deliveries: seq<Delivery>
    var settled: seq<Settlement>
    var published: seq<Publication>

    ghost function LinkView(): Link
      reads `exchanges, `queues, `bindings, `consumers, `state, `connected, `ready, `handshakeReady, `pendingDisconnect,
            `consumerRuntimes, `callbacks, `nextOp, `epoch, `confirmed, `prefetch
    {
      Link(exchanges, queues, bindings, consumers, state, connected, ready, handshakeReady, pendingDisconnect,
           consumerRuntimes, callbacks, nextOp, epoch, confirmed, prefetch)
    }

    ghost function QueueView(): Queue
      reads `accepted, `executed, `localCommands, `commands, `completions, `answers
    {
      Queue(accepted, executed, localCommands, commands, completions, answers)
    }

    ghost function ClockView(): Clock
      reads `now, `nextReconnectAt, `reconnectDelayMs, `failures, `lastFailure, `attempts
    {
      Clock(now, nextReconnectAt, reconnectDelayMs, failures, lastFailure, attempts)
    }

    ghost function WorkView(): Work
      reads `deliveries, `tasks, `settled, `published
    {
      Work(deliveries, tasks, settled, published)
    }

    ghost function View(): Driver
      reads this
    {
      Driver(thread, stopRequested, LinkView(), QueueView(), ClockView(), WorkView())
    }

    constructor (c: Settings, config: Config)
      ensures View() == Initial(c, config) && settings == c
    {
      settings := c;
      exchanges, queues, bindings, consumers := config.exchanges, config.queues, config.bindings, config.consumers;
      thread, stopRequested, state := NoThread, false, Created;
      commands, localCommands, consumerRuntimes := [], [], map[];
      connected, ready, handshakeReady, pendingDisconnect := false, false, false, false;
      callbacks, nextReconnectAt, reconnectDelayMs, tasks := map[], 0, c.initialDelay, [];
      now, nextOp, epoch, confirmed, accepted, executed, completions, answers := 0, 0, 0, {}, [], [], [], map[];
      failures, lastFailure, attempts, deliveries, settled, published, prefetch := 0, 0, 0, [], [], [], map[];
    }

    // ---- the parts that the methods below change ----

    lemma Fields()
      ensures LinkView().ready == ready && LinkView().runtimes == consumerRuntimes && LinkView().epoch == epoch
      ensures LinkView().ops == callbacks && LinkView().consumers == consumers
      ensures QueueView().local == localCommands && QueueView().accepted == accepted
      ensures WorkView().deliveries == deliveries && WorkView().tasks == tasks && WorkView().settled == settled && WorkView().published == published
      ensures ClockView().attempts == attempts
    {
    }

    method SetState(next: ConnectionState)
      modifies `state
      ensures LinkView() == old(LinkView()).(state := next)
    {
      state := next;
    }

    method ResetClock()
      modifies `nextReconnectAt, `reconnectDelayMs, `failures, `attempts
      ensures ClockView() == var k := old(ClockView());
                             k.(nextAt := k.now, delay := settings.initialDelay, failures := 0, attempts := 0)
    {
      nextReconnectAt := now;
      reconnectDelayMs := settings.initialDelay;
      failures := 0;
      attempts := 0;
    }

    /** Sets the promise of a command, unless it has been set. */
    method CompletePendingResult(ticket: nat, answer: Status)
      modifies `completions, `answers
      ensures QueueView() == Complete(old(QueueView()), ticket, answer)
    {
      completions := completions + [ticket];
      if ticket in answers {
        return;
      }
      answers := answers[ticket := answer];
    }

    method SubmitOp(op: Op)
      modifies `callbacks, `nextOp
      ensures LinkView() == Submit(old(LinkView()), op)
    {
      callbacks := callbacks[nextOp := op];
      nextOp := nextOp + 1;
    }

    method Disconnect()
      modifies `pendingDisconnect
      ensures LinkView() == RequestDisconnect(old(LinkView()))
    {
      pendingDisconnect := true;
    }

    /** The callback of an operation fires. */
    method TakeCallback(id: nat) returns (op: Op)
      requires id in callbacks
      modifies `callbacks
      ensures LinkView() == Finished(old(LinkView()), id) && op == old(callbacks[id])
    {
      op := callbacks[id];
      callbacks := callbacks - {id};
    }

    method ConfirmDecl(d: Decl)
      modifies `confirmed
      ensures LinkView() == Confirm(old(LinkView()), d)
    {
      confirmed := confirmed + {d};
    }

    // ---- callers ----

    method Start(socketOk: bool) returns (r: Status)
      modifies `thread, `stopRequested, `state, `nextReconnectAt, `reconnectDelayMs, `failures, `attempts
      ensures r == if old(thread.NoThread?) then Success else Failure(InvalidState)
      ensures View() == if old(thread.NoThread?) then Begin(settings, old(View()), socketOk) else old(View())
    {
      hide LinkView, QueueView, ClockView, WorkView, Begin;
      if !thread.NoThread? {
        return Failure(InvalidState);
      }
      Launch(socketOk);
      r := Success;
    }

    method Launch(socketOk: bool)
      modifies `thread, `stopRequested, `state, `nextReconnectAt, `reconnectDelayMs, `failures, `attempts
      ensures View() == Begin(settings, old(View()), socketOk)
    {
      hide LinkView, QueueView, ClockView, WorkView;
      stopRequested := false;
      SetState(if socketOk then Connecting else Error);
      ResetClock();
      thread := if socketOk then Head else Exited;
    }

    /** The first half of `Stop`. */
    method RequestStop()
      modifies `stopRequested, `state
      ensures View() == AskToStop(old(View()))
    {
      hide LinkView, QueueView, ClockView, WorkView;
      stopRequested := true;
      if thread.NoThread? {
        SetState(Stopped);
      }
    }

    /** The second half, when the thread has ended. */
    method FinishStop()
      requires thread.Exited? && stopRequested
      modifies `thread, `state
      ensures View() == Joined(old(View()))
    {
      hide LinkView, QueueView, ClockView, WorkView;
      thread := NoThread;
      SetState(Stopped);
    }

    /** `ticket` stands for the shared promise that the caller goes on to wait for. */
    method Enqueue(command: Command) returns (r: Status, ticket: nat)
      modifies `commands, `accepted
      ensures ticket == |old(accepted)|
      ensures r == if Running(old(View())) then Success else Failure(InvalidState)
      ensures View() == EnqueueCommand(old(View()), command)
    {
      hide LinkView, ClockView, WorkView;
      ticket := |accepted|;
      if thread.NoThread? || stopRequested {
        return Failure(InvalidState), ticket;
      }
      var e := Entry(ticket, command);
      commands := commands + [e];
      accepted := accepted + [e];
      r := Success;
    }

    /** Waits for the promise of a command while everyone else goes on; the driver thread answers it. */
    method WaitPendingResult(ticket: nat, meanwhile: seq<Event>) returns (r: Status)
      requires Awaits(settings, View(), meanwhile, ticket)
      modifies this
      ensures Runs(settings, old(View()), meanwhile, View()) && Answered(QueueView(), ticket, r)
    {
      hide Enabled, Step, Answered, LinkView, ClockView, WorkView;
      ghost var start := View();
      assert meanwhile[..0] == [];
      assert meanwhile[0..] == meanwhile;
      for i := 0 to |meanwhile|
        invariant Runs(settings, start, meanwhile[..i], View())
        invariant Awaits(settings, View(), meanwhile[i..], ticket)
      {
        OneOfAwaited(settings, View(), meanwhile[i..], ticket);
        Extend(settings, start, meanwhile[..i], View(), meanwhile[i]);
        assert meanwhile[..i] + [meanwhile[i]] == meanwhile[..i + 1];
        assert meanwhile[i..][1..] == meanwhile[i + 1..];
        Perform(meanwhile[i]);
      }
      assert meanwhile[..|meanwhile|] == meanwhile && meanwhile[|meanwhile|..] == [];
      r := TakeAnswer(ticket);
    }

    method TakeAnswer(ticket: nat) returns (r: Status)
      requires ticket in answers
      ensures Answered(QueueView(), ticket, r)
    {
      r := answers[ticket];
    }

    /** Enqueues the command of a public call and waits for its answer. */
    method EnqueueAndWait(command: Command, meanwhile: seq<Event>) returns (r: Status)
      requires Running(View()) ==> Awaits(settings, EnqueueCommand(View(), command), meanwhile, |accepted|)
      modifies this
      ensures !Running(old(View())) ==> r == Failure(InvalidState) && View() == old(View())
      ensures Running(old(View())) ==>
                Runs(settings, EnqueueCommand(old(View()), command), meanwhile, View()) &&
                Answered(QueueView(), old(|accepted|), r)
    {
      hide Awaits, Runs, Answered, LinkView, QueueView, ClockView, WorkView;
      var ticket;
      r, ticket := Enqueue(command);
      if r.Success? {
        r := WaitPendingResult(ticket, meanwhile);
      }
    }

    method Publish(request: PublishRequest, meanwhile: seq<Event>) returns (r: Status)
      requires Returns(settings, View(), DriverModel.Publish(request), meanwhile)
      modifies this
      ensures Called(settings, old(View()), DriverModel.Publish(request), meanwhile, View(), r)
    {
      hide Awaits, Runs, Answered, LinkView, ClockView, WorkView;
      if request.exchange == "" {
        return Failure(InvalidArgument);
      }
      r := EnqueueAndWait(DriverModel.Publish(request), meanwhile);
    }

    method DeclareExchange(spec: ExchangeSpec, meanwhile: seq<Event>) returns (r: Status)
      requires Returns(settings, View(), DeclareOne(X(spec)), meanwhile)
      modifies this
      ensures Called(settings, old(View()), DeclareOne(X(spec)), meanwhile, View(), r)
    {
      hide Awaits, Runs, Answered, LinkView, ClockView, WorkView;
      if spec.name == "" {
        return Failure(InvalidArgument);
      }
      r := EnqueueAndWait(DeclareOne(X(spec)), meanwhile);
    }

    method DeclareQueue(spec: QueueSpec, meanwhile: seq<Event>) returns (r: Status)
      requires Returns(settings, View(), DeclareOne(Q(spec)), meanwhile)
      modifies this
      ensures Called(settings, old(View()), DeclareOne(Q(spec)), meanwhile, View(), r)
    {
      hide Awaits, Runs, Answered, LinkView, ClockView, WorkView;
      if spec.name == "" {
        return Failure(InvalidArgument);
      }
      r := EnqueueAndWait(DeclareOne(Q(spec)), meanwhile);
    }

    method BindQueue(spec: BindingSpec, meanwhile: seq<Event>) returns (r: Status)
      requires Returns(settings, View(), DeclareOne(B(spec)), meanwhile)
      modifies this
      ensures Called(settings, old(View()), DeclareOne(B(spec)), meanwhile, View(), r)
    {
      hide Awaits, Runs, Answered, LinkView, ClockView, WorkView;
      if spec.exchange == "" || spec.queue == "" {
        return Failure(InvalidArgument);
      }
      r := EnqueueAndWait(DeclareOne(B(spec)), meanwhile);
    }

    /** What a worker does when its handler has decided. */
    method CompleteDelivery(delivery: Delivery, verdict: Verdict, action: ConsumeAction, meanwhile: seq<Event>)
      returns (r: Status)
      requires !NeedsNoSettling(delivery) && Running(View()) ==>
                 Awaits(settings, EnqueueCommand(View(), Settle(delivery, verdict, action)), meanwhile, |accepted|)
      modifies this
      ensures NeedsNoSettling(delivery) ==> r == Success && View() == old(View())
      ensures !NeedsNoSettling(delivery) && !Running(old(View())) ==> r == Failure(InvalidState) && View() == old(View())
      ensures !NeedsNoSettling(delivery) && Running(old(View())) ==>
                Runs(settings, EnqueueCommand(old(View()), Settle(delivery, verdict, action)), meanwhile, View()) &&
                Answered(QueueView(), old(|accepted|), r)
    {
      hide Awaits, Runs, Answered, LinkView, QueueView, ClockView, WorkView;
      var enqueued, ticket;
      r, enqueued, ticket := RequestSettlement(delivery, verdict, action);
      if enqueued {
        r := WaitPendingResult(ticket, meanwhile);
      }
    }

    /** Its first half, up to the wait. */
    method RequestSettlement(delivery: Delivery, verdict: Verdict, action: ConsumeAction)
      returns (r: Status, enqueued: bool, ticket: nat)
      modifies `commands, `accepted
      ensures ticket == |old(accepted)| && (enqueued <==> !NeedsNoSettling(delivery) && Running(old(View())))
      ensures r == if NeedsNoSettling(delivery) || Running(old(View())) then Success else Failure(InvalidState)
      ensures View() == if enqueued then EnqueueCommand(old(View()), Settle(delivery, verdict, action)) else old(View())
    {
      if delivery.consumer == "" || delivery.autoAck {
        return Success, false, |accepted|;
      }
      r, ticket := Enqueue(Settle(delivery, verdict, action));
      enqueued := r.Success?;
    }

    // ---- the driver thread: the queue ----

    method SwapCommands()
      requires thread.Swap?
      modifies `thread, `commands, `localCommands
      ensures View() == Swapped(old(View())) && thread.Drain? && localCommands == old(commands)
    {
      hide LinkView, ClockView, WorkView;
      localCommands := commands;
      commands := [];
      thread := Drain;
    }

    method PopCommand() returns (e: Entry)
      requires localCommands != []
      modifies `executed, `localCommands
      ensures QueueView() == Popped(old(QueueView())) && e == old(localCommands[0])
      ensures localCommands == old(localCommands)[1..]
    {
      e := localCommands[0];
      localCommands := localCommands[1..];
      executed := executed + [e];
    }

    /** `ack` and `reject` on the consumer's channel. */
    method Answer(s: Settlement)
      modifies `settled
      ensures WorkView() == old(WorkView()).(settled := old(settled) + [s])
    {
      settled := settled + [s];
    }

    /** `publish` on the admin channel. */
    method SendMessage(p: Publication)
      modifies `published
      ensures WorkView() == old(WorkView()).(published := old(published) + [p])
    {
      published := published + [p];
    }

    method ExecuteNext(channelOk: bool)
      requires localCommands != []
      modifies `executed, `localCommands, `completions, `answers, `settled, `published, `callbacks, `nextOp
      ensures View() == ExecuteOne(old(View()), channelOk)
      ensures localCommands == old(localCommands)[1..]
    {
      hide LinkView, QueueView, ClockView, WorkView, Popped, Complete, Submit, LocalAnswer;
      Fields();
      var e := PopCommand();
      match e.command
      case Publish(request) => RunPublish(e.ticket, request, channelOk);
      case DeclareOne(decl) => RunDeclare(e.ticket, decl);
      case Settle(x, v, a) => RunSettle(e.ticket, x, v, a, channelOk);
    }

    /** The command of `Publish`. */
    method RunPublish(ticket: nat, request: PublishRequest, channelOk: bool)
      modifies `completions, `answers, `published
      ensures QueueView() == Complete(old(QueueView()), ticket, if !ready then Failure(Disconnected) else LocalAnswer(channelOk))
      ensures WorkView() == if ready && channelOk
                            then old(WorkView()).(published := old(WorkView()).published + [Publication(ticket, epoch, request)])
                            else old(WorkView())
    {
      hide QueueView, WorkView, Complete;
      Fields();
      if !ready {
        CompletePendingResult(ticket, Failure(Disconnected));
      } else if !channelOk {
        CompletePendingResult(ticket, Failure(ErrorCode.OperationFailed));
      } else {
        SendMessage(Publication(ticket, epoch, request));
        CompletePendingResult(ticket, Success);
      }
    }

    /** The commands of the three declaring calls. */
    method RunDeclare(ticket: nat, decl: Decl)
      modifies `completions, `answers, `callbacks, `nextOp
      ensures QueueView() == if ready then old(QueueView()) else Complete(old(QueueView()), ticket, Failure(Disconnected))
      ensures LinkView() == if ready then Submit(old(LinkView()), Declare(decl, ticket)) else old(LinkView())
    {
      hide QueueView, LinkView, Complete, Submit;
      if !ready {
        CompletePendingResult(ticket, Failure(Disconnected));
      } else {
        SubmitOp(Declare(decl, ticket));
      }
    }

    /** The command of `CompleteDelivery`. */
    method RunSettle(ticket: nat, x: Delivery, v: Verdict, a: ConsumeAction, channelOk: bool)
      modifies `completions, `answers, `settled
      ensures QueueView() == Complete(old(QueueView()), ticket,
                                      if x.consumer !in consumerRuntimes then Failure(Disconnected) else LocalAnswer(channelOk))
      ensures WorkView() == if x.consumer in consumerRuntimes && channelOk
                            then old(WorkView()).(settled := old(WorkView()).settled + [Settlement(ticket, epoch, x, v, a)])
                            else old(WorkView())
    {
      hide QueueView, WorkView, Complete;
      Fields();
      if x.consumer !in consumerRuntimes {
        CompletePendingResult(ticket, Failure(Disconnected));
      } else if !channelOk {
        CompletePendingResult(ticket, Failure(ErrorCode.OperationFailed));
      } else {
        Answer(Settlement(ticket, epoch, x, v, a));
        CompletePendingResult(ticket, Success);
      }
    }

    // ---- the driver thread: connecting ----

    method ShouldAttemptReconnect() returns (b: bool)
      ensures b == ShouldAttempt(settings, View())
    {
      if !settings.enabled {
        return !stopRequested && state.Connecting?;
      }
      b := now >= nextReconnectAt;
    }

    method ApplyReconnectBackoff()
      modifies `state, `nextReconnectAt, `reconnectDelayMs, `failures, `lastFailure
      ensures LinkView() == old(LinkView()).(state := AfterFailure(settings))
      ensures ClockView() == BackOff(settings, old(ClockView()))
    {
      hide LinkView;
      SetState(if settings.enabled then Reconnecting else Error);
      nextReconnectAt := now + reconnectDelayMs;
      reconnectDelayMs := Min(reconnectDelayMs * 2, settings.maxDelay);
      failures := failures + 1;
      lastFailure := now;
    }

    method SetFlags(open: bool, next: ConnectionState)
      modifies `state, `connected, `ready, `handshakeReady, `pendingDisconnect
      ensures LinkView() == old(LinkView()).(connected := open, ready := false, handshake := false,
                                             pendingDisconnect := false, state := next)
    {
      connected := open;
      ready := false;
      handshakeReady := false;
      pendingDisconnect := false;
      state := next;
    }

    method ForgetConfirmed()
      modifies `confirmed, `prefetch
      ensures LinkView() == old(LinkView()).(confirmed := {}, prefetch := map[])
    {
      confirmed := {};
      prefetch := map[];
    }

    method NextEpoch()
      modifies `epoch
      ensures LinkView() == old(LinkView()).(epoch := old(LinkView()).epoch + 1)
    {
      epoch := epoch + 1;
    }

    method SocketOpened()
      modifies `state, `connected, `ready, `handshakeReady, `pendingDisconnect, `epoch, `confirmed, `prefetch
      ensures LinkView() == SocketOpen(old(LinkView()))
    {
      hide LinkView;
      SetFlags(true, Connecting);
      NextEpoch();
      ForgetConfirmed();
    }

    method CountAttempt()
      modifies `attempts
      ensures ClockView() == old(ClockView()).(attempts := old(attempts) + 1)
    {
      attempts := attempts + 1;
    }

    method ResetDelay()
      modifies `reconnectDelayMs, `failures
      ensures ClockView() == old(ClockView()).(delay := settings.initialDelay, failures := 0)
    {
      reconnectDelayMs := settings.initialDelay;
      failures := 0;
    }

    /** One turn of the loop without a connection: the socket opens or the driver backs off. */
    method ConnectSocket(ok: bool)
      requires thread.Turn? && !connected && ShouldAttempt(settings, View())
      modifies `thread, `state, `nextReconnectAt, `reconnectDelayMs, `failures, `lastFailure, `attempts,
               `connected, `ready, `handshakeReady, `pendingDisconnect, `epoch, `confirmed, `prefetch
      ensures View() == AttemptConnect(settings, old(View()), ok)
    {
      hide LinkView, QueueView, ClockView, WorkView, ShouldAttempt, BackOff, SocketOpen, AfterFailure;
      Fields();
      CountAttempt();
      thread := Head;
      SocketAnswers(ok);
    }

    method SocketAnswers(ok: bool)
      modifies `state, `nextReconnectAt, `reconnectDelayMs, `failures, `lastFailure,
               `connected, `ready, `handshakeReady, `pendingDisconnect, `epoch, `confirmed, `prefetch
      ensures LinkView() == if ok then SocketOpen(old(LinkView())) else old(LinkView()).(state := AfterFailure(settings))
      ensures ClockView() == if ok then old(ClockView()).(delay := settings.initialDelay, failures := 0)
                             else BackOff(settings, old(ClockView()))
    {
      hide LinkView, ClockView, BackOff, SocketOpen, AfterFailure;
      if ok {
        SocketOpened();
        ResetDelay();
      } else {
        ApplyReconnectBackoff();
      }
    }

    method ClearCallbacks()
      modifies `consumerRuntimes, `callbacks
      ensures LinkView() == old(LinkView()).(runtimes := map[], ops := map[])
    {
      consumerRuntimes := map[];
      callbacks := map[];
    }

    method ClearConnection(next: ConnectionState)
      modifies `consumerRuntimes, `connected, `ready, `handshakeReady, `pendingDisconnect, `callbacks, `confirmed, `prefetch,
               `state
      ensures LinkView() == Drop(old(LinkView()), next)
    {
      hide LinkView;
      ClearCallbacks();
      ForgetConfirmed();
      SetFlags(false, next);
    }

    method HandleDisconnect()
      requires thread.Failing?
      modifies `thread, `state, `nextReconnectAt, `reconnectDelayMs, `failures, `lastFailure, `consumerRuntimes,
               `connected, `ready, `handshakeReady, `pendingDisconnect, `callbacks, `confirmed, `prefetch
      ensures View() == DropConnection(settings, old(View()), old(thread.last))
    {
      hide LinkView, QueueView, ClockView, WorkView, BackOff, AfterFailure;
      ClearConnection(state);
      if !stopRequested {
        ApplyReconnectBackoff();
      } else {
        SetState(Stopped);
      }
      thread := if thread.last then Exited else Head;
    }

    // ---- the bootstrap chain ----

    method StartConsumer(index: nat)
      requires index < |consumers|
      modifies `callbacks, `nextOp, `pendingDisconnect
      ensures LinkView() == DriverLink.StartConsumer(old(LinkView()), index)
    {
      var spec := consumers[index];
      if spec.name !in consumerRuntimes {
        Disconnect();
        return;
      }
      SubmitOp(Consume(index, spec));
    }

    method BootstrapConsumers(index: nat)
      modifies `callbacks, `nextOp, `pendingDisconnect, `consumerRuntimes, `prefetch, `state, `ready
      ensures LinkView() == DriverLink.BootstrapConsumers(old(LinkView()), index)
    {
      if index >= |consumers| {
        state := Connected;
        ready := true;
        return;
      }
      var spec := consumers[index];
      consumerRuntimes := consumerRuntimes[spec.name := Runtime(spec, false)];
      prefetch := prefetch - {spec.name};
      if spec.prefetchCount > 0 {
        SubmitOp(Qos(index, spec.prefetchCount));
      } else {
        StartConsumer(index);
      }
    }

    method BootstrapBindings(index: nat)
      modifies `callbacks, `nextOp, `pendingDisconnect, `consumerRuntimes, `prefetch, `state, `ready
      ensures LinkView() == DriverLink.BootstrapBindings(old(LinkView()), index)
    {
      if index >= |bindings| {
        BootstrapConsumers(0);
        return;
      }
      SubmitOp(BootBinding(index, bindings[index]));
    }

    method BootstrapQueues(index: nat)
      modifies `callbacks, `nextOp, `pendingDisconnect, `consumerRuntimes, `prefetch, `state, `ready
      ensures LinkView() == DriverLink.BootstrapQueues(old(LinkView()), index)
    {
      if index >= |queues| {
        BootstrapBindings(0);
        return;
      }
      SubmitOp(BootQueue(index, queues[index]));
    }

    method BootstrapExchanges(index: nat)
      modifies `callbacks, `nextOp, `pendingDisconnect, `consumerRuntimes, `prefetch, `state, `ready
      ensures LinkView() == DriverLink.BootstrapExchanges(old(LinkView()), index)
    {
      if index >= |exchanges| {
        BootstrapQueues(0);
        return;
      }
      SubmitOp(BootExchange(index, exchanges[index]));
    }

    method OnReady()
      modifies `handshakeReady, `callbacks, `nextOp, `pendingDisconnect, `consumerRuntimes, `prefetch, `state, `ready
      ensures LinkView() == DriverLink.OnReady(old(LinkView()))
    {
      handshakeReady := true;
      BootstrapExchanges(0);
    }

    // ---- callbacks ----

    method RememberDecl(d: Decl)
      modifies `exchanges, `queues, `bindings
      ensures LinkView() == Remember(old(LinkView()), d)
    {
      match d
      case X(x) => exchanges := UpsertInPlace(exchanges, ExchangeName, x);
      case Q(q) => queues := UpsertInPlace(queues, QueueName, q);
      case B(b) => bindings := UpsertInPlace(bindings, BindingKey, b);
    }

    method LimitConsumer(name: string, count: nat)
      modifies `prefetch
      ensures LinkView() == Limit(old(LinkView()), name, count)
    {
      prefetch := prefetch[name := count];
    }

    /** The success callback of a bootstrap operation goes on with the chain. */
    method ChainSucceeded(op: Op)
      requires !op.Declare? && (op.Qos? ==> op.index < |consumers|)
      modifies `callbacks, `nextOp, `pendingDisconnect, `consumerRuntimes, `prefetch, `state, `ready, `confirmed
      ensures LinkView() == ChainGoesOn(old(LinkView()), op)
    {
      hide ChainGoesOn, LinkView;
      Fields();
      if op.Qos? || op.Consume? {
        ConsumerSucceeded(op);
      } else {
        TopologySucceeded(op);
      }
    }

    method TopologySucceeded(op: Op)
      requires op.BootExchange? || op.BootQueue? || op.BootBinding?
      modifies `callbacks, `nextOp, `pendingDisconnect, `consumerRuntimes, `prefetch, `state, `ready, `confirmed
      ensures LinkView() == ChainGoesOn(old(LinkView()), op)
    {
      hide DriverLink.BootstrapExchanges, DriverLink.BootstrapQueues, DriverLink.BootstrapBindings, LinkView, Confirm;
      match op
      case BootExchange(i, x) =>
        ConfirmDecl(X(x));
        BootstrapExchanges(i + 1);
      case BootQueue(i, q) =>
        ConfirmDecl(Q(q));
        BootstrapQueues(i + 1);
      case BootBinding(i, b) =>
        ConfirmDecl(B(b));
        BootstrapBindings(i + 1);
    }

    method ConsumerSucceeded(op: Op)
      requires (op.Qos? && op.index < |consumers|) || op.Consume?
      modifies `callbacks, `nextOp, `pendingDisconnect, `consumerRuntimes, `prefetch, `state, `ready
      ensures LinkView() == ChainGoesOn(old(LinkView()), op)
    {
      hide DriverLink.BootstrapConsumers, DriverLink.StartConsumer, LinkView, Limit;
      Fields();
      match op
      case Qos(i, n) =>
        LimitConsumer(consumers[i].name, n);
        StartConsumer(i);
      case Consume(i, s) =>
        Activate(s.name);
        BootstrapConsumers(i + 1);
    }

    method Activate(name: string)
      modifies `consumerRuntimes
      ensures var l := old(LinkView());
              LinkView() == if name in l.runtimes
                            then l.(runtimes := l.runtimes[name := l.runtimes[name].(active := true)]) else l
    {
      if name in consumerRuntimes {
        consumerRuntimes := consumerRuntimes[name := consumerRuntimes[name].(active := true)];
      }
    }

    /** The success callback of a run-time declaration answers its caller. */
    method DeclarationSucceeded(d: Decl, ticket: nat)
      modifies `exchanges, `queues, `bindings, `confirmed, `completions, `answers
      ensures LinkView() == Remember(Confirm(old(LinkView()), d), d)
      ensures QueueView() == Complete(old(QueueView()), ticket, Success)
    {
      hide Remember, Complete, Confirm, LinkView, QueueView, ClockView, WorkView;
      ConfirmDecl(d);
      RememberDecl(d);
      CompletePendingResult(ticket, Success);
    }

    /** The success callback of an operation. */
    method OperationSucceeded(id: nat)
      requires id in callbacks && (callbacks[id].Qos? ==> callbacks[id].index < |consumers|)
      modifies `exchanges, `queues, `bindings, `callbacks, `nextOp, `pendingDisconnect, `consumerRuntimes, `prefetch, `state, `ready,
               `confirmed, `completions, `answers
      ensures View() == OpOutcome(old(View()), id, true)
    {
      hide ChainGoesOn, Remember, Complete, Confirm, LinkView, QueueView, ClockView, WorkView;
      Fields();
      var op := TakeCallback(id);
      if op.Declare? {
        DeclarationSucceeded(op.decl, op.ticket);
      } else {
        ChainSucceeded(op);
      }
    }

    method OperationFailed(id: nat)
      requires id in callbacks && (callbacks[id].Qos? ==> callbacks[id].index < |consumers|)
      modifies `callbacks, `pendingDisconnect, `completions, `answers
      ensures View() == OpOutcome(old(View()), id, false)
    {
      hide LinkView, QueueView, ClockView, WorkView;
      Fields();
      var op := TakeCallback(id);
      if op.Declare? {
        CompletePendingResult(op.ticket, Failure(ErrorCode.OperationFailed));
      } else {
        Disconnect();
      }
    }

    // ---- deliveries ----

    method RecordDelivery(x: Delivery)
      modifies `deliveries
      ensures WorkView() == old(WorkView()).(deliveries := old(deliveries) + [x])
    {
      deliveries := deliveries + [x];
    }

    method SubmitTask(t: Task)
      modifies `tasks
      ensures WorkView() == old(WorkView()).(tasks := old(tasks) + [t])
    {
      tasks := tasks + [t];
    }

    /** `HandleIncomingMessage` with the delivery callback; when the pool refuses the task the driver
        thread goes on to wait for its own command. */
    method HandleIncomingMessage(consumer: string, tag: nat, hasHandler: bool, pool: PoolAnswer)
      requires consumer in consumerRuntimes
      modifies `deliveries, `tasks, `commands, `accepted, `thread
      ensures View() == DeliverOne(old(View()), consumer, tag, hasHandler, pool)
    {
      hide LinkView, QueueView, ClockView, WorkView, Accept;
      Fields();
      var x := Delivery(|deliveries|, consumer, tag, consumerRuntimes[consumer].spec.autoAck, epoch);
      RecordDelivery(x);
      if pool.Submitted? {
        SubmitTask(Task(x, hasHandler));
        return;
      }
      var status, enqueued, ticket := RequestSettlement(x, NotSubmitted, Requeue);
      if enqueued {
        thread := SelfWait(ticket);
      }
    }

    /** A worker task: it may run while the driver thread is anywhere. */
    method RunWorkerTask(k: nat, outcome: Outcome)
      requires k < |tasks|
      modifies `tasks, `commands, `accepted
      ensures View() == RunTask(old(View()), k, outcome)
    {
      var t := tasks[k];
      tasks := tasks[..k] + tasks[k + 1..];
      var action := Requeue;
      if t.hasHandler && outcome.Returned? {
        action := outcome.action;
      }
      var status, enqueued, ticket := RequestSettlement(t.delivery, VerdictOf(t, outcome), action);
    }

    // ---- the driver thread: from one call to the next ----

    method MoveTo(next: ThreadPc)
      modifies `thread
      ensures View() == old(View()).(pc := next)
    {
      hide LinkView, QueueView, ClockView, WorkView;
      thread := next;
    }

    method Tick(ms: nat)
      modifies `now
      ensures View() == old(View()).(clock := old(View()).clock.(now := old(now) + ms))
    {
      hide LinkView, QueueView, WorkView;
      now := now + ms;
    }

    /** Any step the driver, its callers or the environment can take, done by the methods above.  What
        holds over all runs therefore holds of this object after any sequence of calls. */
    method Advance(e: Event)
      requires Inv(settings, View()) && Enabled(settings, View(), e)
      modifies this
      ensures View() == Step(settings, old(View()), e) && Inv(settings, View())
    {
      hide Inv, Enabled, Step;
      InvStep(settings, View(), e);
      Perform(e);
    }

    method Perform(e: Event)
      requires Enabled(settings, View(), e)
      modifies this
      ensures View() == Step(settings, old(View()), e)
    {
      hide LinkView, QueueView, ClockView, WorkView, Begin, AskToStop, Joined, EnqueueCommand, RunTask, Swapped,
           ExecuteOne, AttemptConnect, OpOutcome, DeliverOne, DropConnection, DriverLink.OnReady, ShouldAttempt;
      Fields();
      Clocks();
      match e
      case Start(socketOk) => var r := this.Start(socketOk);
      case StopRequest => RequestStop();
      case Join => FinishStop();
      case Tick(ms) => this.Tick(ms);
      case Call(command) => var r, ticket := Enqueue(command);
      case TaskRuns(k, outcome) => RunWorkerTask(k, outcome);
      case LoopTest => MoveTo(if stopRequested then Failing(true) else Swap);
      case SwapQueue => SwapCommands();
      case Execute(channelOk) => ExecuteNext(channelOk);
      case DrainDone => MoveTo(Turn);
      case SkipAttempt => MoveTo(Head);
      case Attempt(ok) => ConnectSocket(ok);
      case BeginPump => MoveTo(Pump);
      case Handshake => this.OnReady();
      case OpSucceeds(id) => OperationSucceeded(id);
      case OpFails(id) => OperationFailed(id);
      case Trouble => Disconnect();
      case Deliver(consumer, tag, hasHandler, pool) => HandleIncomingMessage(consumer, tag, hasHandler, pool);
      case EndPump => MoveTo(if pendingDisconnect then Failing(false) else Head);
      case DropNow => HandleDisconnect();
    }

    /** What other threads do between two commands of a drain, and what the flush after a command may
        find out about the socket. */
    method Meanwhile(ghost start: Driver, ghost run: seq<Event>) returns (ghost longer: seq<Event>)
      requires Inv(settings, View()) && thread.Drain? && Runs(settings, start, run, View())
      modifies this
      ensures Inv(settings, View()) && thread.Drain? && Runs(settings, start, longer, View())
      ensures localCommands == old(localCommands) && executed == old(executed)
      ensures run <= longer && (DrainEvents(longer) ==> longer == run && View() == old(View()))
    {
      hide Inv, LinkView, ClockView, WorkView, Runs, Enabled, Step, Possible;
      longer := run;
      var n: nat := *;
      while n > 0
        invariant Inv(settings, View()) && thread.Drain? && Runs(settings, start, longer, View())
        invariant localCommands == old(localCommands) && executed == old(executed)
        invariant run <= longer && (DrainEvents(longer) ==> longer == run && View() == old(View()))
      {
        n := n - 1;
        var e: Event := *;
        if Possible(e) {
          PossibleIsEnabled(e);
          OthersLeaveBatch(settings, View(), e);
          Extend(settings, start, longer, View(), e);
          Advance(e);
          assert !DrainEvents(longer + [e]) by { assert (longer + [e])[|longer|] == e; }
          longer := longer + [e];
        }
      }
    }

    predicate Possible(e: Event)
      reads `tasks, `connected
    {
      match e
      case Call(command) => PassesChecks(command)
      case TaskRuns(k, _) => k < |tasks|
      case StopRequest => true
      case Tick(_) => true
      case Trouble => connected
      case _ => false
    }

    lemma PossibleIsEnabled(e: Event)
      requires Possible(e) && thread.Drain?
      ensures ByOthers(e) && Enabled(settings, View(), e)
    {
    }

    /** One command and the flush that follows it. */
    method ExecuteAndFlush(ghost start: Driver, ghost run: seq<Event>, channelOk: bool) returns (ghost longer: seq<Event>)
      requires Inv(settings, View()) && thread.Drain? && localCommands != [] && Runs(settings, start, run, View())
      modifies this
      ensures Inv(settings, View()) && thread.Drain? && Runs(settings, start, longer, View())
      ensures localCommands == old(localCommands)[1..] && executed == old(executed) + [old(localCommands)[0]]
      ensures run <= longer && |run| < |longer| && longer[|run|] == Execute(channelOk)
      ensures DrainEvents(longer) ==> View() == ExecuteOne(old(View()), channelOk)
    {
      hide Inv, LinkView, ClockView, WorkView, Runs, ExecuteOne, Step;
      InvStep(settings, View(), Execute(channelOk));
      Extend(settings, start, run, View(), Execute(channelOk));
      ExecutesOne(View(), channelOk);
      StepExecutes(settings, View(), channelOk);
      ghost var next := run + [Execute(channelOk)];
      ExecuteNext(channelOk);
      longer := Meanwhile(start, next);
    }

    /** The drain loop; callers, worker tasks and the clock go on meanwhile.  The batch that was swapped
        out runs to its end, in order, and nothing else does. */
    method DrainCommands(channelOk: nat -> bool) returns (ghost run: seq<Event>)
      requires Inv(settings, View()) && thread.Swap?
      modifies this
      ensures Inv(settings, View()) && thread.Drain? && localCommands == []
      ensures executed == old(executed) + old(commands)
      ensures |run| > 0 && run[0] == SwapQueue && Runs(settings, old(View()), run, View())
      ensures DrainEvents(run) ==> View() == DrainAll(Swapped(old(View())), channelOk)
    {
      hide Inv, LinkView, ClockView, WorkView, Runs, ExecuteOne, DrainAll, Swapped;
      ghost var start := View();
      BeginsDrain(settings, start);
      SwapCommands();
      ghost var swapped := View();
      run := [SwapQueue];
      while localCommands != []
        invariant Inv(settings, View()) && thread.Drain?
        invariant executed + localCommands == old(executed) + old(commands)
        invariant |run| > 0 && run[0] == SwapQueue && Runs(settings, start, run, View())
        invariant DrainEvents(run) ==> DrainAll(View(), channelOk) == DrainAll(swapped, channelOk)
        decreases |localCommands|
      {
        ghost var before, ran, batch, was := View(), executed, localCommands, run;
        DrainsOneMore(before, channelOk);
        run := ExecuteAndFlush(start, run, channelOk(localCommands[0].ticket));
        PrefixDrains(was, run);
        HeadAndTail(batch);
        Reassociate(ran, [batch[0]], batch[1..]);
      }
      DrainEnds(View(), channelOk);
    }

    lemma Clocks()
      ensures ClockView().now == now && LinkView().pendingDisconnect == pendingDisconnect && LinkView().connected == connected
      ensures LinkView().state == state && LinkView().handshake == handshakeReady
    {
    }
  }

  /** What other threads, the clock and the socket can do while the driver thread drains. */
  predicate ByOthers(e: Event) { e.Call? || e.TaskRuns? || e.StopRequest? || e.Tick? || e.Trouble? }

  /** Nothing but the drain itself has happened. */
  predicate DrainEvents(run: seq<Event>) { forall i :: 0 <= i < |run| ==> !ByOthers(run[i]) }

  lemma PrefixDrains(run: seq<Event>, longer: seq<Event>)
    requires run <= longer
    ensures DrainEvents(longer) ==> DrainEvents(run)
  {
    assert forall i :: 0 <= i < |run| ==> run[i] == longer[i];
  }

  lemma OthersLeaveBatch(c: Settings, d: Driver, e: Event)
    requires ByOthers(e) && d.pc.Drain? && Enabled(c, d, e)
    ensures var d' := Step(c, d, e);
            d'.pc.Drain? && d'.queue.local == d.queue.local && d'.queue.executed == d.queue.executed
  {
    match e
    case Call(_) =>
    case TaskRuns(_, _) =>
    case StopRequest =>
    case Tick(_) =>
    case Trouble =>
  }

  lemma StepExecutes(c: Settings, d: Driver, channelOk: bool)
    requires d.pc.Drain? && d.queue.local != []
    ensures Enabled(c, d, Execute(channelOk)) && Step(c, d, Execute(channelOk)) == ExecuteOne(d, channelOk)
  {
  }

  lemma BeginsDrain(c: Settings, d: Driver)
    requires Inv(c, d) && d.pc.Swap?
    ensures Inv(c, Swapped(d)) && Runs(c, d, [SwapQueue], Swapped(d)) && d.queue.local == []
  {
    InvStep(c, d, SwapQueue);
    hide LinkInv, QueueInv, PromiseInv, AnswerInv, WaitInv, WorkInv, ClockInv, AttemptInv;
    assert [SwapQueue][1..] == [];
  }

  lemma DrainsOneMore(d: Driver, channelOk: nat -> bool)
    requires d.queue.local != []
    ensures DrainAll(d, channelOk) == DrainAll(ExecuteOne(d, channelOk(d.queue.local[0].ticket)), channelOk)
  {
  }

  lemma DrainEnds(d: Driver, channelOk: nat -> bool)
    requires d.queue.local == []
    ensures DrainAll(d, channelOk) == d
  {
  }

  /** A drain by itself: the local batch in order. */
  function DrainAll(d: Driver, channelOk: nat -> bool): Driver
    decreases |d.queue.local|
  {
    if d.queue.local == [] then d else DrainAll(ExecuteOne(d, channelOk(d.queue.local[0].ticket)), channelOk)
  }

  /** One command of the batch. */
  lemma ExecutesOne(d: Driver, channelOk: bool)
    requires d.queue.local != []
    ensures var e, d' := d.queue.local[0], ExecuteOne(d, channelOk);
            && d'.queue.local == d.queue.local[1..] && d'.queue.executed == d.queue.executed + [e]
            && d'.queue.accepted == d.queue.accepted && d'.queue.commands == d.queue.commands
            && d.queue.completions <= d'.queue.completions
            && (!e.command.DeclareOne? ==> d'.queue.completions == d.queue.completions + [e.ticket])
  {
    match d.queue.local[0].command
    case Publish(_) =>
    case DeclareOne(_) =>
    case Settle(_, _, _) =>
  }

  /** It runs the whole batch, in order, and answers each command that is not a declaration. */
  lemma {:induction false} DrainRunsTheBatch(d: Driver, channelOk: nat -> bool)
    ensures var d' := DrainAll(d, channelOk);
            && d'.queue.local == [] && d'.queue.executed == d.queue.executed + d.queue.local
            && d'.queue.accepted == d.queue.accepted && d'.queue.commands == d.queue.commands
            && d.queue.completions <= d'.queue.completions
            && (forall e :: e in d.queue.local && !e.command.DeclareOne? ==> e.ticket in d'.queue.completions)
    decreases |d.queue.local|
  {
    hide ExecuteOne;
    if d.queue.local != [] {
      var e := d.queue.local[0];
      var next := ExecuteOne(d, channelOk(e.ticket));
      ExecutesOne(d, channelOk(e.ticket));
      DrainRunsTheBatch(next, channelOk);
      HeadAndTail(d.queue.local);
      assert !e.command.DeclareOne? ==> next.queue.completions[|d.queue.completions|] == e.ticket;
    }
  }
}
