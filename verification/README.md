# Verified model of the module framework's RabbitMQ bus, module manager and performance pipeline

This project models four parts of the repository in Dafny and proves what they promise over every
run:

- **The RabbitMQ connection driver** (`Driver*.dfy`, `ConnectionDriver.dfy`, `Backoff.dfy`,
  `ByteStreams.dfy`). `DriverModel` is a transition system. A step is one critical section of a
  caller or one call that the driver thread makes. The AMQP library, the broker, the socket, the
  clock, the message handlers, the worker pool and the schedule are the environment and may do
  anything at any time: a submitted operation stays outstanding until its success or its error
  callback fires, and dropping the connection drops what is outstanding. Delivery tags are
  channel-scoped (section 3.1.8 of AMQP 0-9-1): the broker is assumed not to repeat one on a channel.
  `DriverLink` is one connection with its callback chain; `confirmed`, `prefetch` and `epoch` only observe.
  `ConnectionDriver` has the driver's own fields and updates them in place; every method is proved
  to do what the transition system says, and `Advance` performs any of its steps.
- **The bounded master pipeline** (`Pipeline*.dfy`): scheduler, writers, publishers and result
  handler over two queues. The scheduler's four size reads are four steps, so its decisions rest on
  stale values. `PipelineWakeups` adds who holds a queue's mutex on the way to sleep, who is asleep
  on a condition variable and who still owes a notification. `PipelineStrays` tells the results of
  this run's tasks from others.
- **Module lifecycle, manager and registry** (`ModuleLifecycle`, `ModuleFleet`, `ModuleManager`,
  `ServiceRegistry`): the transition table, the four passes with every hook outcome, and the four
  containers. Hooks do not call back into the manager, and modules are driven only through it.
- **Codecs and configuration** (`TextFields`, `MessageCodec`, `ConfigValues`, `BusConfig`,
  `KeyedLists`).

Where the code works by updating fields, lists and buffers, the model is a class or a method with
loops, proved against a specification function; what the code promises is proved of that function.
A double is a real number, a negative zero, an infinity or not a number; integers that are narrowed
are narrowed explicitly. A wait that ends in a poll is a step that changes nothing. A thread holding
a mutex reads `abort_pipeline` at most once with effect, so a critical section is one step, taken at
that read. Results may arrive at any time and under any identifier.

Promises that the code does not keep are shown by a run or an input, next to the exact condition
under which they hold:

| not kept in general | shown by | what exactly holds |
|---|---|---|
| every accepted command runs | `DriverTraps.CommandCanBeStranded`, `DriverTraps.FailedStartStrands` | `DriverResults.CommandRunsIffSwapped` |
| settling on the driver thread returns, and so does a stop | `DriverTraps.SelfWaitHappens`, `DriverTraps.SelfWaitIsForEver` | `DriverTraps.SelfWaitBeginsIff`, `DriverStop.StopReturnsIff` |
| an answer goes to the connection of its delivery, once per tag | `DriverTraps.TagCanBeAnsweredTwice` | `DriverResults.AnswerIsLateIff`, `DriverResults.TagAnsweredOncePerEpoch` |
| a rebuilt binding has its exchange and queue | `DriverTraps.BindingCanDangle` | `DriverBootstrap.BindInOrderIffKnown`, `DriverOrder.BindsAreOrdered` |
| different bindings have different keys, and are accepted together | `BindingKeys.DifferentBindingsAreRefused` | `BindingKeys.TextKeyAmbiguousIff`, `BindingKeys.AcceptedTogetherIff` |
| the configured delays are the ones used | `BusConfig.DelayCanTurnNegative` | `BusConfig.DelaysSurviveIff` |
| a notification reaches every waiting thread | `PipelineNoLostWakeup.NotificationCanBeLost` | `PipelineNoLostWakeup.AbortIsMissedIff`; it does no harm by `PipelineNoLostWakeup.LostNotificationsDoNoHarm` |
| doubling the reconnect delay fits 32 bits | `DriverOverflow.AcceptedDelaysOverflow` | `DriverOverflow.BackoffFitsIff` |
| the in-flight limit is one on this run's unanswered tasks | `PipelineStrays.StraysDefeatTheLimit` | `PipelineStrays.InflightTestIff`, `PipelineStrays.UnansweredTasksAreBounded` |

`dafny verify dfyconfig.toml` checks the project.

## Model

| member | source | states |
|---|---|---|
| DriverResults.ReadyMeansRebuilt | modules/rabbitmq_bus/src/RabbitMqBusModule.cpp:2159-2332 | in every reachable state ready means an open, handshaken connection on which every exchange, queue and binding now remembered was confirmed with its current spec, and on which every configured consumer is active under exactly its configured prefetch limit, or none |
| DriverLimits.ConsumersAreLimited | modules/rabbitmq_bus/src/RabbitMqBusModule.cpp:2250-2284 | in every reachable state a consumer that is active, or whose consume has been submitted, has had exactly its positive prefetch count accepted by the broker on this connection, and none when it is 0 |
| DriverLimits.OnlyTheBrokerLimits | modules/rabbitmq_bus/src/RabbitMqBusModule.cpp:2271-2281 | such a limit comes about only by the success of a quality-of-service operation submitted for that consumer with that count |
| DriverFacts.StateTellsTheStory | modules/rabbitmq_bus/src/RabbitMqBusModule.cpp:1845-1858 | what callers see in every reachable state: Connecting while an open connection is not ready; without one, Connecting before the first failure and then Reconnecting or Error according to the switch; Created or Stopped without a thread |
| DriverFacts.AttemptsIff | modules/rabbitmq_bus/src/RabbitMqBusModule.cpp:1836-1843 | in every reachable state the thread, at its turn and without a connection, attempts to connect exactly when the time has come, or, with reconnecting off, when it has not attempted since the start and no stop is requested |
| DriverResults.StateTellsReadiness | modules/rabbitmq_bus/src/RabbitMqBusModule.cpp:1730-1733 | callers see Connected exactly when the driver is ready; ready implies handshaken implies connected; a thread that has ended leaves no connection |
| DriverResults.OnceRememberedAlwaysRebuilt | modules/rabbitmq_bus/src/RabbitMqBusModule.cpp:1504-1670 | what was remembered at any moment, by configuration or by a confirmed run-time declaration, is confirmed on every later ready connection |
| DriverResults.ListsOnlyGrow | modules/rabbitmq_bus/src/RabbitMqBusModule.cpp:1100-1146 | in every reachable state, ready or not, the keys of each list are distinct; over every run remembered entries keep their places, new ones come last, and the consumers stay the configured ones |
| DriverResults.CommandsAreFifo | modules/rabbitmq_bus/src/RabbitMqBusModule.cpp:1772-1825 | accepted commands are those executed, then the drained batch, then those still queued, in acceptance order; outside a drain no batch is left over |
| DriverFacts.CallIsTakenIff | modules/rabbitmq_bus/src/RabbitMqBusModule.cpp:1772-1781 | a call without a thread or after a stop request leaves nothing behind; any other goes to the end of the queue |
| DriverResults.EachPromiseOnce | modules/rabbitmq_bus/src/RabbitMqBusModule.cpp:137-151 | no promise is set twice or before its command runs; every executed command that is not a declaration has been answered; an outstanding declaration has not |
| DriverExecution.PublishRuns | modules/rabbitmq_bus/src/RabbitMqBusModule.cpp:1443-1495 | a publish command goes out exactly when the link is ready and the library takes it, once, as it was asked for, on the present connection; the answer is disconnected, failed or success accordingly |
| DriverExecution.SettleRuns | modules/rabbitmq_bus/src/RabbitMqBusModule.cpp:1680-1722 | a settle command sends exactly its own answer, on the present connection, exactly when the consumer has a channel that takes it; otherwise nothing, and the answer tells which was missing |
| DriverExecution.DeclareRuns | modules/rabbitmq_bus/src/RabbitMqBusModule.cpp:1512-1556 | a declaration is submitted, still unanswered, exactly when the link is ready, and is otherwise answered as disconnected |
| DriverExecution.DeclarationIsAnswered | modules/rabbitmq_bus/src/RabbitMqBusModule.cpp:1536-1550 | the broker's answer to a declaration becomes success or a failed operation |
| DriverExecution.PublishAnswerIsTrue | modules/rabbitmq_bus/src/RabbitMqBusModule.cpp:1443-1495 | in every reachable state the messages handed over are those of executed publish commands, each with its own request, in order and none twice; an executed publish is answered with success exactly when it went out |
| DriverExecution.ReturnedPublishTells | modules/rabbitmq_bus/src/RabbitMqBusModule.cpp:1435-1502 | a call of Publish returns what the link and the library were like at the moment its command ran, and success exactly when its message went out on the connection of that moment |
| DriverExecution.DecisionReachesTheChannelIff | modules/rabbitmq_bus/src/RabbitMqBusModule.cpp:1672-1728 | from a worker's decision over any run: it reaches the broker exactly when, at the moment its command runs, the consumer has a channel that takes it; and then it is the handler's decision, or a requeue without a handler or after an exception |
| DriverResults.CommandRunsIffSwapped | modules/rabbitmq_bus/src/RabbitMqBusModule.cpp:2102-2107 | an accepted command that no drain has taken yet is executed by the end of a run, outside the drains, exactly when the loop has swapped the deque out once more in that run |
| DriverResults.DrainsCompletely | modules/rabbitmq_bus/src/RabbitMqBusModule.cpp:2102-2115 | from inside a drain the whole batch can be run in order to its end, a stop request notwithstanding |
| DriverResults.DrainIsNeverCutShort | modules/rabbitmq_bus/src/RabbitMqBusModule.cpp:2102-2115 | in every run that leaves a drain, whatever callers and stop requests come in between, the whole drained batch has been executed in order |
| DriverResults.OneAttemptPerStart | modules/rabbitmq_bus/src/RabbitMqBusModule.cpp:1836-1843 | with reconnecting disabled any run has at most one connection attempt after each start |
| DriverResults.BacksOff | modules/rabbitmq_bus/src/RabbitMqBusModule.cpp:1845-1858 | while no doubling overflows: after k failures or disconnects since the last reset the delay is min(initial * 2^k, max), and no attempt starts before the last failure plus the delay that applied to it |
| DriverResults.ConfiguredDelaysAreUsed | modules/rabbitmq_bus/src/RabbitMqBusModule.cpp:955-976 | from the configuration text to every run: while the maximum survives its cast and no doubling overflows, the delays follow the configured 64-bit values |
| DriverResults.ConfiguredSwitchIsObeyed | modules/rabbitmq_bus/src/RabbitMqBusModule.cpp:1836-1843 | from the configuration text to every run, whatever the delays: a configuration without reconnecting makes at most one attempt per start |
| DriverResults.RunRecordsPast | modules/rabbitmq_bus/src/RabbitMqBusModule.cpp:1836-1858 | the attempt and failure counts used in the two rows above are those counted off the run itself |
| DriverResults.SettledOnceAsDecided | modules/rabbitmq_bus/src/RabbitMqBusModule.cpp:1672-1728 | over all runs each delivery is acked or rejected at most once, never one with automatic acknowledgement, always with the action decided for it, and in the order asked for |
| DriverResults.TagAnsweredOncePerEpoch | modules/rabbitmq_bus/src/RabbitMqBusModule.cpp:1682-1707 | two answers with one tag on one consumer's channel of one connection can only mean that one of them answers a delivery of an earlier connection |
| DriverResults.AnswerIsLateIff | modules/rabbitmq_bus/src/RabbitMqBusModule.cpp:1682-1707 | the ack or reject of a delivery goes to another connection than the one it arrived on exactly when a connection was opened between its arrival and the execution of the command |
| DriverAnswers.RememberedIffAnswered | modules/rabbitmq_bus/src/RabbitMqBusModule.cpp:1536-1541 | in every reachable state a name is remembered exactly when it was configured or a declaration of it has been answered with success |
| DriverAnswers.AnsweredIsRebuilt | modules/rabbitmq_bus/src/RabbitMqBusModule.cpp:1504-1670 | a declaration answered with success is confirmed on every later ready connection |
| DriverFacts.SucceededDeclareIsCurrent | modules/rabbitmq_bus/src/RabbitMqBusModule.cpp:1100-1146 | the success of a declaration makes its very spec the remembered one of its name, and changes nothing else that is remembered |
| DriverFacts.AcceptedCommandsAreNamed | modules/rabbitmq_bus/src/RabbitMqBusModule.cpp:1435-1440 | no command ever accepted lacks the name of its exchange or queue |
| DriverAnswers.SettleAnswerIsTrue | modules/rabbitmq_bus/src/RabbitMqBusModule.cpp:1680-1727 | a settle command is answered with success exactly when its ack or reject went to a channel |
| DriverResults.TaskAsksForItsVerdict | modules/rabbitmq_bus/src/RabbitMqBusModule.cpp:2572-2598 | a worker task asks for exactly the handler's result, and for a requeue when there is no handler or it threw; with automatic acknowledgement or after a stop it asks for nothing; it runs once |
| DriverFacts.ArrivalBecomesATask | modules/rabbitmq_bus/src/RabbitMqBusModule.cpp:2334-2378 | a delivery that the pool takes becomes one task that knows the consumer, the tag, whether the broker acknowledges by itself, and whether there is a handler |
| DriverFacts.OneTaskIsTaken | modules/rabbitmq_bus/src/RabbitMqBusModule.cpp:2572-2598 | a worker takes one task and leaves all others |
| DriverFacts.DeliveryFollowsItsConsumer | modules/rabbitmq_bus/src/RabbitMqBusModule.cpp:2370-2373 | every delivery that ever arrived is for a configured consumer and is settled, or not, as that consumer says |
| DriverOrder.BindsAreOrdered | modules/rabbitmq_bus/src/RabbitMqBusModule.cpp:1615-1670 | in a run from an accepted configuration whose callers bind only known names, no bind, of the bootstrap or of a caller, is outstanding before its exchange and queue are confirmed on this connection, and no consume before its queue is |
| DriverOrder.BootstrapOnlyShrinks | modules/rabbitmq_bus/src/RabbitMqBusModule.cpp:1512-1518 | while a bootstrap is under way no step of anyone changes what is to be rebuilt or prolongs it, and every success brings its end nearer |
| DriverOrder.RunKeepsClosed | modules/rabbitmq_bus/src/RabbitMqBusModule.cpp:1615-1670 | such runs never remember a dangling binding |
| DriverProgress.ConfirmationsMakeReady | modules/rabbitmq_bus/src/RabbitMqBusModule.cpp:2164-2332 | from any point of a bootstrap, confirmations alone can go on only for the remaining number of answers, and when no more is possible the connection is ready |
| DriverBootstrap.BindInOrderIffKnown | modules/rabbitmq_bus/src/RabbitMqBusModule.cpp:2221-2248 | an outstanding bind, of the bootstrap or of a caller, has both its endpoints confirmed exactly when both are remembered |
| DriverBootstrap.ConsumeInOrderIffKnown | modules/rabbitmq_bus/src/RabbitMqBusModule.cpp:2286-2332 | an outstanding consume has its queue confirmed exactly when that queue is remembered |
| DriverBootstrap.BootstrapMeasure | modules/rabbitmq_bus/src/RabbitMqBusModule.cpp:2164-2332 | every success of a bootstrap operation lowers the number of answers left, and the chain never stops without being ready or about to reconnect |
| DriverBootstrap.BootstrapLength | modules/rabbitmq_bus/src/RabbitMqBusModule.cpp:1750-1754 | a bootstrap needs at most one answer per exchange, queue and binding and two per consumer |
| DriverTraps.CommandCanBeStranded | modules/rabbitmq_bus/src/RabbitMqBusModule.cpp:1772-1825 | a publish accepted between the last drain and the stop stays queued, neither run nor answered, when the thread has ended |
| DriverTraps.FailedStartStrands | modules/rabbitmq_bus/src/RabbitMqBusModule.cpp:1783-1790 | without any stop, a publish accepted after a start whose socket subsystem failed stays queued |
| DriverTraps.QueuedStaysQueued | modules/rabbitmq_bus/src/RabbitMqBusModule.cpp:1420-1433 | once the thread has ended, until a new start, nothing more runs or is answered in any run |
| DriverTraps.SelfWaitHappens | modules/rabbitmq_bus/src/RabbitMqBusModule.cpp:2600-2606 | for any tag, a reachable state in which the driver thread waits for a command that only it could run |
| DriverTraps.SelfWaitIsForEver | modules/rabbitmq_bus/src/RabbitMqBusModule.cpp:2600-2606 | from such a state no continuation answers that command, runs any other, or lets a stop return |
| DriverTraps.SelfWaitBeginsIff | modules/rabbitmq_bus/src/RabbitMqBusModule.cpp:2555-2606 | of all steps of the driver, its callers and its environment exactly one kind leads into such a wait: the pool refuses the task of a delivery to be settled while no stop is requested |
| DriverStop.StopReturnsIff | modules/rabbitmq_bus/src/RabbitMqBusModule.cpp:1420-1433 | a requested stop can still return exactly when the driver thread does not wait for its own command |
| DriverTraps.TagCanBeAnsweredTwice | modules/rabbitmq_bus/src/RabbitMqBusModule.cpp:1682-1707 | for any tag, a run in which the second connection's channel gets an ack meant for the first connection's delivery, then a reject for its own, both with that tag |
| DriverTraps.BindingCanDangle | modules/rabbitmq_bus/src/RabbitMqBusModule.cpp:1617-1653 | any binding with non-empty names can come to be submitted by a bootstrap although neither end is confirmed |
| DriverInvariants.InvStep | modules/rabbitmq_bus/src/RabbitMqBusModule.cpp:1783-1825 | every step of the driver, its callers and its environment keeps the invariant of link, thread, queue, promises, deliveries and clock |
| DriverInvariants.ReachableInv | modules/rabbitmq_bus/src/RabbitMqBusModule.cpp:1374-1398 | that invariant holds in every reachable state |
| DriverInvariants.PromiseStep | modules/rabbitmq_bus/src/RabbitMqBusModule.cpp:137-151 | every step keeps the promises of executed commands set at most once and never while their declaration is outstanding |
| DriverInvariants.WorkStep | modules/rabbitmq_bus/src/RabbitMqBusModule.cpp:2544-2607 | every step keeps each delivery in at most one task or settle command, and each settlement an executed command |
| DriverLink.BootSuccessKeepsInv | modules/rabbitmq_bus/src/RabbitMqBusModule.cpp:2159-2332 | a success callback of the chain leaves one operation outstanding at its place with everything before it confirmed, or a ready link |
| DriverLink.DeclareKeepsInv | modules/rabbitmq_bus/src/RabbitMqBusModule.cpp:1536-1541 | remembering a confirmed run-time declaration keeps a ready link ready in the full sense |
| DriverLink.ErrorKeepsInv | modules/rabbitmq_bus/src/RabbitMqBusModule.cpp:2186-2190 | an error callback asks for a disconnect exactly when the link is not ready yet, and keeps the link invariant |
| ConnectionDriver.RabbitMqConnectionDriver.constructor | modules/rabbitmq_bus/src/RabbitMqBusModule.cpp:1374-1399 | a new driver is in the initial state |
| ConnectionDriver.RabbitMqConnectionDriver.Advance | modules/rabbitmq_bus/src/RabbitMqBusModule.cpp:1783-1825 | any step of the transition system is what the methods below do to the fields, and the invariant is kept |
| ConnectionDriver.RabbitMqConnectionDriver.Start | modules/rabbitmq_bus/src/RabbitMqBusModule.cpp:1405-1418 | refused while a thread is joinable; otherwise the state, the flags and the delay are reset |
| ConnectionDriver.RabbitMqConnectionDriver.RequestStop | modules/rabbitmq_bus/src/RabbitMqBusModule.cpp:1420-1424 | the stop flag is set, and without a thread the state is Stopped at once |
| ConnectionDriver.RabbitMqConnectionDriver.FinishStop | modules/rabbitmq_bus/src/RabbitMqBusModule.cpp:1426-1433 | after the join there is no thread and the state is Stopped |
| ConnectionDriver.RabbitMqConnectionDriver.Enqueue | modules/rabbitmq_bus/src/RabbitMqBusModule.cpp:1772-1781 | a command is appended exactly when the driver runs and no stop is requested |
| ConnectionDriver.RabbitMqConnectionDriver.Publish | modules/rabbitmq_bus/src/RabbitMqBusModule.cpp:1435-1502 | an empty exchange is an invalid argument; a driver that does not run refuses; otherwise the command is enqueued and, whatever everyone else does meanwhile, the call returns the answer given to this command |
| ConnectionDriver.RabbitMqConnectionDriver.DeclareExchange | modules/rabbitmq_bus/src/RabbitMqBusModule.cpp:1504-1558 | the same for an exchange without a name |
| ConnectionDriver.RabbitMqConnectionDriver.DeclareQueue | modules/rabbitmq_bus/src/RabbitMqBusModule.cpp:1560-1613 | the same for a queue without a name |
| ConnectionDriver.RabbitMqConnectionDriver.BindQueue | modules/rabbitmq_bus/src/RabbitMqBusModule.cpp:1615-1670 | the same for a binding without an exchange or a queue |
| ConnectionDriver.RabbitMqConnectionDriver.CompleteDelivery | modules/rabbitmq_bus/src/RabbitMqBusModule.cpp:1672-1728 | nothing to do, and success, without a consumer or with automatic acknowledgement; refused when the driver does not run; otherwise the settle command is enqueued and the call returns its answer |
| ConnectionDriver.RabbitMqConnectionDriver.WaitPendingResult | modules/rabbitmq_bus/src/RabbitMqBusModule.cpp:153-160 | while any events go on that end with the command answered, the wait returns its answer |
| DriverCalls.ReturnedDeclareIsRemembered | modules/rabbitmq_bus/src/RabbitMqBusModule.cpp:1504-1670 | when a declaring call returns success, whatever happened meanwhile, what it declared is remembered, and confirmed on every later ready connection |
| ConnectionDriver.RabbitMqConnectionDriver.DrainCommands | modules/rabbitmq_bus/src/RabbitMqBusModule.cpp:2102-2115 | with callers, stop requests, worker tasks and the flush going on between any two commands, exactly the commands swapped out are executed, in order; undisturbed, the result is the recursive drain |
| ConnectionDriver.DrainRunsTheBatch | modules/rabbitmq_bus/src/RabbitMqBusModule.cpp:2109-2114 | that drain runs the whole batch in order, takes nothing else, and answers every command that is not a declaration |
| ConnectionDriver.RabbitMqConnectionDriver.ExecuteNext | modules/rabbitmq_bus/src/RabbitMqBusModule.cpp:1443-1491 | one command with the answer it gets: disconnected, failed or success; a declaration is submitted only on a ready link, a settle reaches only the current channel of its consumer |
| ConnectionDriver.RabbitMqConnectionDriver.ShouldAttemptReconnect | modules/rabbitmq_bus/src/RabbitMqBusModule.cpp:1836-1843 | the condition under which the transition system attempts to connect |
| ConnectionDriver.RabbitMqConnectionDriver.ApplyReconnectBackoff | modules/rabbitmq_bus/src/RabbitMqBusModule.cpp:1845-1858 | the next attempt is set by the old delay and the delay is doubled and capped |
| ConnectionDriver.RabbitMqConnectionDriver.ConnectSocket | modules/rabbitmq_bus/src/RabbitMqBusModule.cpp:1960-1990 | an attempt opens a fresh connection that is not ready and resets the delay, or backs off |
| ConnectionDriver.RabbitMqConnectionDriver.HandleDisconnect | modules/rabbitmq_bus/src/RabbitMqBusModule.cpp:2126-2157 | runtimes, callbacks and flags are cleared; the state is Stopped after a stop request and otherwise backs off |
| ConnectionDriver.RabbitMqConnectionDriver.OnReady | modules/rabbitmq_bus/src/RabbitMqBusModule.cpp:1750-1754 | the handshake flag is set before the chain begins |
| ConnectionDriver.RabbitMqConnectionDriver.BootstrapExchanges | modules/rabbitmq_bus/src/RabbitMqBusModule.cpp:2164-2191 | the link of the chain for exchanges |
| ConnectionDriver.RabbitMqConnectionDriver.BootstrapQueues | modules/rabbitmq_bus/src/RabbitMqBusModule.cpp:2193-2219 | the link of the chain for queues |
| ConnectionDriver.RabbitMqConnectionDriver.BootstrapBindings | modules/rabbitmq_bus/src/RabbitMqBusModule.cpp:2221-2248 | the link of the chain for bindings |
| ConnectionDriver.RabbitMqConnectionDriver.BootstrapConsumers | modules/rabbitmq_bus/src/RabbitMqBusModule.cpp:2250-2284 | the link of the chain for consumers: a fresh channel, then its prefetch limit if there is one, otherwise the consume; ending ready |
| ConnectionDriver.RabbitMqConnectionDriver.StartConsumer | modules/rabbitmq_bus/src/RabbitMqBusModule.cpp:2286-2332 | a missing runtime asks for a disconnect, otherwise the consume is submitted |
| ConnectionDriver.RabbitMqConnectionDriver.OperationSucceeded | modules/rabbitmq_bus/src/RabbitMqBusModule.cpp:2183-2185 | a success callback continues the chain, or remembers the declaration and sets its promise |
| ConnectionDriver.RabbitMqConnectionDriver.OperationFailed | modules/rabbitmq_bus/src/RabbitMqBusModule.cpp:2186-2190 | an error callback asks for a disconnect, or answers the declaration with a failure and remembers nothing |
| ConnectionDriver.RabbitMqConnectionDriver.HandleIncomingMessage | modules/rabbitmq_bus/src/RabbitMqBusModule.cpp:2334-2378 | a delivery becomes a worker task, or, when the pool refuses, a requeue command that the driver thread itself waits for |
| ConnectionDriver.RabbitMqConnectionDriver.RunWorkerTask | modules/rabbitmq_bus/src/RabbitMqBusModule.cpp:2572-2598 | a worker task settles its delivery as the handler decides |
| Backoff.DelayClosedForm | modules/rabbitmq_bus/src/RabbitMqBusModule.cpp:1855-1857 | repeated doubling under a cap is min(initial * 2^k, max) |
| Backoff.DoublingsFitIff | modules/rabbitmq_bus/src/RabbitMqBusModule.cpp:2151-2153 | repeated capped doubling stays within 32 bits for ever, for any two numbers, exactly when neither is negative and the first is zero or both are below 2^30 |
| DriverOverflow.BackoffFitsIff | modules/rabbitmq_bus/src/RabbitMqBusModule.cpp:1836-1858 | in no run is a doubling performed that overflows, exactly when: with reconnecting on, neither delay is negative and the initial one is zero or both are below 2^30; with it off, where each start allows one doubling, doubling the initial delay fits |
| DriverOverflow.ConfiguredBackoffFitsIff | modules/rabbitmq_bus/src/RabbitMqBusModule.cpp:955-976 | the same in terms of the configuration text |
| DriverOverflow.AcceptedDelaysOverflow | modules/rabbitmq_bus/src/RabbitMqBusModule.cpp:959-976 | any two 32-bit delays that violate this, negative ones included, are those of a configuration the parser accepts, and a run of it comes to an overflowing doubling |
| ByteStreams.SocketBuffers.OnData | modules/rabbitmq_bus/src/RabbitMqBusModule.cpp:1740-1748 | the library's bytes are appended in order; sent bytes and buffer stay what the library handed over |
| ByteStreams.SocketBuffers.FlushOutboundData | modules/rabbitmq_bus/src/RabbitMqBusModule.cpp:1996-2018 | under arbitrary partial sends no byte is lost, repeated or reordered; the loop ends, with an empty buffer or because the last call of send took nothing; a disconnect is asked for exactly when that call failed |
| ByteStreams.SocketBuffers.PumpIncomingData | modules/rabbitmq_bus/src/RabbitMqBusModule.cpp:2020-2081 | one read per call; parsed bytes and buffer are what arrived, in order; parsing ends when the buffer is empty or the parser consumed nothing; a closed or failing socket asks for a disconnect, an idle one does not |
| ByteStreams.SocketBuffers.Open | modules/rabbitmq_bus/src/RabbitMqBusModule.cpp:1960-1969 | both streams begin empty on every connection |
| ByteStreams.SocketBuffers.Close | modules/rabbitmq_bus/src/RabbitMqBusModule.cpp:2131-2140 | what was neither sent nor parsed is dropped with the connection |
| ByteStreams.SocketBuffers.ParseInbound | modules/rabbitmq_bus/src/RabbitMqBusModule.cpp:2069-2080 | the parsing loop, while the library may hand over further bytes |
| KeyedLists.AcceptedIffUnique | modules/rabbitmq_bus/src/RabbitMqBusModule.cpp:849-895 | a collection is accepted exactly when every entry parses and no two share a key, and then holds the entries in order |
| KeyedLists.ParseUniqueArray | modules/rabbitmq_bus/src/RabbitMqBusModule.cpp:849-895 | the loop with its set of seen keys computes that collection or the first error |
| KeyedLists.UpsertRefinesMapUpdate | modules/rabbitmq_bus/src/RabbitMqBusModule.cpp:1100-1146 | updating a list of distinct keys in place is a map update, keeps the keys distinct and keeps their order |
| KeyedLists.UpsertInPlace | modules/rabbitmq_bus/src/RabbitMqBusModule.cpp:1100-1146 | the three update loops |
| BusConfig.ParseBusConfig | modules/rabbitmq_bus/src/RabbitMqBusModule.cpp:897-1092 | the parser with its loops answers as specified, whatever value a failed getter gives, and what it accepts is consistent |
| BusConfig.UnreadValueDoesNotMatter | modules/rabbitmq_bus/src/RabbitMqBusModule.cpp:936-951 | the thread count read from a `worker_pool` that is no object has no influence on the outcome |
| BusConfig.AcceptedIsConsistent | modules/rabbitmq_bus/src/RabbitMqBusModule.cpp:998-1091 | an accepted configuration has distinct names, pairwise different bindings and no dangling reference |
| ConfigText.ExchangeComesBack | modules/rabbitmq_bus/src/RabbitMqBusModule.cpp:660-705 | an exchange written out comes back, whatever optional keys are left out, with the documented default for each of these; its name is required |
| ConfigText.QueueComesBack | modules/rabbitmq_bus/src/RabbitMqBusModule.cpp:707-743 | the same for queues |
| ConfigText.BindingComesBack | modules/rabbitmq_bus/src/RabbitMqBusModule.cpp:745-769 | the same for bindings |
| ConfigText.PublisherComesBack | modules/rabbitmq_bus/src/RabbitMqBusModule.cpp:771-801 | the same for publishers |
| ConfigText.ConsumerComesBack | modules/rabbitmq_bus/src/RabbitMqBusModule.cpp:803-847 | the same for consumers |
| ConfigText.TypeComesBack | modules/rabbitmq_bus/src/RabbitMqBusModule.cpp:366-385 | the four exchange types and their names |
| ConfigText.ExchangeAcceptedIff | modules/rabbitmq_bus/src/RabbitMqBusModule.cpp:660-705 | an entry is accepted exactly when its name is a non-empty text and every other known key is missing or of its kind, the type being one of the four |
| ConfigText.QueueAcceptedIff | modules/rabbitmq_bus/src/RabbitMqBusModule.cpp:707-743 | the same for queues |
| ConfigText.BindingAcceptedIff | modules/rabbitmq_bus/src/RabbitMqBusModule.cpp:745-769 | the same for bindings |
| ConfigText.PublisherAcceptedIff | modules/rabbitmq_bus/src/RabbitMqBusModule.cpp:771-801 | the same for publishers |
| ConfigText.ConsumerAcceptedIff | modules/rabbitmq_bus/src/RabbitMqBusModule.cpp:803-847 | the same for consumers, with a prefetch count from 0 to 65535 |
| ConfigText.TimingComesBack | modules/rabbitmq_bus/src/RabbitMqBusModule.cpp:905-978 | the scalar settings come back, with their defaults for whatever keys or sections are left out, exactly when they keep to their ranges; the connection and its address are required |
| ConfigText.ListsComeBack | modules/rabbitmq_bus/src/RabbitMqBusModule.cpp:980-996 | each of the five lists is found under its own key and is empty when that, or its section, is missing |
| ConfigText.ConfigComesBack | modules/rabbitmq_bus/src/RabbitMqBusModule.cpp:897-1092 | a configuration written out in any of these ways is accepted as exactly the settings and, in order, the specs that were written, unless a reference dangles |
| ConfigText.AcceptedSaysWhatIsWritten | modules/rabbitmq_bus/src/RabbitMqBusModule.cpp:998-1040 | whatever is accepted holds, in order, what its entries say |
| ConfigText.AcceptedRefersToDeclared | modules/rabbitmq_bus/src/RabbitMqBusModule.cpp:1042-1089 | in an accepted configuration every exchange and queue that a binding, publisher or consumer refers to is among the names declared |
| BusConfig.ReferencesResolve | modules/rabbitmq_bus/src/RabbitMqBusModule.cpp:1042-1089 | the loops over two name sets accept exactly the configurations without dangling references |
| BindingKeys.TextKeyAmbiguousIff | modules/rabbitmq_bus/src/RabbitMqBusModule.cpp:1014-1016 | of the bindings the parser makes, one shares its text key with a different one exactly when a bar occurs in its exchange after the first character, in its queue unless that is a single bar, or in its routing key |
| BindingKeys.AcceptedTogetherIff | modules/rabbitmq_bus/src/RabbitMqBusModule.cpp:1009-1018 | a configuration with two bindings whose exchanges and queues it declares is accepted exactly when their texts differ; two different bindings with one text are refused as repeated |
| BindingKeys.DifferentBindingsAreRefused | modules/rabbitmq_bus/src/RabbitMqBusModule.cpp:1014-1016 | an instance: two bindings that share neither exchange nor queue |
| BindingKeys.BarFreeBindingsAreTold | modules/rabbitmq_bus/src/RabbitMqBusModule.cpp:1014-1016 | a bar-free binding is mistaken for no other |
| BusConfig.DelaysSurviveIff | modules/rabbitmq_bus/src/RabbitMqBusModule.cpp:969-976 | the narrowing casts keep the two delays exactly when the larger is below 2^31, and the socket timeout exactly when it is |
| BusConfig.DelayCanTurnNegative | modules/rabbitmq_bus/src/RabbitMqBusModule.cpp:975-976 | an accepted configuration whose maximal delay becomes negative |
| BusConfig.AnyDelaysAreAccepted | modules/rabbitmq_bus/src/RabbitMqBusModule.cpp:959-976 | the checks of the 64-bit values exclude no pair of 32-bit delays, whatever their order and signs |
| ConfigValues.ConfigRoundTrip | modules/rabbitmq_bus/src/RabbitMqBusModule.cpp:458-658 | a configuration tree survives the conversion to AMQP fields and back at any nesting depth |
| ConfigValues.ToFieldInjective | modules/rabbitmq_bus/src/RabbitMqBusModule.cpp:458-558 | different trees stay different as AMQP fields |
| ConfigValues.NormalisationIsIdempotent | modules/rabbitmq_bus/src/RabbitMqBusModule.cpp:560-638 | reading a field and writing it back is idempotent and loses nothing further |
| ConfigValues.UnchangedIffNormal | modules/rabbitmq_bus/src/RabbitMqBusModule.cpp:560-638 | a field comes back unchanged exactly when it is of the kinds the bus itself writes |
| ConfigValues.OtherKindsReadAlike | modules/rabbitmq_bus/src/RabbitMqBusModule.cpp:560-638 | the kinds of field that the bus does not write read like those it does: short and other texts, narrow reals, integers by congruence, octets by being zero or not, decimals by the number they denote |
| ConfigValues.ContainersReadInside | modules/rabbitmq_bus/src/RabbitMqBusModule.cpp:579-620 | arrays and tables read element by element, nothing left out or added |
| PipelineResults.BackpressureBounds | tests/integration/rabbitmq_perf/master_perf.cpp:684-710 | over every interleaving: scheduled tasks, tasks upstream of the publishers, and admitted tasks less results counted stay within the three bounds, although the scheduler reads the sizes at different times |
| PipelineStrays.InflightTestIff | tests/integration/rabbitmq_perf/master_perf.cpp:694-707 | in every reachable state a test of the present sizes lets a task in exactly when both queues have room and the published tasks without a result are fewer than the limit plus the results that name no published task |
| PipelineStrays.UnansweredTasksAreBounded | tests/integration/rabbitmq_perf/master_perf.cpp:694-707 | over every interleaving, admitted tasks without a result stay within the third bound plus the number of results that name no published task |
| PipelineStrays.StraysDefeatTheLimit | tests/integration/rabbitmq_perf/master_perf.cpp:352-357 | with any limits, and for any number of tasks of the schedule, a reachable state in which that many are published and none answered, as many left-over results having been counted instead |
| PipelineSafety.AdmissionIsSound | tests/integration/rabbitmq_perf/master_perf.cpp:684-710 | a decision taken on four stale sizes is sound for the present ones |
| PipelineResults.TasksAreConserved | tests/integration/rabbitmq_perf/master_perf.cpp:498-556 | in every reachable state an admitted task is scheduled, with a writer, ready, with a publisher or published, exactly one of these, and no other task is anywhere |
| PipelineResults.CompletionIsExact | tests/integration/rabbitmq_perf/master_perf.cpp:733-744 | when all threads have joined without an error every task was published exactly once and both queues are empty |
| PipelineOrder.QueuesAreFifo | tests/integration/rabbitmq_perf/master_perf.cpp:500-545 | over every interleaving the writers take the tasks 0, 1, 2, ... in this order, and the publishers take them in the order in which they were written |
| PipelineOrder.SingleThreadsKeepOrder | tests/integration/rabbitmq_perf/master_perf.cpp:482-731 | with one writer and one publisher tasks are published in the order scheduled with none left out, and what is held, ready, being written and scheduled continues that order |
| PipelineSafety.InvStep | tests/integration/rabbitmq_perf/master_perf.cpp:482-731 | every step of every thread keeps the books, the bounds and the shutdown order |
| PipelineSafety.WriterLastOut | tests/integration/rabbitmq_perf/master_perf.cpp:547-553 | the ready queue is closed once, by the last writer, when no other writer is left |
| PipelineProgress.WorkOnlyShrinks | tests/integration/rabbitmq_perf/master_perf.cpp:498-731 | no step adds work, and every step but a poll or a result nobody awaits does some |
| PipelineProgress.NeverStuck | tests/integration/rabbitmq_perf/master_perf.cpp:502-555 | in every reachable state that is not finished some thread can do work, or a published task awaits its result |
| PipelineProgress.CanAlwaysFinish | tests/integration/rabbitmq_perf/master_perf.cpp:287-293 | with all limits at least 1, every reachable state has a run to the end |
| PipelineProgress.QuietMeansRoom | tests/integration/rabbitmq_perf/master_perf.cpp:684-710 | when nobody else can work, a fresh read of the sizes admits the next task |
| PipelineProgress.ZeroThresholdHangs | tests/integration/rabbitmq_perf/master_perf.cpp:291-293 | with a limit of zero nothing is ever admitted and no run ends without a failure |
| PipelineAbort.AbortStopsTheIntake | tests/integration/rabbitmq_perf/master_perf.cpp:506-508 | over every run after an abort nothing leaves the scheduled queue, and at most the one task already decided on is still admitted |
| PipelineAbort.AbortLetsPublishersFinish | tests/integration/rabbitmq_perf/master_perf.cpp:615-630 | after an abort a waiting publisher takes the oldest ready task, and leaves exactly when there is none |
| PipelineAbort.FailureAborts | tests/integration/rabbitmq_perf/master_perf.cpp:529-537 | a failed write, publish or start hands nothing on, records the error, and leads by that thread's next step to the abort |
| Pipeline.MasterPipeline.PollSizes | tests/integration/rabbitmq_perf/master_perf.cpp:684-714 | the size-reading loop, one lock and one read at a time |
| Pipeline.MasterPipeline.AdmitOrClose | tests/integration/rabbitmq_perf/master_perf.cpp:713-744 | admission, the end of the schedule and the joins |
| Pipeline.MasterPipeline.WriterTakes | tests/integration/rabbitmq_perf/master_perf.cpp:500-517 | a writer takes the oldest scheduled task, or leaves on an abort or at the end |
| Pipeline.MasterPipeline.WriterWrites | tests/integration/rabbitmq_perf/master_perf.cpp:520-545 | a written task is appended to the ready queue, a failed one is recorded |
| Pipeline.MasterPipeline.WriterAborts | tests/integration/rabbitmq_perf/master_perf.cpp:532-537 | a writer that failed sets the abort flag and leaves, its task lost |
| Pipeline.MasterPipeline.WriterLeaves | tests/integration/rabbitmq_perf/master_perf.cpp:547-547 | a leaving writer knows whether it was the last |
| Pipeline.MasterPipeline.LastWriterCloses | tests/integration/rabbitmq_perf/master_perf.cpp:547-553 | the last writer closes the ready queue |
| Pipeline.MasterPipeline.PublisherTakes | tests/integration/rabbitmq_perf/master_perf.cpp:612-630 | a publisher takes the oldest ready task, or leaves when there is none |
| Pipeline.MasterPipeline.PublisherPublishes | tests/integration/rabbitmq_perf/master_perf.cpp:632-659 | a publish succeeds or records the error |
| Pipeline.MasterPipeline.PublisherCounts | tests/integration/rabbitmq_perf/master_perf.cpp:661-662 | the published count follows the publish |
| Pipeline.MasterPipeline.PublisherStarts | tests/integration/rabbitmq_perf/master_perf.cpp:576-610 | a publisher's own bus starts or the error is recorded |
| Pipeline.MasterPipeline.PublisherGivesUp | tests/integration/rabbitmq_perf/master_perf.cpp:604-610 | a publisher that could not start sets the abort flag and ends |
| Pipeline.MasterPipeline.PublisherAborts | tests/integration/rabbitmq_perf/master_perf.cpp:652-659 | a publisher that failed sets the abort flag and ends, its task lost |
| Pipeline.MasterPipeline.OnResult | tests/integration/rabbitmq_perf/master_perf.cpp:341-367 | a payload that does not parse is rejected and changes nothing; any other is acknowledged, and stored under its task identifier, whichever that is, unless one is stored already |
| PipelineResults.FirstResultIsKept | tests/integration/rabbitmq_perf/master_perf.cpp:352-357 | over every run the result stored under an identifier is never replaced or forgotten |
| PipelineNoLostWakeup.NotificationCanBeLost | tests/integration/rabbitmq_perf/master_perf.cpp:455-475 | with any limits, a state in which the abort flag is set, every notification has been made, and a writer sleeps that had read the flag as clear |
| PipelineNoLostWakeup.AbortIsMissedIff | tests/integration/rabbitmq_perf/master_perf.cpp:469-505 | once the flag is set, a writer or publisher that is awake can still fall asleep exactly when it has read the flag as clear and holds its mutex on the way to sleep |
| PipelineNoLostWakeup.FewMissTheAbort | tests/integration/rabbitmq_perf/master_perf.cpp:500-506 | at most one writer and one publisher are ever in that position |
| PipelineNoLostWakeup.LostNotificationsDoNoHarm | tests/integration/rabbitmq_perf/master_perf.cpp:455-744 | from every state that the threads can reach with sleeping, spurious waking and missed notifications, the pipeline can still run to its end |
| PipelineNoLostWakeup.WorkGoesOn | tests/integration/rabbitmq_perf/master_perf.cpp:502-555 | from every such state that is not finished, notifications owed and steps of threads that are awake do some of the remaining work |
| PipelineNoLostWakeup.MetIsReachable | tests/integration/rabbitmq_perf/master_perf.cpp:502-744 | making sleep and notification explicit adds no state of the pipeline, so all results above hold |
| PipelineWakeups.MoveKeepsWakeInv | tests/integration/rabbitmq_perf/master_perf.cpp:502-731 | every section, test, sleep, waking and notification keeps this: what a thread has found under its mutex stays so until it sleeps, a sleeping writer will be told of the end of the schedule, queued work does not wait for sleepers only, and likewise for publishers |
| ModuleLifecycle.LegalHistoryBrackets | src/framework/ModuleBase.cpp:129-201 | in a legal history every successful OnInit but a last open one has its own OnFini, every OnFini its own OnInit, nothing opens or closes between the two, and every successful OnStart but a current one is followed by an OnStop |
| ModuleLifecycle.FiniKeepsDiscipline | src/framework/ModuleBase.cpp:173-201 | a teardown stops a running module first, goes on when that fails, and keeps the history legal |
| ModuleLifecycle.OneModule | src/framework/ModuleBase.cpp:129-201 | what each of the four calls does to a module in each state with each hook outcome: state, context, hooks called and error |
| ModuleLifecycle.ModuleBase.SetModuleName | src/framework/ModuleBase.cpp:68-84 | a module is named once it is given a non-empty name in state Created, and otherwise left alone |
| ModuleLifecycle.ModuleBase.Init | src/framework/ModuleBase.cpp:129-143 | the state changes only when the transition is valid and the hook succeeds; the context is dropped otherwise |
| ModuleLifecycle.ModuleBase.Start | src/framework/ModuleBase.cpp:145-157 | the same for starting |
| ModuleLifecycle.ModuleBase.Stop | src/framework/ModuleBase.cpp:159-171 | the same for stopping |
| ModuleLifecycle.ModuleBase.Fini | src/framework/ModuleBase.cpp:173-201 | the module is down afterwards whatever its hooks answer, and the first error is reported |
| ModuleFleet.EveryRunIsGood | src/framework/ModuleManager.cpp:510-598 | over every manager run and all hook outcomes the states in load order read {Started or Stopped}* Inited* Created*; OnInit and OnStart find all earlier modules up, OnFini all later ones down |
| ModuleFleet.FiniClosesEveryBracket | src/framework/ModuleManager.cpp:573-598 | from every state a manager can be in: when its Fini returns, each module is down, its successful OnInits and its OnFinis are paired off in order, each successful OnStart was followed by an OnStop, and each module was torn down after all later ones |
| ModuleFleet.InitSucceedsIff | src/framework/ModuleManager.cpp:510-529 | Init succeeds exactly when every module may be initialised and every OnInit succeeds |
| ModuleFleet.StartSucceedsIff | src/framework/ModuleManager.cpp:531-549 | Start succeeds exactly when every module is initialised or stopped and every OnStart succeeds |
| FleetEffects.StopAllStops | src/framework/ModuleManager.cpp:551-571 | over every good fleet: exactly the running modules have their OnStop called, later ones first, and are stopped exactly when it succeeds; the others are left alone; the pass succeeds exactly when all ran and every OnStop succeeded, and otherwise reports the error of the last module that has one |
| FleetEffects.FiniAllTearsDown | src/framework/ModuleManager.cpp:573-598 | likewise for the teardown: every module ends down, with OnStop before OnFini if it ran |
| FleetEffects.InitAllInits | src/framework/ModuleManager.cpp:510-529 | initialising goes on in load order up to the first module that fails, which is left as it was without a context and whose error is reported; later ones are left alone |
| FleetEffects.StartAllStarts | src/framework/ModuleManager.cpp:531-549 | the same for starting |
| ModuleManager.ReadModuleConfig | src/framework/ModuleManager.cpp:155-246 | the reading loop accepts exactly what the specification accepts, names being unique |
| ManagerText.ModuleComesBack | src/framework/ModuleManager.cpp:60-153 | a module entry written out comes back; name, type and library path are required, the configuration may be left out |
| ManagerText.FileComesBack | src/framework/ModuleManager.cpp:155-246 | a file of version 2 gives exactly its modules in order; any other version is refused |
| ManagerText.StagedIff | src/framework/ModuleManager.cpp:292-328 | a batch is staged exactly when every plugin opens and is of the type that the file says |
| ManagerText.FirstMisfitDecides | src/framework/ModuleManager.cpp:343-424 | otherwise the first plugin that does not fit decides the error |
| ManagerText.LoadStatusTells | src/framework/ModuleManager.cpp:343-424 | a batch is loaded exactly when its file is read, none of its names is loaded and every plugin fits; an unread file is reported before a name that is taken, and that before a plugin |
| ModuleManager.Manager.LoadModules | src/framework/ModuleManager.cpp:343-424 | a batch is loaded whole or, whatever fails, nothing has changed; the status is the first failure in the source's order |
| ModuleManager.Manager.LoadModule | src/framework/ModuleManager.cpp:426-468 | a single load, with its errors, changes nothing when it fails |
| ModuleManager.Manager.Init | src/framework/ModuleManager.cpp:510-529 | the loop over the modules is the forward pass and keeps the four containers in agreement |
| ModuleManager.Manager.Start | src/framework/ModuleManager.cpp:531-549 | the same for starting |
| ModuleManager.Manager.Stop | src/framework/ModuleManager.cpp:551-571 | the backward loop goes on past errors and reports the first |
| ModuleManager.Manager.Fini | src/framework/ModuleManager.cpp:573-598 | the backward loop, after which all four containers are empty and every module that was loaded is torn down with its brackets closed |
| ModuleManager.Manager.LookupModuleRaw | src/framework/ModuleManager.cpp:600-620 | a lookup finds exactly the names in load order |
| ModuleManager.Manager.ModuleConfig | src/framework/ModuleManager.cpp:621-633 | configurations exist for exactly the names in load order |
| ModuleManager.Manager.LookupNamedService | src/framework/ModuleManager.cpp:635-639 | a named lookup finds exactly the loaded modules that implement the service, and the manager's own objects |
| ModuleManager.Manager.LookupUniqueService | src/framework/ModuleManager.cpp:641-644 | a unique lookup succeeds exactly when a plain scan finds one provider, and then returns that module |
| ServiceRegistry.UniqueAgreesWithNamed | src/framework/ServiceRegistry.cpp:78-107 | a unique lookup succeeds exactly when the named lookup succeeds for one name and no other |
| ServiceRegistry.LookupErrors | src/framework/ServiceRegistry.cpp:43-107 | a lookup is refused for an empty key or name, fails as not found when there is no provider, and a unique one as an invalid state exactly when there are two |
| ServiceRegistry.Registry.RegisterKnownServices | src/framework/ServiceRegistry.cpp:28-41 | exactly the modules that implement the bus service are registered |
| TextFields.Trim | tests/integration/rabbitmq_perf/common.cpp:148-162 | the two index loops trim both ends |
| TextFields.TrimFixesIff | tests/integration/rabbitmq_perf/common.cpp:148-162 | trimming leaves a text alone exactly when it has no blank at either end |
| TextFields.ParseKeyValuePayload | tests/integration/rabbitmq_perf/common.cpp:164-182 | the line loop builds the map in which the first '=' splits and the last line with a key decides |
| TextFields.RenderedFieldsComeBack | tests/integration/rabbitmq_perf/common.cpp:164-182 | printing clean fields line by line and parsing the text gives them back |
| TextFields.ParsedValuesAreClean | tests/integration/rabbitmq_perf/common.cpp:164-182 | a parsed value never has a newline or a blank at either end |
| TextFields.NumbersComeBack | tests/integration/rabbitmq_perf/common.cpp:197-203 | printing and parsing a 64-bit number gives it back, as a clean text |
| TextFields.NumbersSaturate | tests/integration/rabbitmq_perf/common.cpp:197-203 | a decimal text of any length parses to its value or, when that does not fit, to 2^64 - 1; with a minus sign it wraps around unless it does not fit |
| MessageCodec.TaskRoundTripIff | tests/integration/rabbitmq_perf/common.cpp:813-845 | a task message comes back exactly when its texts are non-empty and have neither a newline nor a blank at either end, '=' and all other characters allowed |
| MessageCodec.ResultRoundTripIff | tests/integration/rabbitmq_perf/common.cpp:847-896 | a result message comes back exactly when its three required texts are non-empty and all six are clean |
| MessageCodec.TaskAcceptedIff | tests/integration/rabbitmq_perf/common.cpp:822-845 | of payloads made of clean lines a task message is accepted exactly when its four named fields are given, and then holds them |
| MessageCodec.ResultAcceptedIff | tests/integration/rabbitmq_perf/common.cpp:868-896 | a result message needs three named fields; a missing text is empty, a missing number 0, a missing flag false |
| MessageCodec.TaskIdTellsIndex | tests/integration/rabbitmq_perf/master_perf.cpp:717-721 | within a scenario different indices have different task identifiers, so results may be matched by them |

## Left out

- Sockets, name resolution, `select`, real clocks and platform branches: connecting succeeds or fails, sends and reads take any number of bytes, time only grows.
- The AMQP library's wire encoding and the broker: only submitted operations and their callbacks are kept. The library's parser is assumed to consume no more than it is given.
- The cast of a send's size to int: a buffer above 2^31 - 1 bytes is outside the model.
- ConfigValues.ConfigRoundTrip: which bits a NaN has is not kept. Rounding, which occurs only where an AMQP decimal is read, is not modelled.
- The setters of a message's envelope: a publication carries the caller's request as a whole, and the conversion of its headers is that of `ConfigValues`, which cannot fail.
- Error message texts and logging; results and answers keep their error codes.
- Heartbeats, whose frames are bytes handed over like any other.
- Plugin loading, JSON text and paths: opening a plugin and reading a file are outcomes passed in.
- The worker pool: a submitted task runs at most once, at any later time.
- Handlers registered while messages arrive: whether there is a handler is decided when the message arrives, as the delivery callback does.
- BusConfig.ParseBusConfig: asking a failed result for its value is assumed to give some value and not to end the program.
- Liveness in real time: waiting for a connection and the final result deadline. The class describes public calls that return; `DriverTraps.CommandCanBeStranded` and `DriverTraps.SelfWaitIsForEver` show some that never do.
- Fairness: that a thread which can go on, or a notification which is owed, eventually does; runs to the end are shown to exist from every state.
- The row that the CSV writer prints for a missing result, image and report writing, percentiles, argument parsing.
- `tests/integration/rabbitmq_task_flow`, a smaller copy of the codec and harness; `Context.cpp`, the service proxy and the flag mappings, which only forward.
- ConnectionDriver.RabbitMqConnectionDriver.DrainCommands: the flush after a command may ask for a disconnect; its bytes are in `ByteStreams`.
- DriverResults.BacksOff: the delays are those after the cast to int and are required to be ordered, which `BusConfig.DelaysSurviveIff` gives for those that survive it; beyond an overflow nothing is said, for the code has no defined meaning there.
