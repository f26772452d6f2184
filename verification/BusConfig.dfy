/** The bus configuration: its specs, how it is parsed, and what an accepted one guarantees. */
module BusConfig {
  import opened Prelude
  import opened Backoff
  import opened ConfigValues
  import opened KeyedLists

  type Arguments = map<string, ConfigValue>

  datatype ExchangeType = Direct | Fanout | Topic | Headers

  datatype ExchangeSpec = ExchangeSpec(
    name: string, exchangeType: ExchangeType, durable: bool, autoDelete: bool, passive: bool, internal: bool,
    arguments: Arguments)

  datatype QueueSpec = QueueSpec(
    name: string, durable: bool, autoDelete: bool, passive: bool, exclusive: bool, arguments: Arguments)

  datatype BindingSpec = BindingSpec(exchange: string, queue: string, routingKey: string, arguments: Arguments)

  datatype PublisherSpec = PublisherSpec(
    name: string, exchange: string, routingKey: string, contentType: string, headers: Arguments, persistent: bool)

  datatype ConsumerSpec = ConsumerSpec(
    name: string, queue: string, consumerTag: string, autoAck: bool, exclusive: bool, noLocal: bool,
    prefetchCount: nat, arguments: Arguments)

  datatype Reconnect = Reconnect(enabled: bool, initialDelayMs: int, maxDelayMs: int)

  datatype Config = Config(
    uri: string, heartbeatSeconds: nat, socketTimeoutMs: int, reconnect: Reconnect, workerThreads: nat,
    exchanges: seq<ExchangeSpec>, queues: seq<QueueSpec>, bindings: seq<BindingSpec>,
    publishers: seq<PublisherSpec>, consumers: seq<ConsumerSpec>)

  const UINT16_MAX := 0xFFFF

  /** `static_cast<int>` of a 64-bit value. */
  function AsInt32(x: int): int {
    var low := x % TWO_TO_THE_32;
    if low < TWO_TO_THE_31 then low else low - TWO_TO_THE_32
  }

  // ---- one entry of each collection ----

  function ParseExchangeType(s: string): Result<ExchangeType> {
    if s == "direct" then Ok(Direct)
    else if s == "fanout" then Ok(Fanout)
    else if s == "topic" then Ok(Topic)
    else if s == "headers" then Ok(Headers)
    else Err(ParseError)
  }

  function ParseExchangeSpec(v: ConfigValue): Result<ExchangeSpec> {
    var name := RequiredString(v, "name");
    var typeName := OptionalString(v, "type", "direct");
    var exchangeType := if typeName.Ok? then ParseExchangeType(typeName.value) else Err(typeName.error);
    var durable := OptionalBool(v, "durable", true);
    var autoDelete := OptionalBool(v, "auto_delete", false);
    var passive := OptionalBool(v, "passive", false);
    var internal := OptionalBool(v, "internal", false);
    var arguments := OptionalArguments(v, "arguments");
    if name.Ok? && exchangeType.Ok? && durable.Ok? && autoDelete.Ok? && passive.Ok? && internal.Ok? && arguments.Ok?
    then Ok(ExchangeSpec(name.value, exchangeType.value, durable.value, autoDelete.value, passive.value, internal.value,
                         arguments.value))
    else Err(ParseError)
  }

  function ParseQueueSpec(v: ConfigValue): Result<QueueSpec> {
    var name := RequiredString(v, "name");
    var durable := OptionalBool(v, "durable", true);
    var autoDelete := OptionalBool(v, "auto_delete", false);
    var passive := OptionalBool(v, "passive", false);
    var exclusive := OptionalBool(v, "exclusive", false);
    var arguments := OptionalArguments(v, "arguments");
    if name.Ok? && durable.Ok? && autoDelete.Ok? && passive.Ok? && exclusive.Ok? && arguments.Ok?
    then Ok(QueueSpec(name.value, durable.value, autoDelete.value, passive.value, exclusive.value, arguments.value))
    else Err(ParseError)
  }

  function ParseBindingSpec(v: ConfigValue): Result<BindingSpec> {
    var exchange := RequiredString(v, "exchange");
    var queue := RequiredString(v, "queue");
    var routingKey := OptionalString(v, "routing_key", "");
    var arguments := OptionalArguments(v, "arguments");
    if exchange.Ok? && queue.Ok? && routingKey.Ok? && arguments.Ok?
    then Ok(BindingSpec(exchange.value, queue.value, routingKey.value, arguments.value))
    else Err(ParseError)
  }

  function ParsePublisherSpec(v: ConfigValue): Result<PublisherSpec> {
    var name := RequiredString(v, "name");
    var exchange := RequiredString(v, "exchange");
    var routingKey := OptionalString(v, "routing_key", "");
    var contentType := OptionalString(v, "content_type", "");
    var persistent := OptionalBool(v, "persistent", true);
    var headers := OptionalArguments(v, "headers");
    if name.Ok? && exchange.Ok? && routingKey.Ok? && contentType.Ok? && persistent.Ok? && headers.Ok?
    then Ok(PublisherSpec(name.value, exchange.value, routingKey.value, contentType.value, headers.value, persistent.value))
    else Err(ParseError)
  }

  function ParseConsumerSpec(v: ConfigValue): Result<ConsumerSpec> {
    var name := RequiredString(v, "name");
    var queue := RequiredString(v, "queue");
    var consumerTag := OptionalString(v, "consumer_tag", "");
    var autoAck := OptionalBool(v, "auto_ack", false);
    var exclusive := OptionalBool(v, "exclusive", false);
    var noLocal := OptionalBool(v, "no_local", false);
    var prefetch := OptionalInt64(v, "prefetch_count", 1);
    var arguments := OptionalArguments(v, "arguments");
    if name.Ok? && queue.Ok? && consumerTag.Ok? && autoAck.Ok? && exclusive.Ok? && noLocal.Ok? && prefetch.Ok? &&
       arguments.Ok? && 0 <= prefetch.value <= UINT16_MAX
    then Ok(ConsumerSpec(name.value, queue.value, consumerTag.value, autoAck.value, exclusive.value, noLocal.value,
                         prefetch.value, arguments.value))
    else Err(ParseError)
  }

  function ExchangeName(x: ExchangeSpec): string { x.name }
  function QueueName(q: QueueSpec): string { q.name }
  function PublisherName(p: PublisherSpec): string { p.name }
  function ConsumerName(c: ConsumerSpec): string { c.name }

  /** The text key under which the parser looks for repeated bindings. */
  function BindingText(b: BindingSpec): string { b.exchange + "|" + b.queue + "|" + b.routingKey }

  /** What the driver compares: `IsSameBinding`. */
  function BindingKey(b: BindingSpec): (string, string, string) { (b.exchange, b.queue, b.routingKey) }

  // ---- the connection section ----

  datatype Timing = Timing(
    uri: string, heartbeat: int, socketTimeout: int, enabled: bool, initial: int, max: int, threads: int)

  /** The scalar settings as 64-bit values, after the range checks.  The thread count is read before
      `worker_pool` is known to be an object; `unread` is what the failed getter then gives as its value. */
  function TimingFrom(root: ConfigValue, unread: ConfigValue): Result<Timing> {
    if !root.Obj? then Err(ParseError) else
    var connection := RequiredObject(root, "connection");
    if connection.Err? then Err(connection.error) else
    var uri := RequiredString(connection.value, "uri");
    var heartbeat := OptionalInt64(connection.value, "heartbeat_seconds", 30);
    var socketTimeout := OptionalInt64(connection.value, "socket_timeout_ms", 100);
    var reconnect := OptionalObject(connection.value, "reconnect");
    if uri.Err? || heartbeat.Err? || socketTimeout.Err? || reconnect.Err? then Err(ParseError) else
    var enabled := OptionalBool(reconnect.value, "enabled", true);
    var initial := OptionalInt64(reconnect.value, "initial_delay_ms", 1000);
    var max := OptionalInt64(reconnect.value, "max_delay_ms", 30000);
    var pool := OptionalObject(root, "worker_pool");
    var threads := OptionalInt64(if pool.Ok? then pool.value else unread, "thread_count", 4);
    var topology := OptionalObject(root, "topology");
    if enabled.Err? || initial.Err? || max.Err? || pool.Err? || threads.Err? || topology.Err? then Err(ParseError)
    else if heartbeat.value < 0 || heartbeat.value > UINT16_MAX then Err(ParseError)
    else if socketTimeout.value < 10 || initial.value < 0 || max.value < initial.value || threads.value <= 0 then
      Err(ParseError)
    else
      Ok(Timing(uri.value, heartbeat.value, socketTimeout.value, enabled.value, initial.value, max.value, threads.value))
  }

  function ParseTiming(root: ConfigValue): Result<Timing> { TimingFrom(root, Null) }

  /** Whatever the failed getter gives, the outcome is the same. */
  lemma UnreadValueDoesNotMatter(root: ConfigValue, unread: ConfigValue)
    ensures TimingFrom(root, unread) == ParseTiming(root)
  {
  }

  // ---- the whole configuration ----

  datatype Lists = Lists(
    exchanges: seq<ConfigValue>, queues: seq<ConfigValue>, bindings: seq<ConfigValue>,
    publishers: seq<ConfigValue>, consumers: seq<ConfigValue>)

  function ParseLists(root: ConfigValue): Result<Lists> {
    var topology := OptionalObject(root, "topology");
    if topology.Err? then Err(topology.error) else
    var exchanges := OptionalArray(topology.value, "exchanges");
    var queues := OptionalArray(topology.value, "queues");
    var bindings := OptionalArray(topology.value, "bindings");
    var publishers := OptionalArray(root, "publishers");
    var consumers := OptionalArray(root, "consumers");
    if exchanges.Err? || queues.Err? || bindings.Err? || publishers.Err? || consumers.Err? then Err(ParseError)
    else Ok(Lists(exchanges.value, queues.value, bindings.value, publishers.value, consumers.value))
  }

  predicate HasExchange(xs: seq<ExchangeSpec>, name: string) { exists x :: x in xs && x.name == name }
  predicate HasQueue(qs: seq<QueueSpec>, name: string) { exists q :: q in qs && q.name == name }

  /** Every reference names something that is configured. */
  predicate NoDanglingReference(c: Config) {
    && (forall b :: b in c.bindings ==> HasExchange(c.exchanges, b.exchange) && HasQueue(c.queues, b.queue))
    && (forall p :: p in c.publishers ==> HasExchange(c.exchanges, p.exchange))
    && (forall s :: s in c.consumers ==> HasQueue(c.queues, s.queue))
  }

  function Assemble(t: Timing, x: seq<ExchangeSpec>, q: seq<QueueSpec>, b: seq<BindingSpec>,
                    p: seq<PublisherSpec>, s: seq<ConsumerSpec>): Config
    requires 0 <= t.heartbeat && 0 <= t.threads
  {
    Config(t.uri, t.heartbeat, AsInt32(t.socketTimeout), Reconnect(t.enabled, AsInt32(t.initial), AsInt32(t.max)),
           t.threads, x, q, b, p, s)
  }

  function Resolve(c: Config): Result<Config> {
    if NoDanglingReference(c) then Ok(c) else Err(ParseError)
  }

  /** What `ParseBusConfig` answers; of several faults the first in source order decides. */
  function BusConfigOf(root: ConfigValue): Result<Config> {
    var timing := ParseTiming(root);
    if timing.Err? then Err(timing.error) else
    var lists := ParseLists(root);
    if lists.Err? then Err(lists.error) else
    var x := CollectUnique(lists.value.exchanges, ParseExchangeSpec, ExchangeName);
    var q := CollectUnique(lists.value.queues, ParseQueueSpec, QueueName);
    var b := CollectUnique(lists.value.bindings, ParseBindingSpec, BindingText);
    var p := CollectUnique(lists.value.publishers, ParsePublisherSpec, PublisherName);
    var s := CollectUnique(lists.value.consumers, ParseConsumerSpec, ConsumerName);
    if x.Err? then Err(x.error)
    else if q.Err? then Err(q.error)
    else if b.Err? then Err(b.error)
    else if p.Err? then Err(p.error)
    else if s.Err? then Err(s.error)
    else Resolve(Assemble(timing.value, x.value, q.value, b.value, p.value, s.value))
  }

  method ParseBusConfig(root: ConfigValue, unread: ConfigValue) returns (r: Result<Config>)
    ensures r == BusConfigOf(root)
    ensures r.Ok? ==> Consistent(r.value)
  {
    var timing := TimingFrom(root, unread);
    UnreadValueDoesNotMatter(root, unread);
    if timing.Err? { return Err(timing.error); }
    var lists := ParseLists(root);
    if lists.Err? { return Err(lists.error); }
    var sx, x := ParseUniqueArray(lists.value.exchanges, ParseExchangeSpec, ExchangeName);
    var sq, q := ParseUniqueArray(lists.value.queues, ParseQueueSpec, QueueName);
    var sb, b := ParseUniqueArray(lists.value.bindings, ParseBindingSpec, BindingText);
    var sp, p := ParseUniqueArray(lists.value.publishers, ParsePublisherSpec, PublisherName);
    var ss, s := ParseUniqueArray(lists.value.consumers, ParseConsumerSpec, ConsumerName);
    AcceptedIsConsistent(root);
    var failure := FirstFailure([sx, sq, sb, sp, ss]);
    if failure.Failure? { return Err(failure.error); }
    var c := Assemble(timing.value, x, q, b, p, s);
    var resolved := ReferencesResolve(c);
    return if resolved then Ok(c) else Err(ParseError);
  }

  method FirstFailure(statuses: seq<Status>) returns (r: Status)
    requires |statuses| == 5
    ensures r == if statuses[0].Failure? then statuses[0] else if statuses[1].Failure? then statuses[1]
                 else if statuses[2].Failure? then statuses[2] else if statuses[3].Failure? then statuses[3]
                 else statuses[4]
  {
    for i := 0 to |statuses|
      invariant forall j :: 0 <= j < i ==> statuses[j].Success?
    {
      if statuses[i].Failure? {
        assert i == 0 || i == 1 || i == 2 || i == 3 || i == 4;
        return statuses[i];
      }
    }
    r := Success;
  }

  /** The two name sets and the three loops that look references up in them. */
  method ReferencesResolve(c: Config) returns (ok: bool)
    ensures ok <==> NoDanglingReference(c)
  {
    var exchangeNames := set x | x in c.exchanges :: x.name;
    var queueNames := set q | q in c.queues :: q.name;
    for i := 0 to |c.bindings|
      invariant forall j :: 0 <= j < i ==>
                  HasExchange(c.exchanges, c.bindings[j].exchange) && HasQueue(c.queues, c.bindings[j].queue)
    {
      if c.bindings[i].exchange !in exchangeNames || c.bindings[i].queue !in queueNames {
        assert c.bindings[i] in c.bindings;
        return false;
      }
    }
    for i := 0 to |c.publishers|
      invariant forall j :: 0 <= j < i ==> HasExchange(c.exchanges, c.publishers[j].exchange)
    {
      if c.publishers[i].exchange !in exchangeNames {
        assert c.publishers[i] in c.publishers;
        return false;
      }
    }
    for i := 0 to |c.consumers|
      invariant forall j :: 0 <= j < i ==> HasQueue(c.queues, c.consumers[j].queue)
    {
      if c.consumers[i].queue !in queueNames {
        assert c.consumers[i] in c.consumers;
        return false;
      }
    }
    ok := true;
  }

  // ---- what an accepted configuration guarantees ----

  ghost predicate Consistent(c: Config) {
    && UniqueKeys(c.exchanges, ExchangeName)
    && UniqueKeys(c.queues, QueueName)
    && UniqueKeys(c.bindings, BindingKey)
    && UniqueKeys(c.publishers, PublisherName)
    && UniqueKeys(c.consumers, ConsumerName)
    && NoDanglingReference(c)
  }

  /** Distinct names, pairwise different bindings and no dangling reference. */
  lemma AcceptedIsConsistent(root: ConfigValue)
    ensures BusConfigOf(root).Ok? ==> Consistent(BusConfigOf(root).value)
  {
    if BusConfigOf(root).Ok? {
      var l := ParseLists(root).value;
      AcceptedIffUnique(l.exchanges, ParseExchangeSpec, ExchangeName);
      AcceptedIffUnique(l.queues, ParseQueueSpec, QueueName);
      AcceptedIffUnique(l.bindings, ParseBindingSpec, BindingText);
      AcceptedIffUnique(l.publishers, ParsePublisherSpec, PublisherName);
      AcceptedIffUnique(l.consumers, ParseConsumerSpec, ConsumerName);
      var bs := BusConfigOf(root).value.bindings;
      forall i, j | 0 <= i < j < |bs| ensures BindingKey(bs[i]) != BindingKey(bs[j]) {
        assert BindingText(bs[i]) != BindingText(bs[j]);
      }
    }
  }

  // ---- the narrowing casts ----

  /** The delays and the socket timeout survive the cast to int exactly when they fit; nothing else in
      the parser keeps them below that. */
  lemma DelaysSurviveIff(root: ConfigValue)
    requires BusConfigOf(root).Ok?
    ensures var t := ParseTiming(root).value;
            var c := BusConfigOf(root).value;
            var r := c.reconnect;
            && (r.initialDelayMs == t.initial && r.maxDelayMs == t.max <==> t.max < TWO_TO_THE_31)
            && (t.max < TWO_TO_THE_31 ==> 0 <= r.initialDelayMs <= r.maxDelayMs)
            && (c.socketTimeoutMs == t.socketTimeout <==> t.socketTimeout < TWO_TO_THE_31)
  {
    AcceptedTiming(root);
    hide BusConfigOf, ParseTiming, AsInt32;
    var t := ParseTiming(root).value;
    CastKeepsIff(t.initial);
    CastKeepsIff(t.max);
    CastKeepsIff(t.socketTimeout);
  }

  lemma CastKeepsIff(x: int)
    requires 0 <= x
    ensures AsInt32(x) == x <==> x < TWO_TO_THE_31
  {
  }

  /** The scalar settings of an accepted configuration, before and after their casts. */
  lemma AcceptedTiming(root: ConfigValue)
    requires BusConfigOf(root).Ok?
    ensures ParseTiming(root).Ok?
    ensures var t, c := ParseTiming(root).value, BusConfigOf(root).value;
            && 0 <= t.initial <= t.max && 0 <= t.socketTimeout
            && c.reconnect == Reconnect(t.enabled, AsInt32(t.initial), AsInt32(t.max))
            && c.socketTimeoutMs == AsInt32(t.socketTimeout)
  {
    hide ParseLists, NoDanglingReference, AsInt32;
  }

  /** A configuration with nothing but an address and the reconnect settings. */
  function DelayConfig(enabled: bool, initial: int64, max: int64): ConfigValue {
    Obj(map["connection" := Obj(map["uri" := Str("amqp://h/"),
                                    "reconnect" := Obj(map["enabled" := Bool(enabled),
                                                           "initial_delay_ms" := Int64(initial),
                                                           "max_delay_ms" := Int64(max)])])])
  }

  lemma DelayConfigIsAccepted(enabled: bool, initial: int64, max: int64)
    requires 0 <= initial <= max
    ensures var r := BusConfigOf(DelayConfig(enabled, initial, max));
            r.Ok? && r.value.reconnect == Reconnect(enabled, AsInt32(initial), AsInt32(max))
  {
    var root := DelayConfig(enabled, initial, max);
    var connection := root.fields["connection"];
    var reconnect := connection.fields["reconnect"];
    assert RequiredObject(root, "connection") == Ok(connection);
    assert OptionalObject(connection, "reconnect") == Ok(reconnect);
    assert RequiredString(connection, "uri") == Ok("amqp://h/");
    assert OptionalBool(reconnect, "enabled", true) == Ok(enabled);
    assert OptionalInt64(reconnect, "initial_delay_ms", 1000) == Ok(initial);
    assert OptionalInt64(reconnect, "max_delay_ms", 30000) == Ok(max);
    assert ParseTiming(root) == Ok(Timing("amqp://h/", 30, 100, enabled, initial, max, 4));
    assert ParseLists(root) == Ok(Lists([], [], [], [], []));
  }

  /** An accepted configuration can end up with a negative delay. */
  lemma DelayCanTurnNegative()
    ensures var r := BusConfigOf(DelayConfig(true, 0, TWO_TO_THE_31)); r.Ok? && r.value.reconnect.maxDelayMs < 0
  {
    DelayConfigIsAccepted(true, 0, TWO_TO_THE_31);
  }

  /** Whatever two 32-bit delays the driver is to have, in any order and of any sign: the parser accepts
      a configuration that gives it these. */
  lemma AnyDelaysAreAccepted(enabled: bool, initial: int, max: int) returns (root: ConfigValue)
    requires FitsInt32(initial) && FitsInt32(max)
    ensures BusConfigOf(root).Ok? && BusConfigOf(root).value.reconnect == Reconnect(enabled, initial, max)
  {
    hide AsInt32, BusConfigOf;
    var i := SomeInt64(initial, 0);
    var m := SomeInt64(max, TWO_TO_THE_32);
    root := DelayConfig(enabled, i, m);
    DelayConfigIsAccepted(enabled, i, m);
  }

  /** A 64-bit value that is cast to `x`, the smallest from `from` on. */
  lemma SomeInt64(x: int, from: int64) returns (y: int64)
    requires FitsInt32(x) && (from == 0 || from == TWO_TO_THE_32)
    ensures AsInt32(y) == x && from <= y < from + TWO_TO_THE_32
  {
    y := from + x % TWO_TO_THE_32;
  }
}
