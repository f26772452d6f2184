/** Configurations written out as trees, and what the parser makes of them: every key means what it says,
    every key that may be left out has its default, and a value of the wrong kind is refused. */
module ConfigText {
  import opened Prelude
  import opened ConfigValues
  import opened KeyedLists
  import opened BusConfig

  /** The same tree without some of its keys. */
  function Without(v: ConfigValue, omitted: set<string>): ConfigValue {
    if v.Obj? then Obj(map k | k in v.fields && k !in omitted :: v.fields[k]) else v
  }

  lemma ReadRequired(v: ConfigValue, omitted: set<string>, key: string)
    requires v.Obj? && key in v.fields && v.fields[key].Str?
    ensures RequiredString(Without(v, omitted), key) ==
              if key in omitted || v.fields[key].text == "" then Err(ParseError) else Ok(v.fields[key].text)
  {
  }

  lemma ReadText(v: ConfigValue, omitted: set<string>, key: string, fallback: string)
    requires v.Obj? && key in v.fields && v.fields[key].Str?
    ensures OptionalString(Without(v, omitted), key, fallback) == Ok(if key in omitted then fallback else v.fields[key].text)
  {
  }

  lemma ReadFlag(v: ConfigValue, omitted: set<string>, key: string, fallback: bool)
    requires v.Obj? && key in v.fields && v.fields[key].Bool?
    ensures OptionalBool(Without(v, omitted), key, fallback) == Ok(if key in omitted then fallback else v.fields[key].flag)
  {
  }

  lemma ReadNumber(v: ConfigValue, omitted: set<string>, key: string, fallback: int64)
    requires v.Obj? && key in v.fields && v.fields[key].Int64?
    ensures OptionalInt64(Without(v, omitted), key, fallback) == Ok(if key in omitted then fallback else v.fields[key].number)
  {
  }

  lemma ReadArguments(v: ConfigValue, omitted: set<string>, key: string)
    requires v.Obj? && key in v.fields && v.fields[key].Obj?
    ensures OptionalArguments(Without(v, omitted), key) == Ok(if key in omitted then map[] else v.fields[key].fields)
  {
  }

  lemma ReadSection(v: ConfigValue, omitted: set<string>, key: string)
    requires v.Obj? && key in v.fields && v.fields[key].Obj?
    ensures OptionalObject(Without(v, omitted), key) == Ok(if key in omitted then Obj(map[]) else v.fields[key])
    ensures RequiredObject(Without(v, omitted), key) == if key in omitted then Err(ParseError) else Ok(v.fields[key])
  {
  }

  lemma ReadList(v: ConfigValue, omitted: set<string>, key: string)
    requires v.Obj? && key in v.fields && v.fields[key].Arr?
    ensures OptionalArray(Without(v, omitted), key) == Ok(if key in omitted then [] else v.fields[key].items)
  {
  }

  predicate HasText(v: ConfigValue, key: string)
    requires v.Obj?
  {
    key in v.fields && v.fields[key].Str? && v.fields[key].text != ""
  }

  predicate TextOrNone(v: ConfigValue, key: string) requires v.Obj? { key in v.fields ==> v.fields[key].Str? }
  predicate FlagOrNone(v: ConfigValue, key: string) requires v.Obj? { key in v.fields ==> v.fields[key].Bool? }
  predicate NumberOrNone(v: ConfigValue, key: string) requires v.Obj? { key in v.fields ==> v.fields[key].Int64? }
  predicate TableOrNone(v: ConfigValue, key: string) requires v.Obj? { key in v.fields ==> v.fields[key].Obj? }

  lemma TypeComesBack(t: ExchangeType)
    ensures ParseExchangeType(TypeText(t)) == Ok(t)
    ensures TypeText(Direct) == "direct" && TypeText(Fanout) == "fanout" && TypeText(Topic) == "topic" && TypeText(Headers) == "headers"
  {
  }

  // ---- exchanges ----

  function TypeText(t: ExchangeType): string {
    match t
    case Direct => "direct"
    case Fanout => "fanout"
    case Topic => "topic"
    case Headers => "headers"
  }

  function ExchangeEntry(x: ExchangeSpec): ConfigValue {
    Obj(map["name" := Str(x.name), "type" := Str(TypeText(x.exchangeType)), "durable" := Bool(x.durable),
            "auto_delete" := Bool(x.autoDelete), "passive" := Bool(x.passive), "internal" := Bool(x.internal),
            "arguments" := Obj(x.arguments)])
  }

  function DefaultedExchange(x: ExchangeSpec, omitted: set<string>): ExchangeSpec {
    ExchangeSpec(
      x.name, if "type" in omitted then Direct else x.exchangeType,
      if "durable" in omitted then true else x.durable,
      if "auto_delete" in omitted then false else x.autoDelete,
      if "passive" in omitted then false else x.passive, if "internal" in omitted then false else x.internal,
      if "arguments" in omitted then map[] else x.arguments)
  }

  lemma ExchangeFields(x: ExchangeSpec)
    ensures ExchangeEntry(x).Obj?
    ensures var m := ExchangeEntry(x).fields;
            && "name" in m && m["name"] == Str(x.name)
            && "type" in m && m["type"] == Str(TypeText(x.exchangeType))
            && "durable" in m && m["durable"] == Bool(x.durable)
            && "auto_delete" in m && m["auto_delete"] == Bool(x.autoDelete)
            && "passive" in m && m["passive"] == Bool(x.passive)
            && "internal" in m && m["internal"] == Bool(x.internal)
            && "arguments" in m && m["arguments"] == Obj(x.arguments)
  {
  }

  /** An exchange comes back from its entry, with defaults for what was left out; its name is required. */
  lemma ExchangeComesBack(x: ExchangeSpec, omitted: set<string>)
    ensures ParseExchangeSpec(Without(ExchangeEntry(x), omitted)) ==
              if "name" in omitted || x.name == ""
              then Err(ParseError) else Ok(DefaultedExchange(x, omitted))
  {
    hide ExchangeEntry, Without, RequiredString, OptionalString, OptionalBool, OptionalInt64, OptionalArguments, TypeText;
    ExchangeFields(x);
    var e := ExchangeEntry(x);

    ReadRequired(e, omitted, "name");
    ReadText(e, omitted, "type", "direct");
    ReadFlag(e, omitted, "durable", true);
    ReadFlag(e, omitted, "auto_delete", false);
    ReadFlag(e, omitted, "passive", false);
    ReadFlag(e, omitted, "internal", false);
    ReadArguments(e, omitted, "arguments");
    TypeComesBack(x.exchangeType);
    TypeComesBack(Direct);
  }

  /** Which entries are accepted at all. */
  lemma ExchangeAcceptedIff(v: ConfigValue)
    ensures ParseExchangeSpec(v).Ok? <==>
              && v.Obj?
              && HasText(v, "name")
              && TextOrNone(v, "type")
              && FlagOrNone(v, "durable")
              && FlagOrNone(v, "auto_delete")
              && FlagOrNone(v, "passive")
              && FlagOrNone(v, "internal")
              && TableOrNone(v, "arguments")
              && ("type" in v.fields ==> v.fields["type"].text in ["direct", "fanout", "topic", "headers"])
    ensures ParseExchangeSpec(v).Err? ==> ParseExchangeSpec(v).error == ParseError
  {
  }

  // ---- queues ----

  function QueueEntry(q: QueueSpec): ConfigValue {
    Obj(map["name" := Str(q.name), "durable" := Bool(q.durable), "auto_delete" := Bool(q.autoDelete),
            "passive" := Bool(q.passive), "exclusive" := Bool(q.exclusive), "arguments" := Obj(q.arguments)])
  }

  function DefaultedQueue(q: QueueSpec, omitted: set<string>): QueueSpec {
    QueueSpec(
      q.name, if "durable" in omitted then true else q.durable,
      if "auto_delete" in omitted then false else q.autoDelete,
      if "passive" in omitted then false else q.passive, if "exclusive" in omitted then false else q.exclusive,
      if "arguments" in omitted then map[] else q.arguments)
  }

  lemma QueueFields(q: QueueSpec)
    ensures QueueEntry(q).Obj?
    ensures var m := QueueEntry(q).fields;
            && "name" in m && m["name"] == Str(q.name)
            && "durable" in m && m["durable"] == Bool(q.durable)
            && "auto_delete" in m && m["auto_delete"] == Bool(q.autoDelete)
            && "passive" in m && m["passive"] == Bool(q.passive)
            && "exclusive" in m && m["exclusive"] == Bool(q.exclusive)
            && "arguments" in m && m["arguments"] == Obj(q.arguments)
  {
  }

  /** A queue comes back from its entry, with defaults for what was left out; its name is required. */
  lemma QueueComesBack(q: QueueSpec, omitted: set<string>)
    ensures ParseQueueSpec(Without(QueueEntry(q), omitted)) ==
              if "name" in omitted || q.name == ""
              then Err(ParseError) else Ok(DefaultedQueue(q, omitted))
  {
    hide QueueEntry, Without, RequiredString, OptionalString, OptionalBool, OptionalInt64, OptionalArguments;
    QueueFields(q);
    var e := QueueEntry(q);

    ReadRequired(e, omitted, "name");
    ReadFlag(e, omitted, "durable", true);
    ReadFlag(e, omitted, "auto_delete", false);
    ReadFlag(e, omitted, "passive", false);
    ReadFlag(e, omitted, "exclusive", false);
    ReadArguments(e, omitted, "arguments");
  }

  /** Which entries are accepted at all. */
  lemma QueueAcceptedIff(v: ConfigValue)
    ensures ParseQueueSpec(v).Ok? <==>
              && v.Obj?
              && HasText(v, "name")
              && FlagOrNone(v, "durable")
              && FlagOrNone(v, "auto_delete")
              && FlagOrNone(v, "passive")
              && FlagOrNone(v, "exclusive")
              && TableOrNone(v, "arguments")
    ensures ParseQueueSpec(v).Err? ==> ParseQueueSpec(v).error == ParseError
  {
  }

  // ---- bindings ----

  function BindingEntry(b: BindingSpec): ConfigValue {
    Obj(map["exchange" := Str(b.exchange), "queue" := Str(b.queue), "routing_key" := Str(b.routingKey),
            "arguments" := Obj(b.arguments)])
  }

  function DefaultedBinding(b: BindingSpec, omitted: set<string>): BindingSpec {
    BindingSpec(
      b.exchange, b.queue, if "routing_key" in omitted then "" else b.routingKey,
      if "arguments" in omitted then map[] else b.arguments)
  }

  lemma BindingFields(b: BindingSpec)
    ensures BindingEntry(b).Obj?
    ensures var m := BindingEntry(b).fields;
            && "exchange" in m && m["exchange"] == Str(b.exchange)
            && "queue" in m && m["queue"] == Str(b.queue)
            && "routing_key" in m && m["routing_key"] == Str(b.routingKey)
            && "arguments" in m && m["arguments"] == Obj(b.arguments)
  {
  }

  /** A binding comes back from its entry, with defaults for what was left out; the two names are required. */
  lemma BindingComesBack(b: BindingSpec, omitted: set<string>)
    ensures ParseBindingSpec(Without(BindingEntry(b), omitted)) ==
              if "exchange" in omitted || b.exchange == "" || "queue" in omitted || b.queue == ""
              then Err(ParseError) else Ok(DefaultedBinding(b, omitted))
  {
    hide BindingEntry, Without, RequiredString, OptionalString, OptionalBool, OptionalInt64, OptionalArguments;
    BindingFields(b);
    var e := BindingEntry(b);

    ReadRequired(e, omitted, "exchange");
    ReadRequired(e, omitted, "queue");
    ReadText(e, omitted, "routing_key", "");
    ReadArguments(e, omitted, "arguments");
  }

  /** Which entries are accepted at all. */
  lemma BindingAcceptedIff(v: ConfigValue)
    ensures ParseBindingSpec(v).Ok? <==>
              && v.Obj?
              && HasText(v, "exchange")
              && HasText(v, "queue")
              && TextOrNone(v, "routing_key")
              && TableOrNone(v, "arguments")
    ensures ParseBindingSpec(v).Err? ==> ParseBindingSpec(v).error == ParseError
  {
  }

  // ---- publishers ----

  function PublisherEntry(p: PublisherSpec): ConfigValue {
    Obj(map["name" := Str(p.name), "exchange" := Str(p.exchange), "routing_key" := Str(p.routingKey),
            "content_type" := Str(p.contentType), "headers" := Obj(p.headers),
            "persistent" := Bool(p.persistent)])
  }

  function DefaultedPublisher(p: PublisherSpec, omitted: set<string>): PublisherSpec {
    PublisherSpec(
      p.name, p.exchange, if "routing_key" in omitted then "" else p.routingKey,
      if "content_type" in omitted then "" else p.contentType,
      if "headers" in omitted then map[] else p.headers, if "persistent" in omitted then true else p.persistent)
  }

  lemma PublisherFields(p: PublisherSpec)
    ensures PublisherEntry(p).Obj?
    ensures var m := PublisherEntry(p).fields;
            && "name" in m && m["name"] == Str(p.name)
            && "exchange" in m && m["exchange"] == Str(p.exchange)
            && "routing_key" in m && m["routing_key"] == Str(p.routingKey)
            && "content_type" in m && m["content_type"] == Str(p.contentType)
            && "headers" in m && m["headers"] == Obj(p.headers)
            && "persistent" in m && m["persistent"] == Bool(p.persistent)
  {
  }

  /** A publisher comes back from its entry, with defaults for what was left out; the two names are required. */
  lemma PublisherComesBack(p: PublisherSpec, omitted: set<string>)
    ensures ParsePublisherSpec(Without(PublisherEntry(p), omitted)) ==
              if "name" in omitted || p.name == "" || "exchange" in omitted || p.exchange == ""
              then Err(ParseError) else Ok(DefaultedPublisher(p, omitted))
  {
    hide PublisherEntry, Without, RequiredString, OptionalString, OptionalBool, OptionalInt64, OptionalArguments;
    PublisherFields(p);
    var e := PublisherEntry(p);

    ReadRequired(e, omitted, "name");
    ReadRequired(e, omitted, "exchange");
    ReadText(e, omitted, "routing_key", "");
    ReadText(e, omitted, "content_type", "");
    ReadArguments(e, omitted, "headers");
    ReadFlag(e, omitted, "persistent", true);
  }

  /** Which entries are accepted at all. */
  lemma PublisherAcceptedIff(v: ConfigValue)
    ensures ParsePublisherSpec(v).Ok? <==>
              && v.Obj?
              && HasText(v, "name")
              && HasText(v, "exchange")
              && TextOrNone(v, "routing_key")
              && TextOrNone(v, "content_type")
              && TableOrNone(v, "headers")
              && FlagOrNone(v, "persistent")
    ensures ParsePublisherSpec(v).Err? ==> ParsePublisherSpec(v).error == ParseError
  {
  }

  // ---- consumers ----

  function ConsumerEntry(s: ConsumerSpec): ConfigValue
    requires s.prefetchCount <= UINT16_MAX
  {
    Obj(map["name" := Str(s.name), "queue" := Str(s.queue), "consumer_tag" := Str(s.consumerTag),
            "auto_ack" := Bool(s.autoAck), "exclusive" := Bool(s.exclusive), "no_local" := Bool(s.noLocal),
            "prefetch_count" := Int64(s.prefetchCount), "arguments" := Obj(s.arguments)])
  }

  function DefaultedConsumer(s: ConsumerSpec, omitted: set<string>): ConsumerSpec {
    ConsumerSpec(
      s.name, s.queue, if "consumer_tag" in omitted then "" else s.consumerTag,
      if "auto_ack" in omitted then false else s.autoAck, if "exclusive" in omitted then false else s.exclusive,
      if "no_local" in omitted then false else s.noLocal,
      if "prefetch_count" in omitted then 1 else s.prefetchCount,
      if "arguments" in omitted then map[] else s.arguments)
  }

  lemma ConsumerFields(s: ConsumerSpec)
    requires s.prefetchCount <= UINT16_MAX
    ensures ConsumerEntry(s).Obj?
    ensures var m := ConsumerEntry(s).fields;
            && "name" in m && m["name"] == Str(s.name)
            && "queue" in m && m["queue"] == Str(s.queue)
            && "consumer_tag" in m && m["consumer_tag"] == Str(s.consumerTag)
            && "auto_ack" in m && m["auto_ack"] == Bool(s.autoAck)
            && "exclusive" in m && m["exclusive"] == Bool(s.exclusive)
            && "no_local" in m && m["no_local"] == Bool(s.noLocal)
            && "prefetch_count" in m && m["prefetch_count"] == Int64(s.prefetchCount)
            && "arguments" in m && m["arguments"] == Obj(s.arguments)
  {
  }

  /** A consumer comes back from its entry, with defaults for what was left out; the two names are required. */
  lemma ConsumerComesBack(s: ConsumerSpec, omitted: set<string>)
    requires s.prefetchCount <= UINT16_MAX
    ensures ParseConsumerSpec(Without(ConsumerEntry(s), omitted)) ==
              if "name" in omitted || s.name == "" || "queue" in omitted || s.queue == ""
              then Err(ParseError) else Ok(DefaultedConsumer(s, omitted))
  {
    hide ConsumerEntry, Without, RequiredString, OptionalString, OptionalBool, OptionalInt64, OptionalArguments;
    ConsumerFields(s);
    var e := ConsumerEntry(s);

    ReadRequired(e, omitted, "name");
    ReadRequired(e, omitted, "queue");
    ReadText(e, omitted, "consumer_tag", "");
    ReadFlag(e, omitted, "auto_ack", false);
    ReadFlag(e, omitted, "exclusive", false);
    ReadFlag(e, omitted, "no_local", false);
    ReadNumber(e, omitted, "prefetch_count", 1);
    ReadArguments(e, omitted, "arguments");
  }

  /** Which entries are accepted at all. */
  lemma ConsumerAcceptedIff(v: ConfigValue)
    ensures ParseConsumerSpec(v).Ok? <==>
              && v.Obj?
              && HasText(v, "name")
              && HasText(v, "queue")
              && TextOrNone(v, "consumer_tag")
              && FlagOrNone(v, "auto_ack")
              && FlagOrNone(v, "exclusive")
              && FlagOrNone(v, "no_local")
              && NumberOrNone(v, "prefetch_count")
              && TableOrNone(v, "arguments")
              && ("prefetch_count" in v.fields ==> 0 <= v.fields["prefetch_count"].number <= 65535)
    ensures ParseConsumerSpec(v).Err? ==> ParseConsumerSpec(v).error == ParseError
  {
  }

  // ---- the whole configuration ----

  /** The keys left out of each section. */
  datatype Omitted = Omitted(
    root: set<string>, connection: set<string>, reconnect: set<string>, pool: set<string>, topology: set<string>)

  predicate IsInt64(x: int) { -TWO_TO_THE_63 <= x < TWO_TO_THE_63 }

  predicate Writable(t: Timing) {
    IsInt64(t.heartbeat) && IsInt64(t.socketTimeout) && IsInt64(t.initial) && IsInt64(t.max) && IsInt64(t.threads)
  }

  function ReconnectEntry(t: Timing): ConfigValue
    requires Writable(t)
  {
    Obj(map["enabled" := Bool(t.enabled), "initial_delay_ms" := Int64(t.initial), "max_delay_ms" := Int64(t.max)])
  }

  function ConnectionEntry(t: Timing, o: Omitted): ConfigValue
    requires Writable(t)
  {
    Obj(map["uri" := Str(t.uri), "heartbeat_seconds" := Int64(t.heartbeat), "socket_timeout_ms" := Int64(t.socketTimeout),
            "reconnect" := Without(ReconnectEntry(t), o.reconnect)])
  }

  function PoolEntry(t: Timing): ConfigValue
    requires Writable(t)
  {
    Obj(map["thread_count" := Int64(t.threads)])
  }

  function TopologyEntry(l: Lists): ConfigValue {
    Obj(map["exchanges" := Arr(l.exchanges), "queues" := Arr(l.queues), "bindings" := Arr(l.bindings)])
  }

  function RootEntry(t: Timing, l: Lists, o: Omitted): ConfigValue
    requires Writable(t)
  {
    Obj(map["connection" := Without(ConnectionEntry(t, o), o.connection), "worker_pool" := Without(PoolEntry(t), o.pool),
            "topology" := Without(TopologyEntry(l), o.topology), "publishers" := Arr(l.publishers),
            "consumers" := Arr(l.consumers)])
  }

  function DefaultedTiming(t: Timing, o: Omitted): Timing {
    var plain := "reconnect" in o.connection;
    Timing(t.uri, if "heartbeat_seconds" in o.connection then 30 else t.heartbeat,
           if "socket_timeout_ms" in o.connection then 100 else t.socketTimeout,
           if plain || "enabled" in o.reconnect then true else t.enabled,
           if plain || "initial_delay_ms" in o.reconnect then 1000 else t.initial,
           if plain || "max_delay_ms" in o.reconnect then 30000 else t.max,
           if "worker_pool" in o.root || "thread_count" in o.pool then 4 else t.threads)
  }

  function DefaultedLists(l: Lists, o: Omitted): Lists {
    var bare := "topology" in o.root;
    Lists(if bare || "exchanges" in o.topology then [] else l.exchanges, if bare || "queues" in o.topology then [] else l.queues,
          if bare || "bindings" in o.topology then [] else l.bindings, if "publishers" in o.root then [] else l.publishers,
          if "consumers" in o.root then [] else l.consumers)
  }

  /** The ranges that the numbers must keep to. */
  predicate InRange(t: Timing) {
    0 <= t.heartbeat <= 65535 && 10 <= t.socketTimeout && 0 <= t.initial <= t.max && 1 <= t.threads
  }

  lemma ReconnectFields(t: Timing)
    requires Writable(t)
    ensures ReconnectEntry(t).Obj? && PoolEntry(t).Obj?
    ensures var m := ReconnectEntry(t).fields;
            && "enabled" in m && m["enabled"] == Bool(t.enabled)
            && "initial_delay_ms" in m && m["initial_delay_ms"] == Int64(t.initial)
            && "max_delay_ms" in m && m["max_delay_ms"] == Int64(t.max)
    ensures var m := PoolEntry(t).fields; "thread_count" in m && m["thread_count"] == Int64(t.threads)
  {
  }

  lemma ConnectionFields(t: Timing, o: Omitted)
    requires Writable(t)
    ensures ConnectionEntry(t, o).Obj?
    ensures var m := ConnectionEntry(t, o).fields;
            && "uri" in m && m["uri"] == Str(t.uri)
            && "heartbeat_seconds" in m && m["heartbeat_seconds"] == Int64(t.heartbeat)
            && "socket_timeout_ms" in m && m["socket_timeout_ms"] == Int64(t.socketTimeout)
            && "reconnect" in m && m["reconnect"] == Without(ReconnectEntry(t), o.reconnect)
  {
  }

  lemma TopologyFields(l: Lists)
    ensures TopologyEntry(l).Obj?
    ensures var m := TopologyEntry(l).fields;
            && "exchanges" in m && m["exchanges"] == Arr(l.exchanges)
            && "queues" in m && m["queues"] == Arr(l.queues)
            && "bindings" in m && m["bindings"] == Arr(l.bindings)
  {
  }

  lemma RootFields(t: Timing, l: Lists, o: Omitted)
    requires Writable(t)
    ensures RootEntry(t, l, o).Obj?
    ensures var m := RootEntry(t, l, o).fields;
            && "connection" in m && m["connection"] == Without(ConnectionEntry(t, o), o.connection)
            && "worker_pool" in m && m["worker_pool"] == Without(PoolEntry(t), o.pool)
            && "topology" in m && m["topology"] == Without(TopologyEntry(l), o.topology)
            && "publishers" in m && m["publishers"] == Arr(l.publishers)
            && "consumers" in m && m["consumers"] == Arr(l.consumers)
  {
    hide ConnectionEntry, PoolEntry, TopologyEntry, Without;
  }

  lemma EmptyTable(omitted: set<string>)
    ensures Without(Obj(map[]), omitted) == Obj(map[])
  {
  }

  lemma StillAnObject(v: ConfigValue, omitted: set<string>)
    requires v.Obj?
    ensures Without(v, omitted).Obj?
  {
  }

  lemma NothingInIt(key: string, flag: bool, number: int64)
    ensures OptionalBool(Obj(map[]), key, flag) == Ok(flag) && OptionalInt64(Obj(map[]), key, number) == Ok(number)
    ensures OptionalArray(Obj(map[]), key) == Ok([])
  {
  }

  /** The reconnect section, or its absence. */
  lemma ReconnectReads(t: Timing, o: Omitted)
    requires Writable(t)
    ensures var v := if "reconnect" in o.connection then Obj(map[]) else Without(ReconnectEntry(t), o.reconnect);
            var d := DefaultedTiming(t, o);
            && OptionalBool(v, "enabled", true) == Ok(d.enabled)
            && OptionalInt64(v, "initial_delay_ms", 1000) == Ok(d.initial)
            && OptionalInt64(v, "max_delay_ms", 30000) == Ok(d.max)
  {
    hide ReconnectEntry, Without, OptionalBool, OptionalInt64;
    ReconnectFields(t);
    NothingInIt("enabled", true, 0);
    NothingInIt("initial_delay_ms", true, 1000);
    NothingInIt("max_delay_ms", true, 30000);
    ReadFlag(ReconnectEntry(t), o.reconnect, "enabled", true);
    ReadNumber(ReconnectEntry(t), o.reconnect, "initial_delay_ms", 1000);
    ReadNumber(ReconnectEntry(t), o.reconnect, "max_delay_ms", 30000);
  }

  lemma ConnectionReads(t: Timing, o: Omitted)
    requires Writable(t)
    ensures var v, d := Without(ConnectionEntry(t, o), o.connection), DefaultedTiming(t, o);
            && RequiredString(v, "uri") == (if "uri" in o.connection || t.uri == "" then Err(ParseError) else Ok(d.uri))
            && OptionalInt64(v, "heartbeat_seconds", 30) == Ok(d.heartbeat)
            && OptionalInt64(v, "socket_timeout_ms", 100) == Ok(d.socketTimeout)
            && OptionalObject(v, "reconnect") ==
                 Ok(if "reconnect" in o.connection then Obj(map[]) else Without(ReconnectEntry(t), o.reconnect))
  {
    hide ConnectionEntry, ReconnectEntry, Without, RequiredString, OptionalInt64, OptionalObject;
    ReconnectFields(t);
    ConnectionFields(t, o);
    StillAnObject(ReconnectEntry(t), o.reconnect);
    var e := ConnectionEntry(t, o);
    ReadRequired(e, o.connection, "uri");
    ReadNumber(e, o.connection, "heartbeat_seconds", 30);
    ReadNumber(e, o.connection, "socket_timeout_ms", 100);
    ReadSection(e, o.connection, "reconnect");
  }

  lemma RootReads(t: Timing, l: Lists, o: Omitted)
    requires Writable(t)
    ensures var v := Without(RootEntry(t, l, o), o.root);
            && v.Obj?
            && RequiredObject(v, "connection") ==
                 (if "connection" in o.root then Err(ParseError) else Ok(Without(ConnectionEntry(t, o), o.connection)))
            && OptionalObject(v, "worker_pool") == Ok(if "worker_pool" in o.root then Obj(map[]) else Without(PoolEntry(t), o.pool))
            && OptionalObject(v, "topology") ==
                 Ok(if "topology" in o.root then Obj(map[]) else Without(TopologyEntry(l), o.topology))
            && OptionalArray(v, "publishers") == Ok(DefaultedLists(l, o).publishers)
            && OptionalArray(v, "consumers") == Ok(DefaultedLists(l, o).consumers)
  {
    hide RootEntry, ConnectionEntry, PoolEntry, TopologyEntry, Without, RequiredObject, OptionalObject, OptionalArray;
    ReconnectFields(t);
    ConnectionFields(t, o);
    TopologyFields(l);
    RootFields(t, l, o);
    StillAnObject(ConnectionEntry(t, o), o.connection);
    StillAnObject(PoolEntry(t), o.pool);
    StillAnObject(TopologyEntry(l), o.topology);
    var e := RootEntry(t, l, o);
    StillAnObject(e, o.root);
    ReadSection(e, o.root, "connection");
    ReadSection(e, o.root, "worker_pool");
    ReadSection(e, o.root, "topology");
    ReadList(e, o.root, "publishers");
    ReadList(e, o.root, "consumers");
  }

  lemma PoolReads(t: Timing, o: Omitted)
    requires Writable(t)
    ensures var v := if "worker_pool" in o.root then Obj(map[]) else Without(PoolEntry(t), o.pool);
            OptionalInt64(v, "thread_count", 4) == Ok(DefaultedTiming(t, o).threads)
  {
    hide PoolEntry, Without, OptionalInt64;
    ReconnectFields(t);
    NothingInIt("thread_count", true, 4);
    ReadNumber(PoolEntry(t), o.pool, "thread_count", 4);
  }

  /** The scalar settings come back, with their defaults, when they keep to their ranges; the address is
      required. */
  lemma TimingComesBack(t: Timing, l: Lists, o: Omitted)
    requires Writable(t)
    ensures ParseTiming(Without(RootEntry(t, l, o), o.root)) ==
              if "connection" in o.root || "uri" in o.connection || t.uri == "" || !InRange(DefaultedTiming(t, o))
              then Err(ParseError) else Ok(DefaultedTiming(t, o))
  {
    hide RootEntry, ConnectionEntry, ReconnectEntry, PoolEntry, TopologyEntry, Without, DefaultedTiming, DefaultedLists,
         RequiredObject, OptionalObject, OptionalArray, RequiredString, OptionalBool, OptionalInt64;
    RootReads(t, l, o);
    ConnectionReads(t, o);
    ReconnectReads(t, o);
    PoolReads(t, o);
    DefaultKeepsUri(t, o);
  }

  lemma DefaultKeepsUri(t: Timing, o: Omitted)
    ensures DefaultedTiming(t, o).uri == t.uri
  {
  }

  lemma TopologyReads(l: Lists, o: Omitted)
    ensures var v := if "topology" in o.root then Obj(map[]) else Without(TopologyEntry(l), o.topology);
            var d := DefaultedLists(l, o);
            && OptionalArray(v, "exchanges") == Ok(d.exchanges)
            && OptionalArray(v, "queues") == Ok(d.queues)
            && OptionalArray(v, "bindings") == Ok(d.bindings)
  {
    hide TopologyEntry, Without, OptionalArray;
    TopologyFields(l);
    NothingInIt("exchanges", true, 0);
    NothingInIt("queues", true, 0);
    NothingInIt("bindings", true, 0);
    ReadList(TopologyEntry(l), o.topology, "exchanges");
    ReadList(TopologyEntry(l), o.topology, "queues");
    ReadList(TopologyEntry(l), o.topology, "bindings");
  }

  /** Each list is found under its own key, and is empty when the key is missing. */
  lemma ListsComeBack(t: Timing, l: Lists, o: Omitted)
    requires Writable(t)
    ensures ParseLists(Without(RootEntry(t, l, o), o.root)) == Ok(DefaultedLists(l, o))
  {
    hide RootEntry, TopologyEntry, Without, DefaultedLists, OptionalObject, OptionalArray;
    RootReads(t, l, o);
    TopologyReads(l, o);
  }

  lemma ListComesBack<T>(values: seq<ConfigValue>, list: seq<T>, parse: ConfigValue -> Result<T>, key: T -> string)
    requires |values| == |list| && (forall i :: 0 <= i < |list| ==> parse(values[i]) == Ok(list[i])) && UniqueKeys(list, key)
    ensures CollectUnique(values, parse, key) == Ok(list)
  {
    AcceptedIffUnique(values, parse, key);
    if CollectUnique(values, parse, key).Ok? { assert CollectUnique(values, parse, key).value == list; }
  }

  /** Every entry says what is at its place in the lists, and no two say the same name. */
  ghost predicate Says(l: Lists, c: Config) {
    && |l.exchanges| == |c.exchanges| && (forall i :: 0 <= i < |c.exchanges| ==> ParseExchangeSpec(l.exchanges[i]) == Ok(c.exchanges[i]))
    && |l.queues| == |c.queues| && (forall i :: 0 <= i < |c.queues| ==> ParseQueueSpec(l.queues[i]) == Ok(c.queues[i]))
    && |l.bindings| == |c.bindings| && (forall i :: 0 <= i < |c.bindings| ==> ParseBindingSpec(l.bindings[i]) == Ok(c.bindings[i]))
    && |l.publishers| == |c.publishers|
    && (forall i :: 0 <= i < |c.publishers| ==> ParsePublisherSpec(l.publishers[i]) == Ok(c.publishers[i]))
    && |l.consumers| == |c.consumers| && (forall i :: 0 <= i < |c.consumers| ==> ParseConsumerSpec(l.consumers[i]) == Ok(c.consumers[i]))
  }

  ghost predicate NoTwins(c: Config) {
    && UniqueKeys(c.exchanges, ExchangeName) && UniqueKeys(c.queues, QueueName) && UniqueKeys(c.bindings, BindingText)
    && UniqueKeys(c.publishers, PublisherName) && UniqueKeys(c.consumers, ConsumerName)
  }

  /** Whatever is referred to is among the names declared. */
  predicate RefersToDeclared(c: Config) {
    var exchanges, queues := set x | x in c.exchanges :: x.name, set q | q in c.queues :: q.name;
    && (forall b :: b in c.bindings ==> b.exchange in exchanges && b.queue in queues)
    && (forall p :: p in c.publishers ==> p.exchange in exchanges)
    && (forall s :: s in c.consumers ==> s.queue in queues)
  }

  lemma DanglingIff(c: Config)
    ensures NoDanglingReference(c) <==> RefersToDeclared(c)
  {
    var exchanges, queues := set x | x in c.exchanges :: x.name, set q | q in c.queues :: q.name;
    assert forall n :: n in exchanges <==> HasExchange(c.exchanges, n);
    assert forall n :: n in queues <==> HasQueue(c.queues, n);
  }

  /** A configuration that is written out is the one that is accepted: with these settings, and in these
      lists, in order, exactly the specs that the entries say; unless a reference dangles. */
  lemma ConfigComesBack(t: Timing, l: Lists, o: Omitted, c: Config)
    requires Writable(t) && t.uri != "" && "connection" !in o.root && "uri" !in o.connection && InRange(DefaultedTiming(t, o))
    requires Says(DefaultedLists(l, o), c) && NoTwins(c)
    requires var d := DefaultedTiming(t, o);
             && c.uri == t.uri && c.heartbeatSeconds == d.heartbeat && c.workerThreads == d.threads
             && c.socketTimeoutMs == AsInt32(d.socketTimeout)
             && c.reconnect == Reconnect(d.enabled, AsInt32(d.initial), AsInt32(d.max))
    ensures BusConfigOf(Without(RootEntry(t, l, o), o.root)) == if RefersToDeclared(c) then Ok(c) else Err(ParseError)
  {
    hide RootEntry, Without, DefaultedTiming, DefaultedLists, ParseTiming, ParseLists, AsInt32, NoDanglingReference, UniqueKeys,
         RefersToDeclared, ParseExchangeSpec, ParseQueueSpec, ParseBindingSpec, ParsePublisherSpec, ParseConsumerSpec;
    TimingComesBack(t, l, o);
    ListsComeBack(t, l, o);
    DefaultKeepsUri(t, o);
    DanglingIff(c);
    var d := DefaultedLists(l, o);
    ListComesBack(d.exchanges, c.exchanges, ParseExchangeSpec, ExchangeName);
    ListComesBack(d.queues, c.queues, ParseQueueSpec, QueueName);
    ListComesBack(d.bindings, c.bindings, ParseBindingSpec, BindingText);
    ListComesBack(d.publishers, c.publishers, ParsePublisherSpec, PublisherName);
    ListComesBack(d.consumers, c.consumers, ParseConsumerSpec, ConsumerName);
  }

  /** Whatever is accepted holds, in order, what its entries say. */
  lemma AcceptedSaysWhatIsWritten(root: ConfigValue)
    requires BusConfigOf(root).Ok?
    ensures ParseLists(root).Ok? && Says(ParseLists(root).value, BusConfigOf(root).value)
  {
    var l := ParseLists(root).value;
    AcceptedIffUnique(l.exchanges, ParseExchangeSpec, ExchangeName);
    AcceptedIffUnique(l.queues, ParseQueueSpec, QueueName);
    AcceptedIffUnique(l.bindings, ParseBindingSpec, BindingText);
    AcceptedIffUnique(l.publishers, ParsePublisherSpec, PublisherName);
    AcceptedIffUnique(l.consumers, ParseConsumerSpec, ConsumerName);
    hide ParseTiming, ParseLists, NoDanglingReference, UniqueKeys,
         ParseExchangeSpec, ParseQueueSpec, ParseBindingSpec, ParsePublisherSpec, ParseConsumerSpec;
  }

  lemma AcceptedRefersToDeclared(root: ConfigValue)
    requires BusConfigOf(root).Ok?
    ensures RefersToDeclared(BusConfigOf(root).value)
  {
    AcceptedIsConsistent(root);
    DanglingIff(BusConfigOf(root).value);
    hide BusConfigOf, UniqueKeys;
  }
}
