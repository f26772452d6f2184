/** The text under which the parser looks for repeated bindings, and which bindings it mistakes for
    others. */
module BindingKeys {
  import opened Prelude
  import opened ConfigValues
  import opened KeyedLists
  import opened BusConfig

  /** What the parser makes of a binding entry has an exchange and a queue. */
  predicate IsNamed(b: BindingSpec) { b.exchange != "" && b.queue != "" }

  predicate Confusable(a: BindingSpec, b: BindingSpec) {
    BindingText(a) == BindingText(b) && BindingKey(a) != BindingKey(b)
  }

  /** A bar at which the text can be divided otherwise, leaving both names non-empty. */
  predicate HasMovableBar(a: BindingSpec)
    requires IsNamed(a)
  {
    '|' in a.exchange[1..] || ('|' in a.queue && a.queue != "|") || '|' in a.routingKey
  }

  // ---- dividing a text at a bar ----

  /** The bar that ends the shorter of two first parts lies within the longer one. */
  lemma LongerHasBar(s: string, t: string, s': string, t': string)
    requires s + "|" + t == s' + "|" + t' && |s| < |s'|
    ensures s'[|s|] == '|' && s'[..|s|] == s && t == s'[|s| + 1..] + "|" + t'
  {
    var whole := s + "|" + t;
    assert whole[|s|] == '|' && whole[..|s|] == s && whole[|s| + 1..] == t;
    assert whole == s' + ("|" + t');
    assert whole[..|s'|] == s' && whole[|s'|..] == "|" + t';
    assert s'[|s|] == whole[|s|];
    assert s'[..|s|] == whole[..|s|];
    assert whole[|s| + 1..] == s'[|s| + 1..] + ("|" + t');
  }

  lemma SameLengthSameParts(s: string, t: string, s': string, t': string)
    requires s + "|" + t == s' + "|" + t' && |s| == |s'|
    ensures s == s' && t == t'
  {
    var whole := s + "|" + t;
    assert whole[..|s|] == s && whole[|s| + 1..] == t;
    assert whole == s' + "|" + t';
    assert whole[..|s'|] == s' && whole[|s'| + 1..] == t';
  }

  /** Different ways of dividing one text into two parts. */
  lemma TwoPartsHaveBar(queue: string, key: string, queue': string, key': string)
    requires queue + "|" + key == queue' + "|" + key' && (queue, key) != (queue', key')
    ensures '|' in queue || '|' in key
    ensures queue != "" && queue' != "" ==> ('|' in queue && queue != "|") || '|' in key
  {
    if |queue'| < |queue| {
      LongerHasBar(queue', key', queue, key);
      assert queue[|queue'|] in queue;
    } else if |queue| < |queue'| {
      LongerHasBar(queue, key, queue', key');
      assert key[|queue'| - |queue| - 1] == '|';
    } else {
      SameLengthSameParts(queue, key, queue', key');
    }
  }

  /** One text divided into two parts and into three. */
  lemma ThreePartsHaveBar(queue: string, key: string, u: string, queue': string, key': string)
    requires queue + "|" + key == u + "|" + (queue' + "|" + key')
    ensures '|' in queue || '|' in key
    ensures queue' != "" ==> ('|' in queue && queue != "|") || '|' in key
  {
    if |u| < |queue| {
      LongerHasBar(u, queue' + "|" + key', queue, key);
      assert queue[|u|] in queue;
      if queue == "|" && queue' != "" {
        assert queue' + "|" + key' == "" + "|" + key;
        LongerHasBar("", key, queue', key');
        assert key[|queue'| - 1] == '|';
      }
    } else if |queue| < |u| {
      LongerHasBar(queue, key, u, queue' + "|" + key');
      assert key[|u| - |queue| - 1] == '|';
    } else {
      SameLengthSameParts(queue, key, u, queue' + "|" + key');
      assert key[|queue'|] == '|';
    }
  }

  // ---- which bindings are mistaken for others ----

  lemma ConfusableHasBar(a: BindingSpec, b: BindingSpec)
    requires Confusable(a, b)
    ensures '|' in a.exchange || '|' in a.queue || '|' in a.routingKey
    ensures IsNamed(a) && IsNamed(b) ==> HasMovableBar(a)
  {
    var s, t, s', t' := a.exchange, a.queue + "|" + a.routingKey, b.exchange, b.queue + "|" + b.routingKey;
    assert s + "|" + t == BindingText(a) && s' + "|" + t' == BindingText(b);
    if |s'| < |s| {
      LongerHasBar(s', t', s, t);
      assert s' != "" ==> s[1..][|s'| - 1] == '|';
    } else if |s| < |s'| {
      LongerHasBar(s, t, s', t');
      ThreePartsHaveBar(a.queue, a.routingKey, s'[|s| + 1..], b.queue, b.routingKey);
    } else {
      SameLengthSameParts(s, t, s', t');
      TwoPartsHaveBar(a.queue, a.routingKey, b.queue, b.routingKey);
    }
  }

  lemma DivideAt(s: string, i: nat)
    requires i < |s| && s[i] == '|'
    ensures s == s[..i] + "|" + s[i + 1..]
  {
  }

  /** Three parts of one text in two ways: the second bar has moved into the first part. */
  lemma FirstPartLonger(exchange: string, u: string, v: string, key: string)
    ensures var a, b := BindingSpec(exchange, u + "|" + v, key, map[]), BindingSpec(exchange + "|" + u, v, key, map[]);
            BindingText(a) == BindingText(b) && |a.exchange| < |b.exchange|
  {
    var a, b := BindingSpec(exchange, u + "|" + v, key, map[]), BindingSpec(exchange + "|" + u, v, key, map[]);
    calc {
      BindingText(a);
      exchange + "|" + (u + "|" + v) + "|" + key;
      (exchange + "|" + u) + "|" + v + "|" + key;
      BindingText(b);
    }
  }

  /** ... or the first bar into the second part. */
  lemma SecondPartLonger(exchange: string, queue: string, u: string, v: string)
    ensures var a, b := BindingSpec(exchange, queue, u + "|" + v, map[]), BindingSpec(exchange, queue + "|" + u, v, map[]);
            BindingText(a) == BindingText(b) && |a.queue| < |b.queue|
  {
    var a, b := BindingSpec(exchange, queue, u + "|" + v, map[]), BindingSpec(exchange, queue + "|" + u, v, map[]);
    calc {
      BindingText(a);
      exchange + "|" + queue + "|" + (u + "|" + v);
      exchange + "|" + (queue + "|" + u) + "|" + v;
      BindingText(b);
    }
  }

  /** A named binding that is confused with `a`. */
  lemma Confused(a: BindingSpec) returns (b: BindingSpec)
    requires IsNamed(a) && HasMovableBar(a)
    ensures IsNamed(b) && Confusable(a, b)
  {
    hide BindingText;
    if '|' in a.exchange[1..] {
      var i :| 0 < i < |a.exchange| && a.exchange[i] == '|';
      DivideAt(a.exchange, i);
      FirstPartLonger(a.exchange[..i], a.exchange[i + 1..], a.queue, a.routingKey);
      b := BindingSpec(a.exchange[..i], a.exchange[i + 1..] + "|" + a.queue, a.routingKey, map[]);
    } else if '|' in a.queue && a.queue != "|" {
      b := ConfusedQueue(a);
    } else {
      var i :| 0 <= i < |a.routingKey| && a.routingKey[i] == '|';
      DivideAt(a.routingKey, i);
      SecondPartLonger(a.exchange, a.queue, a.routingKey[..i], a.routingKey[i + 1..]);
      b := BindingSpec(a.exchange, a.queue + "|" + a.routingKey[..i], a.routingKey[i + 1..], map[]);
    }
    ArgumentsDoNotMatter(a);
  }

  lemma ConfusedQueue(a: BindingSpec) returns (b: BindingSpec)
    requires IsNamed(a) && '|' in a.queue && a.queue != "|"
    ensures IsNamed(b) && Confusable(a, b)
  {
    hide BindingText;
    ArgumentsDoNotMatter(a);
    var i :| 0 <= i < |a.queue| && a.queue[i] == '|';
    DivideAt(a.queue, i);
    if i > 0 {
      SecondPartLonger(a.exchange, a.queue[..i], a.queue[i + 1..], a.routingKey);
      b := BindingSpec(a.exchange, a.queue[..i], a.queue[i + 1..] + "|" + a.routingKey, map[]);
    } else {
      FirstPartLonger(a.exchange, "", a.queue[1..], a.routingKey);
      b := BindingSpec(a.exchange + "|" + "", a.queue[1..], a.routingKey, map[]);
    }
  }

  lemma ArgumentsDoNotMatter(a: BindingSpec)
    ensures BindingText(a) == BindingText(BindingSpec(a.exchange, a.queue, a.routingKey, map[]))
  {
  }

  /** Of the bindings that the parser makes, exactly those with such a bar share their text with a
      different one. */
  lemma TextKeyAmbiguousIff(a: BindingSpec)
    requires IsNamed(a)
    ensures (exists b :: IsNamed(b) && BindingText(b) == BindingText(a) && BindingKey(b) != BindingKey(a)) <==>
              '|' in a.exchange[1..] || ('|' in a.queue && a.queue != "|") || '|' in a.routingKey
  {
    if HasMovableBar(a) {
      var b := Confused(a);
    } else if b :| IsNamed(b) && BindingText(b) == BindingText(a) && BindingKey(b) != BindingKey(a) {
      ConfusableHasBar(a, b);
    }
  }

  /** Two different bindings are mistaken for one only if a bar occurs in one of their parts. */
  lemma BarFreeBindingsAreTold(a: BindingSpec, b: BindingSpec)
    requires '|' !in a.exchange && '|' !in a.queue && '|' !in a.routingKey
    requires BindingText(a) == BindingText(b)
    ensures BindingKey(a) == BindingKey(b)
  {
    if Confusable(a, b) { ConfusableHasBar(a, b); }
  }

  // ---- and what that does to a configuration ----

  function NameEntry(name: string): ConfigValue { Obj(map["name" := Str(name)]) }

  function BindingEntry(b: BindingSpec): ConfigValue {
    Obj(map["exchange" := Str(b.exchange), "queue" := Str(b.queue), "routing_key" := Str(b.routingKey),
            "arguments" := Obj(b.arguments)])
  }

  /** One entry for each of two names. */
  function NameEntries(n: string, n': string): seq<ConfigValue> {
    if n == n' then [NameEntry(n)] else [NameEntry(n), NameEntry(n')]
  }

  /** A configuration with two bindings whose exchanges and queues it declares. */
  function TwoBindings(a: BindingSpec, b: BindingSpec): ConfigValue {
    Obj(map["connection" := Obj(map["uri" := Str("amqp://h/")]),
            "topology" := Obj(map["exchanges" := Arr(NameEntries(a.exchange, b.exchange)),
                                  "queues" := Arr(NameEntries(a.queue, b.queue)),
                                  "bindings" := Arr([BindingEntry(a), BindingEntry(b)])])])
  }

  lemma CollectOne<V, T>(v: V, parse: V -> Result<T>, key: T -> string)
    requires parse(v).Ok?
    ensures CollectUnique([v], parse, key) == Ok([parse(v).value])
  {
    assert [v][..0] == [];
    assert CollectUnique([v][..0], parse, key) == Ok([]);
    assert [] + [parse(v).value] == [parse(v).value];
  }

  lemma CollectPair<V, T>(v: V, w: V, parse: V -> Result<T>, key: T -> string)
    requires parse(v).Ok? && parse(w).Ok?
    ensures CollectUnique([v, w], parse, key) ==
              if key(parse(v).value) == key(parse(w).value) then Err(AlreadyExists)
              else Ok([parse(v).value, parse(w).value])
  {
    CollectOne(v, parse, key);
    assert [v, w][..1] == [v];
    var ks := Keys([parse(v).value], key);
    assert ks[0] == key(parse(v).value);
    assert [parse(v).value] + [parse(w).value] == [parse(v).value, parse(w).value];
    assert key(parse(w).value) in ks <==> key(parse(v).value) == key(parse(w).value);
  }

  function PlainExchange(name: string): ExchangeSpec { ExchangeSpec(name, Direct, true, false, false, false, map[]) }
  function PlainQueue(name: string): QueueSpec { QueueSpec(name, true, false, false, false, map[]) }

  lemma EntriesParse(n: string)
    requires n != ""
    ensures ParseExchangeSpec(NameEntry(n)) == Ok(PlainExchange(n)) && ParseQueueSpec(NameEntry(n)) == Ok(PlainQueue(n))
  {
    assert RequiredString(NameEntry(n), "name") == Ok(n);
  }

  lemma BindingParses(b: BindingSpec)
    requires IsNamed(b)
    ensures ParseBindingSpec(BindingEntry(b)) == Ok(b)
  {
    var v := BindingEntry(b);
    assert RequiredString(v, "exchange") == Ok(b.exchange) && RequiredString(v, "queue") == Ok(b.queue);
  }

  lemma NamesCollect(n: string, n': string)
    requires n != "" && n' != ""
    ensures var x := CollectUnique(NameEntries(n, n'), ParseExchangeSpec, ExchangeName);
            x.Ok? && PlainExchange(n) in x.value && PlainExchange(n') in x.value
    ensures var q := CollectUnique(NameEntries(n, n'), ParseQueueSpec, QueueName);
            q.Ok? && PlainQueue(n) in q.value && PlainQueue(n') in q.value
  {
    EntriesParse(n);
    EntriesParse(n');
    CollectOne(NameEntry(n), ParseExchangeSpec, ExchangeName);
    CollectOne(NameEntry(n), ParseQueueSpec, QueueName);
    CollectPair(NameEntry(n), NameEntry(n'), ParseExchangeSpec, ExchangeName);
    CollectPair(NameEntry(n), NameEntry(n'), ParseQueueSpec, QueueName);
  }

  /** What is read from such a configuration besides the lists' entries. */
  lemma TwoBindingsAreRead(a: BindingSpec, b: BindingSpec)
    ensures ParseTiming(TwoBindings(a, b)) == Ok(Timing("amqp://h/", 30, 100, true, 1000, 30000, 4))
    ensures ParseLists(TwoBindings(a, b)) ==
              Ok(Lists(NameEntries(a.exchange, b.exchange), NameEntries(a.queue, b.queue), [BindingEntry(a), BindingEntry(b)], [], []))
  {
    hide NameEntries, BindingEntry;
    var root := TwoBindings(a, b);
    var connection, topology := root.fields["connection"], root.fields["topology"];
    assert RequiredObject(root, "connection") == Ok(connection);
    assert RequiredString(connection, "uri") == Ok("amqp://h/");
    assert OptionalObject(connection, "reconnect") == Ok(Obj(map[]));
    assert OptionalObject(root, "topology") == Ok(topology);
  }

  /** The two bindings refer to what is declared. */
  lemma PairResolves(t: Timing, x: seq<ExchangeSpec>, q: seq<QueueSpec>, a: BindingSpec, b: BindingSpec)
    requires 0 <= t.heartbeat && 0 <= t.threads
    requires PlainExchange(a.exchange) in x && PlainExchange(b.exchange) in x
    requires PlainQueue(a.queue) in q && PlainQueue(b.queue) in q
    ensures Resolve(Assemble(t, x, q, [a, b], [], [])).Ok?
  {
    assert HasExchange(x, a.exchange) by { assert PlainExchange(a.exchange).name == a.exchange; }
    assert HasExchange(x, b.exchange) by { assert PlainExchange(b.exchange).name == b.exchange; }
    assert HasQueue(q, a.queue) by { assert PlainQueue(a.queue).name == a.queue; }
    assert HasQueue(q, b.queue) by { assert PlainQueue(b.queue).name == b.queue; }
  }

  /** Two named bindings are accepted together exactly when their texts differ.  So the configuration of
      two different bindings that are confused is refused as if one were repeated. */
  lemma AcceptedTogetherIff(a: BindingSpec, b: BindingSpec)
    requires IsNamed(a) && IsNamed(b)
    ensures BusConfigOf(TwoBindings(a, b)).Ok? <==> BindingText(a) != BindingText(b)
    ensures Confusable(a, b) ==> BusConfigOf(TwoBindings(a, b)) == Err(AlreadyExists)
  {
    hide TwoBindings, ParseTiming, ParseLists, NameEntries, BindingEntry, BindingText, ParseBindingSpec, ParseExchangeSpec,
         ParseQueueSpec, ParsePublisherSpec, ParseConsumerSpec, Resolve, Assemble, PlainExchange, PlainQueue;
    TwoBindingsAreRead(a, b);
    NamesCollect(a.exchange, b.exchange);
    NamesCollect(a.queue, b.queue);
    BindingParses(a);
    BindingParses(b);
    CollectPair(BindingEntry(a), BindingEntry(b), ParseBindingSpec, BindingText);
    var x := CollectUnique(NameEntries(a.exchange, b.exchange), ParseExchangeSpec, ExchangeName).value;
    var q := CollectUnique(NameEntries(a.queue, b.queue), ParseQueueSpec, QueueName).value;
    PairResolves(Timing("amqp://h/", 30, 100, true, 1000, 30000, 4), x, q, a, b);
    NothingCollects();
  }

  lemma NothingCollects()
    ensures CollectUnique([], ParsePublisherSpec, PublisherName) == Ok([])
    ensures CollectUnique([], ParseConsumerSpec, ConsumerName) == Ok([])
  {
  }

  /** For instance. */
  lemma DifferentBindingsAreRefused()
    ensures var a, b := BindingSpec("a|b", "c", "", map[]), BindingSpec("a", "b|c", "", map[]);
            BindingKey(a) != BindingKey(b) && BusConfigOf(TwoBindings(a, b)) == Err(AlreadyExists)
  {
    var a, b := BindingSpec("a|b", "c", "", map[]), BindingSpec("a", "b|c", "", map[]);
    assert BindingText(a) == "a|b|c|" == BindingText(b);
    assert |a.exchange| == 3 && |b.exchange| == 1;
    AcceptedTogetherIff(a, b);
  }
}
