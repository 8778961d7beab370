/**
 What a subscription makes of a broker, from its address to the messages that reach its queue (queueSubscribe,
 declareExchange, declareQueue and declareBinding in internal/provider/connectors/amqp091/amqp091.go).
 */
module Subscriptions {
  import opened Amqp
  import opened DeadLetters
  import opened Filters
  import opened RetryTopology
  import opened Text
  import opened Topology
  import opened Wrappers

  // The queue.

  /** A durable queue is a quorum queue and its name says so once; every other source keeps its name. */
  lemma SubscriptionNames(src: Source)
    ensures var s, durable := Subscribing(src), src.kind.QueueSource? && !src.autoDelete;
      && (durable ==> HasSuffix(s.name, ".quorum"))
      && (durable ==> s.name == if HasSuffix(src.name, ".quorum") then src.name else src.name + ".quorum")
      && (!durable ==> s.name == src.name)
      && s == src.(name := s.name, kind := if src.autoDelete then TemporarySource else src.kind)
  {
    var n := src.name + QUORUM;
    assert n[|n| - |QUORUM|..] == QUORUM;
  }

  /** An option the connector takes: two names with any value, two that ask for a number. */
  ghost predicate Takes(name: string, value: string) {
    name in {"DeadLetterAddress", "DeadLetterSubject"} || (name in {"MessageTTL", "Expires"} && Atoi(value).Some?)
  }

  /** The queue that a source asks for, in terms of what the client gave. */
  ghost predicate AskedFor(q: Queue, src: Source) {
    var o := src.options;
    && q.kind == (if src.kind.QueueSource? && !src.autoDelete then "quorum" else "classic")
    && q.singleActive == src.singleActive
    && q.ttl == (if "MessageTTL" in o then Atoi(o["MessageTTL"]) else None)
    && ("Expires" in o ==> q.expires == Atoi(o["Expires"]))
    && ("Expires" !in o ==> q.expires == if src.autoDelete || src.exclusive then Some(300_000) else None)
    && q.deadLetterExchange == (if "DeadLetterAddress" in o then Some(o["DeadLetterAddress"]) else None)
    && q.deadLetterKey == (if "DeadLetterSubject" in o then Some(o["DeadLetterSubject"]) else None)
  }

  lemma ArgumentsAreAskedFor(src: Source)
    ensures var args, o := QueueArgs(Subscribing(src)), src.options;
      && (args.Some? <==> (src.autoDelete || !src.kind.StreamSource?) && forall n :: n in o ==> Takes(n, o[n]))
      && (args.Some? ==> AskedFor(args.value, src))
  {
    var o := src.options;
    assert forall n :: n in o ==> (Takes(n, o[n]) <==> OptionOk(n, o[n]));
  }

  lemma BindingKeepsBroker(t: Topology, src: Source)
    ensures BindingDeclared(t, src, true, NO_BIND_FAULTS).1
    ensures BindingDeclared(t, src, true, NO_BIND_FAULTS).0.broker.queues == t.broker.queues
  {
  }

  /** The state between the source's own declarations and its dead letters. */
  lemma HomeQueue(t: Topology, src: Source) returns (t1: Topology)
    requires QueueArgs(src).Some?
    ensures Subscribed(t, src, NO_FAULTS, NO_FAULTS) == (DeadLetterDeclared(t1, src, NO_FAULTS), true)
    ensures t1.broker.queues == t.broker.queues[src.name := EffectiveQueue(t, src)]
  {
    t1 := ExchangeDeclared(t, src.address, true, true).0;
    assert t1.broker.queues == t.broker.queues;
    t1 := QueueDeclared(t1, src, true, true, true).0;
    BindingKeepsBroker(t1, src);
    t1 := BindingDeclared(t1, src, true, NO_BIND_FAULTS).0;
  }

  lemma DeclaredQueues(t: Topology, src: Source)
    requires QueueArgs(src).Some?
    ensures Declared(t, src, true, NO_FAULTS).0.broker.queues == t.broker.queues[src.name := EffectiveQueue(t, src)]
  {
    var t1 := ExchangeDeclared(t, src.address, true, true).0;
    assert t1.broker.queues == t.broker.queues;
    t1 := QueueDeclared(t1, src, true, true, true).0;
    BindingKeepsBroker(t1, src);
  }

  lemma SubscribedQueue(t: Topology, src: Source)
    ensures var (t1, ok) := Subscribed(t, src, NO_FAULTS, NO_FAULTS);
      && (ok <==> QueueArgs(src).Some?)
      && (ok ==> src.name in t1.broker.queues && t1.broker.queues[src.name] == EffectiveQueue(t, src))
  {
    if QueueArgs(src).Some? {
      var home := HomeQueue(t, src);
      if "DeadLetterAddress" in src.options {
        DeadKeepsHome(home, src);
      }
    }
  }

  /**
   Which sources a subscription accepts when nothing is refused, and what queue the broker has afterwards if it had none:
   quorum if durable and classic otherwise, the options the client gave and nothing else, five minutes to live for
   auto-delete and exclusive sources that ask for nothing else.
   */
  lemma SubscriptionQueue(t: Topology, src: Source)
    ensures var s, o := Subscribing(src), src.options; var (t1, ok) := Subscribed(t, s, NO_FAULTS, NO_FAULTS);
      && (ok <==> (src.autoDelete || !src.kind.StreamSource?) && forall n :: n in o ==> Takes(n, o[n]))
      && (ok && s.name !in t.broker.queues ==> s.name in t1.broker.queues && AskedFor(t1.broker.queues[s.name], src))
  {
    SubscribedQueue(t, Subscribing(src));
    ArgumentsAreAskedFor(src);
  }

  const CLASSIC := Queue("classic", None, None, None, None, false)

  /** With a dead letter address, the broker has a classic queue without arguments for what is rejected afterwards. */
  lemma SubscriptionDeadLetterQueue(t: Topology, src: Source)
    requires QueueArgs(src).Some? && "DeadLetterAddress" in src.options
    ensures var b, name := Subscribed(t, src, NO_FAULTS, NO_FAULTS).0.broker, RemoveFirst(src.name, ".quorum") + ".dlq";
      name in b.queues && b.queues[name] == if name in t.broker.queues then t.broker.queues[name] else CLASSIC
  {
    DeadLetterQueueIsAnother(src, src.options["DeadLetterAddress"]);
    var home := HomeQueue(t, src);
    DeadQueues(home, src);
  }

  lemma DeadQueues(t: Topology, src: Source)
    requires "DeadLetterAddress" in src.options
    ensures var name := RemoveFirst(src.name, ".quorum") + ".dlq";
      DeadLetterDeclared(t, src, NO_FAULTS).broker.queues
        == t.broker.queues[name := if name in t.broker.queues then t.broker.queues[name] else CLASSIC]
  {
    DeadLetterArguments(src, src.options["DeadLetterAddress"]);
    DeclaredQueues(t, DeadLetterSource(src, src.options["DeadLetterAddress"]));
  }

  lemma DeadLetterArguments(src: Source, address: string)
    ensures QueueArgs(DeadLetterSource(src, address)) == Some(CLASSIC)
  {
    var dead := DeadLetterSource(src, address);
    assert forall o :: o !in dead.options;
  }

  /**
   When a subscription fails, for every combination of refused and late requests: if its source is not acceptable, or no
   channel can be had for its queue or its bindings. What the broker refuses, and the dead letters, do not matter.
   */
  lemma SubscriptionFailsIff(t: Topology, src: Source, home: DeclareFaults, dead: DeclareFaults)
    ensures !Subscribed(t, src, home, dead).1 <==> (QueueArgs(src).None? || !home.queueChannel || !home.bind.channel)
  {
  }

  /** Declaring an exchange reports success iff its name is reserved, or it is there and the client knows. */
  lemma ExchangeIsThere(t: Topology, a: Address, channel: bool, accepted: bool)
    requires t.knownExchanges <= t.broker.exchanges.Keys && "" !in t.broker.exchanges
    ensures var (t1, ok) := ExchangeDeclared(t, a, channel, accepted);
      && (ok <==> Contains(a.name, "amq.") || (channel && a.name in t1.knownExchanges && a.name in t1.broker.exchanges))
      && t1.knownExchanges <= t1.broker.exchanges.Keys
      && (accepted && channel && a.name != "" && !Contains(a.name, "amq.") && a.name in t.broker.exchanges ==> ok)
  {
  }

  // Delivery.

  /** A source that a subscription accepts, on an exchange that can be declared, by a client that remembers nothing wrong. */
  predicate Acceptable(t: Topology, src: Source) {
    && "" !in t.broker.exchanges && t.knownExchanges <= t.broker.exchanges.Keys
    && src.address.name != "" && !Contains(src.address.name, "amq.") && QueueArgs(src).Some?
  }

  /** Nothing is bound between the source's exchange and its queue yet. */
  predicate Fresh(t: Topology, src: Source) { Between(t, src.address.name, src.name) == {} }

  /** The source's own declarations: exchange, queue, and one binding per request if the exchange is there. */
  lemma HomeBindings(t: Topology, src: Source) returns (t1: Topology)
    requires Acceptable(t, src) && Fresh(t, src)
    ensures Subscribed(t, src, NO_FAULTS, NO_FAULTS) == (DeadLetterDeclared(t1, src, NO_FAULTS), true)
    ensures src.name in t1.broker.queues && t1.broker.queues[src.name] == EffectiveQueue(t, src)
    ensures At(t1.broker.exchanges, src.address.name) == ExchangeAfter(t, src.address.name, src.address.kind)
    ensures src.address.name in t1.broker.exchanges ==>
      forall x: Binding :: x in Between(t1, src.address.name, src.name)
        <==> InPair(x, src) && x.key in Wanted(src) && Carries(src, x.args)
    ensures src.address.name !in t1.broker.exchanges ==> Between(t1, src.address.name, src.name) == {}
  {
    t1 := ExchangeDeclared(t, src.address, true, true).0;
    t1 := QueueDeclared(t1, src, true, true, true).0;
    var before := t1;
    assert Between(before, src.address.name, src.name) == Between(t, src.address.name, src.name);
    t1 := BindingDeclared(before, src, true, NO_BIND_FAULTS).0;
    if src.address.name in t1.broker.exchanges {
      RowsContain(src, Wanted(src));
      forall x: Binding
        ensures x in Between(t1, src.address.name, src.name) <==> InPair(x, src) && x.key in Wanted(src) && Carries(src, x.args)
      {
        if InPair(x, src) && x.key in Wanted(src) && Carries(src, x.args) {
          AcceptedContains(before.broker, Requests(src), {}, x);
        }
        assert x in before.broker.bindings && InPair(x, src) ==> x in Between(before, src.address.name, src.name);
      }
    } else {
      RowsContain(src, Wanted(src));
      assert Accepted(before.broker, Requests(src), {}) == {};
    }
  }

  /** Setting up dead letters changes nothing between the source's exchange and its queue. */
  lemma DeadLettersKeepHome(t: Topology, src: Source)
    requires src.name in t.broker.queues
    ensures var t1 := DeadLetterDeclared(t, src, NO_FAULTS);
      && QueuesStay(t, t1)
      && Between(t1, src.address.name, src.name) == Between(t, src.address.name, src.name)
      && (src.address.name in t.broker.exchanges ==>
            At(t1.broker.exchanges, src.address.name) == At(t.broker.exchanges, src.address.name))
  {
    if "DeadLetterAddress" in src.options {
      var dead := DeadLetterSource(src, src.options["DeadLetterAddress"]);
      DeadLetterQueueIsAnother(src, src.options["DeadLetterAddress"]);
      DeclaredKeepsQueues(t, dead, true, NO_FAULTS);
      DeclaredKeepsOthers(t, dead, src.address.name, src.name);
    }
  }

  /** Some binding that the source asks for matches, by the rules of an exchange of this type. */
  ghost predicate SomeRequestMatches(kind: ExchangeType, src: Source, key: string, headers: Table) {
    exists x :: InPair(x, src) && x.key in Wanted(src) && Carries(src, x.args) && BindingMatches(kind, x, key, headers)
  }

  /** Whatever type the exchange has: exactly the requested bindings decide. */
  lemma RequestsDecide(t: Topology, src: Source, key: string, headers: Table)
    requires Acceptable(t, src) && Fresh(t, src) && ExchangeAfter(t, src.address.name, src.address.kind).Some?
    ensures var (t1, ok) := Subscribed(t, src, NO_FAULTS, NO_FAULTS);
      ok && (src.name in Route(t1.broker, src.address.name, key, headers)
             <==> SomeRequestMatches(ExchangeAfter(t, src.address.name, src.address.kind).value, src, key, headers))
  {
    var home := HomeBindings(t, src);
    DeadLettersKeepHome(home, src);
    var t1 := Subscribed(t, src, NO_FAULTS, NO_FAULTS).0;
    RouteBetween(t1, src.address.name, src.name, key, headers);
  }

  /** A subscription to a new QUEUE address gets exactly the messages whose key is one of its subjects. */
  lemma QueueSubscription(t: Topology, src: Source, key: string, headers: Table)
    requires Acceptable(t, src) && Fresh(t, src) && src.address.name !in t.broker.exchanges
    requires src.address.kind.QueueAddress?
    ensures var (t1, ok) := Subscribed(t, src, NO_FAULTS, NO_FAULTS);
      ok && (src.name in Route(t1.broker, src.address.name, key, headers) <==> key in src.address.subjects)
  {
    RequestsDecide(t, src, key, headers);
    if key in src.address.subjects {
      assert Carries(src, map[]) && BindingMatches(Direct, Binding(src.address.name, src.name, key, map[]), key, headers);
    }
  }

  /** To a new TOPIC address: the messages whose key one of its subjects matches as a pattern. */
  lemma TopicSubscription(t: Topology, src: Source, key: string, headers: Table)
    requires Acceptable(t, src) && Fresh(t, src) && src.address.name !in t.broker.exchanges
    requires src.address.kind.TopicAddress?
    ensures var (t1, ok) := Subscribed(t, src, NO_FAULTS, NO_FAULTS);
      ok && (src.name in Route(t1.broker, src.address.name, key, headers)
             <==> exists p :: p in src.address.subjects && TopicMatch(Words(p), Words(key)))
  {
    RequestsDecide(t, src, key, headers);
    if p :| p in src.address.subjects && TopicMatch(Words(p), Words(key)) {
      assert Carries(src, map[]) && BindingMatches(Topic, Binding(src.address.name, src.name, p, map[]), key, headers);
    }
  }

  /** To a new FILTER address, with filters: the messages whose headers one of them accepts, whatever their key. */
  lemma FilterSubscription(t: Topology, src: Source, key: string, headers: Table)
    requires Acceptable(t, src) && Fresh(t, src) && src.address.name !in t.broker.exchanges
    requires src.address.kind.FilterAddress? && src.filters != []
    requires forall i :: 0 <= i < |src.filters| ==> Expressible(src.filters[i])
    ensures var (t1, ok) := Subscribed(t, src, NO_FAULTS, NO_FAULTS);
      ok && (src.name in Route(t1.broker, src.address.name, key, headers) <==> SomeFilterAccepts(src.filters, headers))
  {
    RequestsDecide(t, src, key, headers);
    RequestsAreFilters(src, key, headers);
  }

  lemma RequestsAreFilters(src: Source, key: string, headers: Table)
    requires src.address.kind.FilterAddress? && src.filters != []
    requires forall i :: 0 <= i < |src.filters| ==> Expressible(src.filters[i])
    ensures SomeRequestMatches(Headers, src, key, headers) <==> SomeFilterAccepts(src.filters, headers)
  {
    TablesOfFilters(src.filters);
    forall i | 0 <= i < |src.filters|
      ensures HeadersMatch(TableOf(src.filters[i]), headers) <==> Accepts(src.filters[i], headers)
    {
      ExpressibleIsPreserved(src.filters[i], headers);
    }
    if i :| 0 <= i < |src.filters| && Accepts(src.filters[i], headers) {
      var x := Binding(src.address.name, src.name, Wanted(src)[0], Tables(src)[i]);
      assert Carries(src, x.args) && BindingMatches(Headers, x, key, headers);
    }
  }

  /** ... and without filters: every message, if there is a subject to bind, and none otherwise. */
  lemma UnfilteredSubscription(t: Topology, src: Source, key: string, headers: Table)
    requires Acceptable(t, src) && Fresh(t, src) && src.address.name !in t.broker.exchanges
    requires src.address.kind.FilterAddress? && src.filters == []
    ensures var (t1, ok) := Subscribed(t, src, NO_FAULTS, NO_FAULTS);
      ok && (src.name in Route(t1.broker, src.address.name, key, headers) <==> src.address.subjects != [])
  {
    RequestsDecide(t, src, key, headers);
    if src.address.subjects != [] {
      var x := Binding(src.address.name, src.name, src.address.subjects[0], map[]);
      assert Carries(src, x.args) && BindingMatches(Headers, x, key, headers);
    }
  }

  /** To a STREAM address, which no exchange type exists for: none, although the subscription succeeds. */
  lemma StreamAddressGetsNothing(t: Topology, src: Source, key: string, headers: Table)
    requires Acceptable(t, src) && Fresh(t, src) && src.address.name !in t.broker.exchanges
    requires src.address.kind.StreamAddress?
    ensures var (t1, ok) := Subscribed(t, src, NO_FAULTS, NO_FAULTS);
      ok && src.name !in Route(t1.broker, src.address.name, key, headers)
  {
    var home := HomeBindings(t, src);
    DeadLettersKeepHome(home, src);
    RouteBetween(Subscribed(t, src, NO_FAULTS, NO_FAULTS).0, src.address.name, src.name, key, headers);
  }
}
