/**
 What a subscription declares (queueSubscribe and setupDeadLetter in
 internal/provider/connectors/amqp091/amqp091.go) and which rejected messages
 reach the dead letter queue it sets up.
 */
module DeadLetters {
  import opened Amqp
  import opened RetryTopology
  import opened Text
  import opened Topology
  import opened Wrappers

  /** strings.Replace(s, pat, "", 1). */
  function RemoveFirst(s: string, pat: string): string
    requires pat != ""
  {
    if s == "" then ""
    else if pat <= s then s[|pat|..]
    else [s[0]] + RemoveFirst(s[1..], pat)
  }

  /** queueSubscribe rewrites the source before it declares anything. */
  function Subscribing(src: Source): Source {
    var typed := if src.autoDelete then src.(kind := TemporarySource) else src;
    typed.(name := SourceName(typed))
  }

  function DeadLetterSubject(src: Source): string {
    if "DeadLetterSubject" in src.options then src.options["DeadLetterSubject"] else src.name
  }

  function DeadLetterSource(src: Source, address: string): Source {
    Source(RemoveFirst(src.name, QUORUM) + ".dlq", TemporarySource,
           Address(address, TopicAddress, [DeadLetterSubject(src)]), false, false, false, map[], [])
  }

  /** setupDeadLetter; its result is dropped by the caller. */
  function DeadLetterDeclared(t: Topology, src: Source, f: DeclareFaults): Topology {
    if "DeadLetterAddress" !in src.options then t
    else Declared(t, DeadLetterSource(src, src.options["DeadLetterAddress"]), true, f).0
  }

  /** The declarations of queueSubscribe, for a source that Subscribing has rewritten. */
  function Subscribed(t: Topology, src: Source, home: DeclareFaults, dead: DeclareFaults): (Topology, bool) {
    var t1 := ExchangeDeclared(t, src.address, home.exchangeChannel, home.exchange).0;
    var (t2, queued) := QueueDeclared(t1, src, true, home.queueChannel, home.queue);
    if !queued then (t2, false)
    else
      var (t3, bound) := BindingDeclared(t2, src, true, home.bind);
      if !bound then (t3, false) else (DeadLetterDeclared(t3, src, dead), true)
  }

  const NO_FAULTS := DeclareFaults(true, true, true, true, NO_BIND_FAULTS)

  /** The dead letter queue of a source is never the source's own queue. */
  lemma {:induction false} RemoveFirstLength(s: string)
    ensures |RemoveFirst(s, QUORUM)| == |s| || |RemoveFirst(s, QUORUM)| + |QUORUM| == |s|
  {
    if s != "" && !(QUORUM <= s) {
      RemoveFirstLength(s[1..]);
    }
  }

  lemma DeadLetterQueueIsAnother(src: Source, address: string)
    ensures DeadLetterSource(src, address).name != src.name
  {
    RemoveFirstLength(src.name);
  }

  /** A dead-lettered source that the subscription accepts, by a client that remembers no more exchanges than there are. */
  predicate Consistent(t: Topology, src: Source) {
    && "" !in t.broker.exchanges && t.knownExchanges <= t.broker.exchanges.Keys
    && "DeadLetterAddress" in src.options && QueueArgs(src).Some?
  }

  /** The arguments of the source's queue: a queue that is there keeps its own, and the refused declaration is only logged. */
  function EffectiveQueue(t: Topology, src: Source): Queue
    requires QueueArgs(src).Some?
  {
    if src.name in t.broker.queues then t.broker.queues[src.name] else QueueArgs(src).value
  }

  function DeadLetterQueue(src: Source): string { DeadLetterSource(src, "").name }

  /** The type of an exchange once it has been declared; "" and names with "amq." never are. */
  function ExchangeAfter(t: Topology, name: string, kind: AddressType): Option<ExchangeType> {
    if name in t.broker.exchanges then Some(t.broker.exchanges[name])
    else if name == "" || Contains(name, "amq.") then None
    else ExchangeTypeOf(kind)
  }

  /** The dead letter exchange once the subscription is declared: its own address comes first. */
  function DeadExchange(t: Topology, src: Source): Option<ExchangeType>
    requires "DeadLetterAddress" in src.options
  {
    var dead := src.options["DeadLetterAddress"];
    var home := if dead == src.address.name then ExchangeAfter(t, dead, src.address.kind) else None;
    if home.Some? then home else ExchangeAfter(t, dead, TopicAddress)
  }

  /** The default exchange asks for the queue's name, any other for a key that matches the binding of `subject`. */
  predicate Matches(exchange: Option<ExchangeType>, address: string, queue: string, subject: string, routed: string, headers: Table) {
    if address == "" then routed == queue
    else exchange.Some? && BindingMatches(exchange.value, Binding(address, queue, subject, map[]), routed, headers)
  }

  /** The bindings between an exchange and a queue. */
  function Between(t: Topology, exchange: string, queue: string): set<Binding> {
    set y | y in t.broker.bindings && y.exchange == exchange && y.queue == queue
  }

  /** Delivery by an exchange that is not the source's dead letter exchange: only earlier bindings can do it. */
  predicate MatchesEarlier(t: Topology, src: Source, exchange: string, queue: string, routed: string, headers: Table) {
    var kind := if exchange == src.address.name then ExchangeAfter(t, exchange, src.address.kind)
                else At(t.broker.exchanges, exchange);
    if exchange == "" then routed == queue
    else kind.Some? && exists y :: y in Between(t, exchange, queue) && BindingMatches(kind.value, y, routed, headers)
  }

  /** Whether a message with this key, rejected from a queue with the arguments `q`, arrives in the dead letter queue of `src`. */
  predicate Arrives(t: Topology, src: Source, q: Queue, key: string, headers: Table)
    requires "DeadLetterAddress" in src.options
  {
    && q.deadLetterExchange.Some?
    && var routed := if q.deadLetterKey.Some? then q.deadLetterKey.value else key;
    if q.deadLetterExchange.value == src.options["DeadLetterAddress"]
    then Matches(DeadExchange(t, src), q.deadLetterExchange.value, DeadLetterQueue(src), DeadLetterSubject(src), routed, headers)
    else MatchesEarlier(t, src, q.deadLetterExchange.value, DeadLetterQueue(src), routed, headers)
  }

  /** After the forced declaration of a source with one subject, a message reaches its queue iff it matches that binding. */
  lemma OneKeyDelivery(t: Topology, src: Source, key: string, headers: Table)
    requires src.address.kind == TopicAddress && src.address.name != "" && |src.address.subjects| == 1
    requires src.name in t.broker.queues
    ensures var b := BindingDeclared(t, src, true, NO_BIND_FAULTS).0.broker;
      src.name in Route(b, src.address.name, key, headers) <==>
        (src.address.name in b.exchanges
         && BindingMatches(b.exchanges[src.address.name],
                           Binding(src.address.name, src.name, src.address.subjects[0], map[]), key, headers))
  {
    var b := BindingDeclared(t, src, true, NO_BIND_FAULTS).0.broker;
    var k := src.address.subjects[0];
    if src.address.name in b.exchanges {
      ForcedDeclareReconciles(t, src);
      assert src.address.subjects == [k];
      RequestedIsBound(t, src, Binding(src.address.name, src.name, k, map[]));
      forall y | y in b.bindings && InPair(y, src) ensures y.key == k {
        assert y.key in BoundKeys(b.bindings, src);
      }
    }
  }

  /** A queue that is there keeps its arguments whatever a subscription declares. */
  lemma SubscribedKeepsQueues(t: Topology, src: Source, home: DeclareFaults, dead: DeclareFaults)
    ensures QueuesStay(t, Subscribed(t, src, home, dead).0)
  {
    var t1 := ExchangeDeclared(t, src.address, home.exchangeChannel, home.exchange).0;
    var t2 := QueueDeclared(t1, src, true, home.queueChannel, home.queue).0;
    var t3 := BindingDeclared(t2, src, true, home.bind).0;
    ExchangeKeepsQueues(t, src.address, home.exchangeChannel, home.exchange);
    QueueKeepsQueues(t1, src, true, home.queueChannel, home.queue);
    BindingKeepsQueues(t2, src, true, home.bind);
    if "DeadLetterAddress" in src.options {
      DeclaredKeepsQueues(t3, DeadLetterSource(src, src.options["DeadLetterAddress"]), true, dead);
    }
  }

  /** The subscription's own part: its queue is there with its arguments, and the dead letter exchange is known by now. */
  lemma HomeDeclared(t: Topology, src: Source) returns (t1: Topology)
    requires Consistent(t, src)
    ensures Consistent(t1, src) && src.name in t1.broker.queues && t1.broker.queues[src.name] == EffectiveQueue(t, src)
    ensures ExchangeAfter(t1, src.options["DeadLetterAddress"], TopicAddress) == DeadExchange(t, src)
    ensures Subscribed(t, src, NO_FAULTS, NO_FAULTS).0 == DeadLetterDeclared(t1, src, NO_FAULTS)
  {
    t1 := ExchangeDeclared(t, src.address, true, true).0;
    assert Consistent(t1, src) && ExchangeAfter(t1, src.options["DeadLetterAddress"], TopicAddress) == DeadExchange(t, src);
    t1 := QueueDeclared(t1, src, true, true, true).0;
    assert Consistent(t1, src) && src.name in t1.broker.queues && t1.broker.queues[src.name] == EffectiveQueue(t, src);
    t1 := BindingDeclared(t1, src, true, NO_BIND_FAULTS).0;
  }

  /** The dead letter part: everything the final binding needs is there. */
  lemma DeadDeclared(t: Topology, src: Source) returns (t1: Topology)
    requires Consistent(t, src)
    ensures var dead := DeadLetterSource(src, src.options["DeadLetterAddress"]);
      && At(t1.broker.exchanges, dead.address.name) == ExchangeAfter(t, dead.address.name, TopicAddress)
      && dead.name in t1.broker.queues
      && DeadLetterDeclared(t, src, NO_FAULTS) == BindingDeclared(t1, dead, true, NO_BIND_FAULTS).0
  {
    var dead := DeadLetterSource(src, src.options["DeadLetterAddress"]);
    t1 := ExchangeDeclared(t, dead.address, true, true).0;
    t1 := QueueDeclared(t1, dead, true, true, true).0;
  }

  /** What a subscription makes of its dead letter exchange, for a message routed with any key. */
  lemma SubscribedDelivery(t: Topology, src: Source, routed: string, headers: Table)
    requires Consistent(t, src)
    ensures var b, address := Subscribed(t, src, NO_FAULTS, NO_FAULTS).0.broker, src.options["DeadLetterAddress"];
      var dead := DeadLetterSource(src, address);
      && src.name in b.queues && b.queues[src.name] == EffectiveQueue(t, src) && dead.name in b.queues
      && At(b.exchanges, address) == DeadExchange(t, src)
      && (dead.name in Route(b, address, routed, headers) <==>
            Matches(DeadExchange(t, src), address, dead.name, DeadLetterSubject(src), routed, headers))
  {
    var dead := DeadLetterSource(src, src.options["DeadLetterAddress"]);
    var t1 := HomeDeclared(t, src);
    var t2 := DeadDeclared(t1, src);
    SubscribedKeepsQueues(t, src, NO_FAULTS, NO_FAULTS);
    DeadKeepsHome(t1, src);
    if dead.address.name != "" {
      OneKeyDelivery(t2, dead, routed, headers);
    }
  }

  lemma DeadKeepsHome(t: Topology, src: Source)
    requires "DeadLetterAddress" in src.options
    ensures QueuesStay(t, DeadLetterDeclared(t, src, NO_FAULTS))
  {
    DeclaredKeepsQueues(t, DeadLetterSource(src, src.options["DeadLetterAddress"]), true, NO_FAULTS);
  }

  // Exchanges other than the source's dead letter exchange.

  lemma BindingKeepsOthers(t: Topology, src: Source, f: BindFaults, exchange: string, queue: string)
    requires src.address.name != exchange || src.name != queue
    ensures Between(BindingDeclared(t, src, true, f).0, exchange, queue) == Between(t, exchange, queue)
  {
    DeclareIsLocal(t, src, true, f);
    assert forall y: Binding :: y.exchange == exchange && y.queue == queue ==> !InPair(y, src);
  }

  lemma ExchangeKeepsOthers(t: Topology, a: Address, exchange: string, queue: string)
    ensures var t1 := ExchangeDeclared(t, a, true, true).0;
      && Between(t1, exchange, queue) == Between(t, exchange, queue)
      && (a.name != exchange ==> At(t1.broker.exchanges, exchange) == At(t.broker.exchanges, exchange))
  {
  }

  lemma QueueKeepsOthers(t: Topology, src: Source, exchange: string, queue: string)
    ensures var t1 := QueueDeclared(t, src, true, true, true).0;
      Between(t1, exchange, queue) == Between(t, exchange, queue) && t1.broker.exchanges == t.broker.exchanges
  {
  }

  /** One declaration leaves another exchange's bindings to a queue alone, and creates no exchange but its own. */
  lemma DeclaredKeepsOthers(t: Topology, src: Source, exchange: string, queue: string)
    requires src.address.name != exchange || src.name != queue
    ensures var t1 := Declared(t, src, true, NO_FAULTS).0;
      && Between(t1, exchange, queue) == Between(t, exchange, queue)
      && (src.address.name != exchange ==> At(t1.broker.exchanges, exchange) == At(t.broker.exchanges, exchange))
  {
    var t1 := ExchangeDeclared(t, src.address, true, true).0;
    var t2 := QueueDeclared(t1, src, true, true, true).0;
    ExchangeKeepsOthers(t, src.address, exchange, queue);
    QueueKeepsOthers(t1, src, exchange, queue);
    BindingKeepsOthers(t2, src, NO_BIND_FAULTS, exchange, queue);
  }

  /** The declarations of a subscription are two in a row when nothing is refused. */
  lemma SubscribedIsTwo(t: Topology, src: Source) returns (t1: Topology)
    requires Consistent(t, src)
    ensures t1 == Declared(t, src, true, NO_FAULTS).0
    ensures Subscribed(t, src, NO_FAULTS, NO_FAULTS).0
      == Declared(t1, DeadLetterSource(src, src.options["DeadLetterAddress"]), true, NO_FAULTS).0
  {
    t1 := Declared(t, src, true, NO_FAULTS).0;
  }

  lemma HomeExchange(t: Topology, src: Source)
    requires Consistent(t, src)
    ensures At(Declared(t, src, true, NO_FAULTS).0.broker.exchanges, src.address.name)
      == ExchangeAfter(t, src.address.name, src.address.kind)
  {
  }

  /** What a subscription leaves of the way to its dead letter queue over another exchange. */
  lemma OtherExchangeStays(t: Topology, src: Source, exchange: string)
    requires Consistent(t, src) && exchange != src.options["DeadLetterAddress"] && exchange != ""
    ensures var t1 := Subscribed(t, src, NO_FAULTS, NO_FAULTS).0;
      && Between(t1, exchange, DeadLetterQueue(src)) == Between(t, exchange, DeadLetterQueue(src))
      && At(t1.broker.exchanges, exchange)
         == (if exchange == src.address.name then ExchangeAfter(t, exchange, src.address.kind) else At(t.broker.exchanges, exchange))
  {
    DeadLetterQueueIsAnother(src, "");
    var t1 := SubscribedIsTwo(t, src);
    DeclaredKeepsOthers(t, src, exchange, DeadLetterQueue(src));
    DeclaredKeepsOthers(t1, DeadLetterSource(src, src.options["DeadLetterAddress"]), exchange, DeadLetterQueue(src));
    HomeExchange(t, src);
  }

  lemma RouteBetween(t: Topology, exchange: string, queue: string, routed: string, headers: Table)
    requires exchange != "" && queue in t.broker.queues
    ensures queue in Route(t.broker, exchange, routed, headers) <==>
      (exchange in t.broker.exchanges
       && exists y :: y in Between(t, exchange, queue) && BindingMatches(t.broker.exchanges[exchange], y, routed, headers))
  {
  }

  /** Whatever has been declared before, what decides is the queue's own arguments and the subscription's binding. */
  lemma DeadLettersArrive(t: Topology, src: Source, q: Queue, key: string, headers: Table)
    requires Consistent(t, src)
    ensures var b := Subscribed(t, src, NO_FAULTS, NO_FAULTS).0.broker;
      DeadLetterQueue(src) in DeadLetterRoute(b, q, key, headers) <==> Arrives(t, src, q, key, headers)
  {
    if q.deadLetterExchange.Some? {
      var x, address := q.deadLetterExchange.value, src.options["DeadLetterAddress"];
      var routed := if q.deadLetterKey.Some? then q.deadLetterKey.value else key;
      assert DeadLetterSource(src, address).name == DeadLetterQueue(src);
      SubscribedDelivery(t, src, routed, headers);
      if x != address && x != "" {
        OtherExchangeStays(t, src, x);
        RouteBetween(Subscribed(t, src, NO_FAULTS, NO_FAULTS).0, x, DeadLetterQueue(src), routed, headers);
      }
    }
  }

  /**
   Which messages rejected from the queue of a subscription reach the dead letter queue it has set up. A queue that was
   there keeps its arguments: without a dead letter exchange among them nothing arrives. With the source's dead letter
   address, the queue's dead letter key, or else the message's own key, must match the binding under the source's dead
   letter subject or name, by the rules of whatever type the exchange has; for an empty address it must be the dead
   letter queue's name, and with an "amq." address that does not exist nothing arrives. With any other exchange only
   earlier bindings count.
   */
  lemma RejectedReachesDeadLetterQueue(t: Topology, src: Source, key: string, headers: Table)
    requires Consistent(t, src)
    ensures var b := Subscribed(t, src, NO_FAULTS, NO_FAULTS).0.broker;
      && src.name in b.queues
      && (DeadLetterQueue(src) in DeadLetterRoute(b, b.queues[src.name], key, headers)
          <==> Arrives(t, src, EffectiveQueue(t, src), key, headers))
  {
    SubscribedDelivery(t, src, key, headers);
    DeadLettersArrive(t, src, EffectiveQueue(t, src), key, headers);
  }

  /** With the source's own arguments and a topic exchange: iff there is a dead letter subject, or the key matches the name. */
  lemma TopicDeadLetters(t: Topology, src: Source, key: string, headers: Table)
    requires Consistent(t, src)
    ensures var b := Subscribed(t, src, NO_FAULTS, NO_FAULTS).0.broker;
      && src.name in b.queues
      && (DeadExchange(t, src) == Some(Topic) && src.options["DeadLetterAddress"] != ""
          && EffectiveQueue(t, src) == QueueArgs(src).value ==>
            (DeadLetterQueue(src) in DeadLetterRoute(b, b.queues[src.name], key, headers)
             <==> ("DeadLetterSubject" in src.options || TopicMatch(Words(src.name), Words(key)))))
  {
    RejectedReachesDeadLetterQueue(t, src, key, headers);
    TopicMatchesItself(Words(DeadLetterSubject(src)));
  }

  /**
   A message that came back from a delayed retry carries the queue's name as its key. From a queue with the source's
   arguments it reaches the dead letter queue iff the dead letter exchange exists; for the default exchange, iff the
   dead letter subject is that queue's name.
   */
  lemma RetriedReachesDeadLetterQueue(t: Topology, src: Source, headers: Table)
    requires Consistent(t, src)
    ensures var b, address := Subscribed(t, src, NO_FAULTS, NO_FAULTS).0.broker, src.options["DeadLetterAddress"];
      var reached := if address == "" then DeadLetterSubject(src) == DeadLetterQueue(src) else DeadExchange(t, src).Some?;
      && src.name in b.queues
      && (EffectiveQueue(t, src) == QueueArgs(src).value ==>
            (DeadLetterQueue(src) in DeadLetterRoute(b, b.queues[src.name], src.name, headers) <==> reached))
  {
    RejectedReachesDeadLetterQueue(t, src, src.name, headers);
    DeadLetterQueueIsAnother(src, "");
    OwnKeyMatches(DeadExchange(t, src), src.options["DeadLetterAddress"], DeadLetterQueue(src), DeadLetterSubject(src), headers);
  }

  /** A subject used as routing key matches its own binding, whatever the type of the exchange. */
  lemma OwnKeyMatches(exchange: Option<ExchangeType>, address: string, queue: string, subject: string, headers: Table)
    ensures Matches(exchange, address, queue, subject, subject, headers)
      <==> (if address == "" then subject == queue else exchange.Some?)
  {
    TopicMatchesItself(Words(subject));
  }

  /**
   Sources "q" and "q.quorum" share a dead letter queue. Whatever has been declared before, the one subscribed last
   decides: what is rejected from any queue with the same dead letter address must match its binding.
   */
  lemma LastSubscriptionDecides(t: Topology, home: string, last: Source, key: string, headers: Table)
    requires Consistent(t, last) && home in t.broker.queues
    requires t.broker.queues[home].deadLetterExchange == Some(last.options["DeadLetterAddress"])
    ensures var b, q := Subscribed(t, last, NO_FAULTS, NO_FAULTS).0.broker, t.broker.queues[home];
      var routed := if q.deadLetterKey.Some? then q.deadLetterKey.value else key;
      && home in b.queues
      && (DeadLetterQueue(last) in DeadLetterRoute(b, b.queues[home], key, headers)
          <==> Matches(DeadExchange(t, last), last.options["DeadLetterAddress"], DeadLetterQueue(last),
                       DeadLetterSubject(last), routed, headers))
  {
    SubscribedKeepsQueues(t, last, NO_FAULTS, NO_FAULTS);
    DeadLettersArrive(t, last, t.broker.queues[home], key, headers);
  }

  /** Two such sources. */
  lemma QuorumSharesDeadLetterQueue(src: Source, durable: Source, address: string)
    requires src.name == "q" && durable.name == "q.quorum"
    ensures DeadLetterSource(src, address).name == DeadLetterSource(durable, address).name == "q.dlq"
  {
    var d := durable.name;
    assert QUORUM <= QUORUM && QUORUM[|QUORUM|..] == "";
    assert d[0] != QUORUM[0] && d[1..] == QUORUM && ['q'] + "" == "q";
    assert RemoveFirst(d, QUORUM) == "q";
    assert "q"[1..] == "" && RemoveFirst("q", QUORUM) == "q";
  }

  const DEAD_LETTERED := Source("q", TemporarySource, Address("a", TopicAddress, []), false, false, false,
                             map["DeadLetterAddress" := "d"], [])

  const NOTHING := Topology(Broker(map[], map[], {}), {}, {}, {}, {})

  lemma NothingContradicts()
    ensures Consistent(NOTHING, DEAD_LETTERED) && DeadExchange(NOTHING, DEAD_LETTERED) == Some(Topic)
  {
    assert forall o :: o in DEAD_LETTERED.options ==> OptionOk(o, DEAD_LETTERED.options[o]);
    assert !Contains("d", "amq.");
  }

  lemma OneLetterWord(c: char)
    requires c != '.'
    ensures Words([c]) == [[c]]
  {
    assert "."[0] != [c][0];
    assert [c][1..] == "" && Split("", ".") == [""];
    assert [c] + "" == [c];
  }

  /** A message with the key "k" that is rejected from the queue "q" is dropped, although "q" has a dead letter address. */
  lemma ARejectedMessageIsDropped()
    ensures var b := Subscribed(NOTHING, DEAD_LETTERED, NO_FAULTS, NO_FAULTS).0.broker;
      && "q" in b.queues && b.queues["q"].deadLetterExchange == Some("d")
      && DeadLetterSource(DEAD_LETTERED, "d").name !in DeadLetterRoute(b, b.queues["q"], "k", map[])
  {
    NothingContradicts();
    OneLetterWord('q');
    OneLetterWord('k');
    assert !TopicMatch(["q"], ["k"]);
    TopicDeadLetters(NOTHING, DEAD_LETTERED, "k", map[]);
    SubscribedDelivery(NOTHING, DEAD_LETTERED, "k", map[]);
  }

  /**
   The subscription succeeds all the same when its queue was there before it was given a dead letter address. Nothing that
   is rejected from that queue ever arrives.
   */
  lemma OlderQueueDropsRejected(key: string)
    ensures var before := NOTHING.(broker := Broker(map[], map["q" := Queue("classic", None, None, None, None, false)], {}));
      var (t, ok) := Subscribed(before, DEAD_LETTERED, NO_FAULTS, NO_FAULTS);
      ok && "q" in t.broker.queues && DeadLetterRoute(t.broker, t.broker.queues["q"], key, map[]) == {}
  {
    var before := NOTHING.(broker := Broker(map[], map["q" := Queue("classic", None, None, None, None, false)], {}));
    NothingContradicts();
    assert Consistent(before, DEAD_LETTERED);
    SubscribedDelivery(before, DEAD_LETTERED, key, map[]);
  }
}
