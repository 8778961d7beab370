/**
 Dead letters over whole runs: once a subscription has set up its dead letter queue, which of the messages that are
 rejected later, by whatever path, the broker stores there.
 */
module DeadLetterRuns {
  import opened Amqp
  import opened Counters
  import opened DeadLetters
  import opened RetryTopology
  import opened Runs
  import opened Settlement
  import opened SettlementRuns
  import opened Text
  import opened Topology
  import opened Wrappers

  // The way from a home queue to a dead letter queue.

  /** The ends of the way: the dead letter exchange, the dead letter queue and the home queue. */
  datatype Ends = Ends(exchange: string, queue: string, home: string)

  /** What the broker has between them. */
  datatype Way = Way(
    exchange: Option<ExchangeType>,
    bindings: set<Binding>,
    waiting: set<Binding>,            // pending bind requests
    there: bool,                      // the dead letter queue
    home: Option<Queue>)

  function WayOf(t: Topology, e: Ends): Way {
    Way(At(t.broker.exchanges, e.exchange), Between(t, e.exchange, e.queue),
        (set y | y in t.pending && y.exchange == e.exchange && y.queue == e.queue),
        e.queue in t.broker.queues, At(t.broker.queues, e.home))
  }

  /** Nothing that is not about this exchange and this queue can change it. */
  predicate Settled(w: Way, e: Ends) {
    && w.waiting == {} && w.there && w.home.Some?
    && (w.exchange.None? ==> e.exchange == "" || Contains(e.exchange, "amq."))
  }

  /** A declaration for the same exchange and queue. */
  predicate SamePair(src: Source, e: Ends) { src.address.name == e.exchange && src.name == e.queue }

  lemma ExchangeKeepsWay(t: Topology, a: Address, channel: bool, accepted: bool, e: Ends)
    requires Settled(WayOf(t, e), e)
    ensures WayOf(ExchangeDeclared(t, a, channel, accepted).0, e) == WayOf(t, e)
  {
    var t1 := ExchangeDeclared(t, a, channel, accepted).0;
    assert Between(t1, e.exchange, e.queue) == Between(t, e.exchange, e.queue);
  }

  lemma QueueKeepsWay(t: Topology, src: Source, force: bool, channel: bool, accepted: bool, e: Ends)
    requires Settled(WayOf(t, e), e)
    ensures WayOf(QueueDeclared(t, src, force, channel, accepted).0, e) == WayOf(t, e)
  {
    var t1 := QueueDeclared(t, src, force, channel, accepted).0;
    assert Between(t1, e.exchange, e.queue) == Between(t, e.exchange, e.queue);
  }

  lemma BindingKeepsWay(t: Topology, src: Source, force: bool, f: BindFaults, e: Ends)
    requires !SamePair(src, e)
    ensures WayOf(BindingDeclared(t, src, force, f).0, e) == WayOf(t, e)
  {
    var t1 := BindingDeclared(t, src, force, f).0;
    DeclareIsLocal(t, src, force, f);
    assert forall y: Binding :: y.exchange == e.exchange && y.queue == e.queue ==> !InPair(y, src);
    assert Between(t1, e.exchange, e.queue) == Between(t, e.exchange, e.queue);
    assert WayOf(t1, e).waiting == WayOf(t, e).waiting;
  }

  lemma DeclaredKeepsWay(t: Topology, src: Source, force: bool, f: DeclareFaults, e: Ends)
    requires Settled(WayOf(t, e), e) && !SamePair(src, e)
    ensures WayOf(Declared(t, src, force, f).0, e) == WayOf(t, e)
  {
    var t1 := ExchangeDeclared(t, src.address, f.exchangeChannel, f.exchange).0;
    var t2 := QueueDeclared(t1, src, force, f.queueChannel, f.queue).0;
    ExchangeKeepsWay(t, src.address, f.exchangeChannel, f.exchange, e);
    QueueKeepsWay(t1, src, force, f.queueChannel, f.queue, e);
    BindingKeepsWay(t2, src, force, f.bind, e);
  }

  /** A subscription that declares neither its own nor its dead letter queue on this exchange under this name. */
  predicate Elsewhere(src: Source, e: Ends) {
    && !SamePair(src, e)
    && ("DeadLetterAddress" in src.options ==> !SamePair(DeadLetterSource(src, src.options["DeadLetterAddress"]), e))
  }

  lemma SubscribedKeepsWay(t: Topology, src: Source, home: DeclareFaults, dead: DeclareFaults, e: Ends)
    requires Settled(WayOf(t, e), e) && Elsewhere(src, e)
    ensures WayOf(Subscribed(t, src, home, dead).0, e) == WayOf(t, e)
  {
    var t1 := ExchangeDeclared(t, src.address, home.exchangeChannel, home.exchange).0;
    var t2 := QueueDeclared(t1, src, true, home.queueChannel, home.queue).0;
    var t3 := BindingDeclared(t2, src, true, home.bind).0;
    ExchangeKeepsWay(t, src.address, home.exchangeChannel, home.exchange, e);
    QueueKeepsWay(t1, src, true, home.queueChannel, home.queue, e);
    BindingKeepsWay(t2, src, true, home.bind, e);
    if "DeadLetterAddress" in src.options {
      DeclaredKeepsWay(t3, DeadLetterSource(src, src.options["DeadLetterAddress"]), true, dead, e);
    }
  }

  // Rejections.

  /** Whether a message with this key goes the way. */
  predicate GoesTheWay(w: Way, e: Ends, key: string) {
    && w.home.Some? && w.home.value.deadLetterExchange == Some(e.exchange)
    && var routed := if w.home.value.deadLetterKey.Some? then w.home.value.deadLetterKey.value else key;
    if e.exchange == "" then routed == e.queue && w.there
    else w.exchange.Some? && w.there && exists y :: y in w.bindings && BindingMatches(w.exchange.value, y, routed, map[])
  }

  lemma RouteFollowsWay(t: Topology, e: Ends, key: string)
    requires e.home in t.broker.queues && t.broker.queues[e.home].deadLetterExchange == Some(e.exchange)
    ensures e.queue in DeadLetterRoute(t.broker, t.broker.queues[e.home], key, map[]) <==> GoesTheWay(WayOf(t, e), e, key)
  {
    var q := t.broker.queues[e.home];
    var routed := if q.deadLetterKey.Some? then q.deadLetterKey.value else key;
    if e.exchange != "" && e.queue in t.broker.queues {
      RouteBetween(t, e.exchange, e.queue, routed, map[]);
    }
  }

  /** From one world to the other, every message rejected from the home queue was stored in the dead letter queue iff it goes the way. */
  ghost predicate BuriesRight(w: World, w1: World, way: Way, e: Ends) {
    && |w.buried| <= |w1.buried| && w1.buried[..|w.buried|] == w.buried
    && forall i :: |w.buried| <= i < |w1.buried| && w1.buried[i].home == e.home ==>
         (e.queue in w1.buried[i].queues <==> GoesTheWay(way, e, w1.buried[i].key))
  }

  /** The home queue dead-letters to the exchange. */
  predicate Leads(way: Way, e: Ends) { way.home.Some? && way.home.value.deadLetterExchange == Some(e.exchange) }

  lemma BuriesRightMore(w: World, w1: World, w2: World, way: Way, e: Ends)
    requires BuriesRight(w, w1, way, e) && BuriesRight(w1, w2, way, e)
    ensures BuriesRight(w, w2, way, e)
  {
    assert w2.buried[..|w.buried|] == w1.buried[..|w.buried|];
    forall i | |w.buried| <= i < |w2.buried| && w2.buried[i].home == e.home
      ensures e.queue in w2.buried[i].queues <==> GoesTheWay(way, e, w2.buried[i].key)
    {
      if i < |w1.buried| {
        assert w2.buried[i] == w2.buried[..|w1.buried|][i] == w1.buried[i];
      }
    }
  }

  lemma SettleBuries(w: World, a: Active, verb: Verb, ok: bool, e: Ends)
    requires Leads(WayOf(w.topo, e), e)
    ensures BuriesRight(w, Settle(w, a, verb, ok).0, WayOf(w.topo, e), e) && Settle(w, a, verb, ok).0.topo == w.topo
  {
    if a.copy in w.content && a.copy.queue == e.home {
      RouteFollowsWay(w.topo, e, w.content[a.copy].key);
    }
  }

  lemma CloseBuries(w: World, uuid: string, verb: Verb, ok: bool, e: Ends)
    requires uuid in w.active && Leads(WayOf(w.topo, e), e)
    ensures BuriesRight(w, Close(w, uuid, verb, ok).0, WayOf(w.topo, e), e) && Close(w, uuid, verb, ok).0.topo == w.topo
  {
    SettleBuries(w, w.active[uuid], verb, ok, e);
  }

  lemma NackBuries(w: World, uuid: string, f: Faults, e: Ends)
    requires Leads(WayOf(w.topo, e), e)
    ensures BuriesRight(w, Nack(w, uuid, f).0, WayOf(w.topo, e), e) && Nack(w, uuid, f).0.topo == w.topo
    ensures BuriesRight(w, DeadLetter(w, uuid, f).0, WayOf(w.topo, e), e) && DeadLetter(w, uuid, f).0.topo == w.topo
    ensures BuriesRight(w, Ack(w, uuid, f).0, WayOf(w.topo, e), e) && Ack(w, uuid, f).0.topo == w.topo
  {
    if f.client && uuid in w.active {
      CloseBuries(w, uuid, Rejected, f.settle, e);
      CloseBuries(w, uuid, Acked, f.settle, e);
    }
  }

  lemma RepublishBuries(w: World, n: string, key: string, uuid: string, f: Faults, e: Ends)
    requires uuid in w.active && Leads(WayOf(w.topo, e), e)
    ensures BuriesRight(w, Republish(w, n, key, uuid, f), WayOf(w.topo, e), e) && Republish(w, n, key, uuid, f).topo == w.topo
  {
    var a := w.active[uuid];
    var (w1, published) := Publish(w, n, key, a, f.publish);
    PublishTouchesNoRecord(w, n, key, a, f.publish);
    assert w1.topo == w.topo && w1.buried == w.buried;
    CloseBuries(w1, uuid, if published then Moved else RequeueVerb(w, a), f.settle, e);
  }

  /** Both ends of the way have names of their own. */
  ghost predicate Apart(e: Ends) { !IsRetryName(e.exchange) && !IsRetryName(e.queue) }

  lemma RetryBuries(w: World, src: Source, uuid: string, delay: nat, f: Faults, e: Ends)
    requires Settled(WayOf(w.topo, e), e) && Leads(WayOf(w.topo, e), e) && Apart(e) && IsDelay(delay)
    ensures var w1 := Retry(w, src, uuid, delay, f).0;
      BuriesRight(w, w1, WayOf(w.topo, e), e) && WayOf(w1.topo, e) == WayOf(w.topo, e)
  {
    if f.client && uuid in w.active && (w.retryChannel || f.channel) {
      var n, w1 := RetryName(src.address.name, delay), Prepared(w, src, delay, f);
      assert IsRetryName(n);
      DeclaredKeepsWay(w.topo, RetrySource(src.address.name, delay), false, f.declare, e);
      assert w1.buried == w.buried;
      RepublishBuries(w1, n, SourceName(src), uuid, f, e);
      BuriesRightMore(w, w1, Republish(w1, n, SourceName(src), uuid, f), WayOf(w.topo, e), e);
    }
  }

  lemma DispatchBuries(w: World, src: Source, req: AckRequest, f: Faults, e: Ends)
    requires Settled(WayOf(w.topo, e), e) && Leads(WayOf(w.topo, e), e) && Apart(e) && req.delay < TWO_31
    ensures var w1 := Dispatch(w, src, req, f).0;
      BuriesRight(w, w1, WayOf(w.topo, e), e) && WayOf(w1.topo, e) == WayOf(w.topo, e)
  {
    if req.uuid == "" {
    } else if req.nack && req.delay > 0 {
      var w1 := Retry(w, src, req.uuid, req.delay, f).0;
      RetryBuries(w, src, req.uuid, req.delay, f, e);
      NackBuries(w1, req.uuid, f, e);
      BuriesRightMore(w, w1, Nack(w1, req.uuid, f).0, WayOf(w.topo, e), e);
    } else if req.nack {
      var w1 := DeadLetter(w, req.uuid, f).0;
      NackBuries(w, req.uuid, f, e);
      NackBuries(w1, req.uuid, f, e);
      BuriesRightMore(w, w1, Nack(w1, req.uuid, f).0, WayOf(w.topo, e), e);
    } else {
      NackBuries(w, req.uuid, f, e);
    }
  }

  lemma DeliverBuries(w: World, c: Copy, uuid: string, ok: bool, e: Ends)
    requires c in w.content && Leads(WayOf(w.topo, e), e)
    ensures BuriesRight(w, Delivered(w, c, uuid, ok), WayOf(w.topo, e), e) && Delivered(w, c, uuid, ok).topo == w.topo
  {
    var w1 := HandedOut(w, c, uuid);
    assert w1.topo == w.topo && w1.buried == w.buried;
    SettleBuries(w1, ActiveOf(w, c), Rejected, ok, e);
  }

  // Runs.

  /** Later subscriptions and other clients leave the way alone. */
  ghost predicate Spares(w: World, ev: Event, e: Ends) {
    match ev
    case Subscribe(src, _, _) => Elsewhere(Subscribing(src), e)
    case Foreign(b) => WayOf(w.topo.(broker := b), e) == WayOf(w.topo, e)
    case _ => true
  }

  ghost predicate AllSpare(w: World, es: seq<Event>, e: Ends)
    decreases |es|
  {
    es == [] || (Spares(w, es[0], e) && (Step(w, es[0]).Some? ==> AllSpare(Step(w, es[0]).value, es[1..], e)))
  }

  lemma InEffectKeepsWay(t: Topology, x: Binding, e: Ends)
    requires x in t.pending && WayOf(t, e).waiting == {}
    ensures WayOf(InEffect(t, x), e) == WayOf(t, e)
  {
    var t1 := InEffect(t, x);
    assert !(x.exchange == e.exchange && x.queue == e.queue) by {
      assert x !in WayOf(t, e).waiting;
    }
    assert Between(t1, e.exchange, e.queue) == Between(t, e.exchange, e.queue);
    assert WayOf(t1, e).waiting == WayOf(t, e).waiting;
  }

  lemma StepBuries(w: World, ev: Event, e: Ends)
    requires Settled(WayOf(w.topo, e), e) && Leads(WayOf(w.topo, e), e) && Apart(e)
    requires Step(w, ev).Some? && Spares(w, ev, e)
    ensures var w1 := Step(w, ev).value;
      BuriesRight(w, w1, WayOf(w.topo, e), e) && WayOf(w1.topo, e) == WayOf(w.topo, e)
  {
    match ev
    case Subscribe(src, home, dead) => SubscribedKeepsWay(w.topo, Subscribing(src), home, dead, e);
    case TakesEffect(x) => InEffectKeepsWay(w.topo, x, e);
    case Deliver(c, uuid, ok) => DeliverBuries(w, c, uuid, ok, e);
    case Request(src, req, f) => DispatchBuries(w, src, req, f, e);
    case _ =>
  }

  lemma {:induction false} RunBuries(w: World, es: seq<Event>, e: Ends)
    requires Settled(WayOf(w.topo, e), e) && Leads(WayOf(w.topo, e), e) && Apart(e)
    requires Exec(Step, w, es).Some? && AllSpare(w, es, e)
    ensures BuriesRight(w, Exec(Step, w, es).value, WayOf(w.topo, e), e)
    decreases |es|
  {
    if es != [] {
      var w1 := Step(w, es[0]).value;
      StepBuries(w, es[0], e);
      RunBuries(w1, es[1..], e);
      BuriesRightMore(w, w1, Exec(Step, w1, es[1..]).value, WayOf(w.topo, e), e);
    }
  }

  /**
   Over every run: after a subscription on an accepting broker, as long as no other subscription or client touches the way
   to its dead letter queue, each message rejected from its queue, by a nack, by a failed retry or by the cap, is stored in
   the dead letter queue if and only if its routing key, or the queue's dead letter key, matches.
   */
  lemma RejectionsOverRuns(w: World, src: Source, es: seq<Event>, i: nat)
    requires Consistent(w.topo, src) && Apart(EndsOf(src))
    requires forall y :: y in w.topo.pending ==> !(y.exchange == EndsOf(src).exchange && y.queue == EndsOf(src).queue)
    requires EffectiveQueue(w.topo, src).deadLetterExchange == Some(src.options["DeadLetterAddress"])
    requires var w1 := w.(topo := Subscribed(w.topo, src, NO_FAULTS, NO_FAULTS).0);
      Exec(Step, w1, es).Some? && AllSpare(w1, es, EndsOf(src))
    requires var end := Exec(Step, w.(topo := Subscribed(w.topo, src, NO_FAULTS, NO_FAULTS).0), es).value;
      |w.buried| <= i < |end.buried| && end.buried[i].home == src.name
    ensures var b := Exec(Step, w.(topo := Subscribed(w.topo, src, NO_FAULTS, NO_FAULTS).0), es).value.buried[i];
      DeadLetterQueue(src) in b.queues <==> Arrives(w.topo, src, EffectiveQueue(w.topo, src), b.key, map[])
  {
    var e, t1 := EndsOf(src), Subscribed(w.topo, src, NO_FAULTS, NO_FAULTS).0;
    var w1 := w.(topo := t1);
    SubscribedIsSettled(w.topo, src);
    RunBuries(w1, es, e);
    var b := Exec(Step, w1, es).value.buried[i];
    RouteFollowsWay(t1, e, b.key);
    DeadLettersArrive(w.topo, src, EffectiveQueue(w.topo, src), b.key, map[]);
  }

  function EndsOf(src: Source): Ends
    requires "DeadLetterAddress" in src.options
  {
    Ends(src.options["DeadLetterAddress"], DeadLetterQueue(src), src.name)
  }

  lemma SubscribedIsSettled(t: Topology, src: Source)
    requires Consistent(t, src)
    requires forall y :: y in t.pending ==> !(y.exchange == EndsOf(src).exchange && y.queue == EndsOf(src).queue)
    requires EffectiveQueue(t, src).deadLetterExchange == Some(src.options["DeadLetterAddress"])
    ensures var t1 := Subscribed(t, src, NO_FAULTS, NO_FAULTS).0;
      && Settled(WayOf(t1, EndsOf(src)), EndsOf(src)) && Leads(WayOf(t1, EndsOf(src)), EndsOf(src))
      && src.name in t1.broker.queues && t1.broker.queues[src.name] == EffectiveQueue(t, src)
  {
    var t1 := Subscribed(t, src, NO_FAULTS, NO_FAULTS).0;
    SubscribedDelivery(t, src, "", map[]);
    SubscribedLeavesNothingPending(t, src);
    assert WayOf(t1, EndsOf(src)).waiting == {};
  }

  lemma SubscribedLeavesNothingPending(t: Topology, src: Source)
    requires Consistent(t, src)
    ensures Subscribed(t, src, NO_FAULTS, NO_FAULTS).0.pending == t.pending
  {
    var t1 := SubscribedIsTwo(t, src);
    DeclaredLeavesNothingPending(t, src);
    DeclaredLeavesNothingPending(t1, DeadLetterSource(src, src.options["DeadLetterAddress"]));
  }

  lemma DeclaredLeavesNothingPending(t: Topology, src: Source)
    ensures Declared(t, src, true, NO_FAULTS).0.pending == t.pending
  {
    var t1 := ExchangeDeclared(t, src.address, true, true).0;
    assert t1.pending == t.pending;
    var t2 := QueueDeclared(t1, src, true, true, true).0;
    assert t2.pending == t.pending;
  }
}
