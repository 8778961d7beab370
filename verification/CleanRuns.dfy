/** The conservation results told from the events of a run alone: what arrived, and runs in which the broker plays along. */
module CleanRuns {
  import opened Amqp
  import opened Conservation
  import opened Counters
  import opened RetryTopology
  import opened Runs
  import opened Settlement
  import opened SettlementRuns
  import opened Topology
  import opened Wrappers

  // Arrivals.

  function Arrivals(es: seq<Event>): nat {
    if es == [] then 0 else (if es[0].Arrive? then 1 else 0) + Arrivals(es[1..])
  }

  lemma StepCountsArrivals(w: World, e: Event)
    requires Numbered(w) && Step(w, e).Some?
    ensures |Step(w, e).value.arrived| == |w.arrived| + if e.Arrive? then 1 else 0
  {
    if e.Arrive? {
      assert w.nextPublication !in w.arrived;
    } else {
      StepHistory(w, e);
    }
  }

  lemma {:induction false} RunCountsArrivals(w: World, es: seq<Event>)
    requires Inv(w) && Exec(Step, w, es).Some?
    ensures |Exec(Step, w, es).value.arrived| == |w.arrived| + Arrivals(es)
    decreases |es|
  {
    if es != [] {
      StepCountsArrivals(w, es[0]);
      StepKeeps(w, es[0]);
      RunCountsArrivals(Step(w, es[0]).value, es[1..]);
    }
  }

  /** In every run each message that arrives is one more, in its queue as it was published, and nothing else is touched. */
  lemma ArrivalAddsOne(w0: World, es: seq<Event>, w: World, queue: string, key: string, retries: HeaderValue)
    requires Reaches(w0, es, w) && Step(w, Arrive(queue, key, retries)).Some?
    ensures |w.arrived| == Arrivals(es)
    ensures var w1 := Step(w, Arrive(queue, key, retries)).value;
      exists lid, c ::
        && lid !in w.arrived && w1.arrived == w.arrived + {lid} && c !in w.content && c.queue == queue
        && w1.content == w.content[c := Held(lid, queue, key, 0, 0, retries, Trail(retries, 0), None)]
        && w1.finished == w.finished && w1.topo == w.topo && w1.active == w.active
  {
    InitialHolds(w0);
    RunKeeps(w0, es);
    RunCountsArrivals(w0, es);
    var w1, lid := Step(w, Arrive(queue, key, retries)).value, w.nextPublication;
    StoredOnce(w, queue, Arrived(lid, queue, key, retries));
    var c := Copy(lid, queue);
    assert c !in w.content && lid !in w.arrived;
    assert w1.content == w.content[c := Held(lid, queue, key, 0, 0, retries, Trail(retries, 0), None)];
  }

  // Runs in which no request of a dispatch is refused, late or left in doubt, and no subscription loses its channel.

  predicate Clean(e: Event) {
    && !e.ChannelClosed?
    && (e.Request? ==> Accepting(e.f.declare) && e.f.settle && e.f.publish != Unconfirmed(true))
  }

  /** The broker waits for every delivery the client still has. */
  predicate AllOutstanding(w: World) {
    forall u :: u in w.active ==> Outstanding(w, w.active[u])
  }

  predicate Untroubled(w: World) { AllOutstanding(w) && !w.hindered && !w.doubtful }

  lemma CloseIsClean(w: World, uuid: string, verb: Verb)
    requires ActiveTags(w) && AllOutstanding(w) && uuid in w.active
    ensures var (w1, done) := Close(w, uuid, verb, true);
      done && AllOutstanding(w1) && w1.hindered == w.hindered && w1.doubtful == w.doubtful
  {
    var a, w1 := w.active[uuid], Close(w, uuid, verb, true).0;
    forall u | u in w1.active ensures Outstanding(w1, w1.active[u]) {
      assert Outstanding(w, w.active[u]) && w.active[u].tag != a.tag;
      assert w.active[u].copy != a.copy;
    }
  }

  /** New copies disturb no delivery. */
  lemma StoredIsClean(w: World, queues: set<string>, m: Held)
    requires Linked(w) && AllOutstanding(w)
    ensures AllOutstanding(Stored(w, queues, m))
  {
    forall u | u in w.active ensures Outstanding(Stored(w, queues, m), w.active[u]) {
      assert LinkedTo(w, w.active[u]);
    }
  }

  lemma RepublishIsClean(w: World, n: string, key: string, uuid: string, f: Faults)
    requires ActiveTags(w) && Linked(w) && AllOutstanding(w) && uuid in w.active
    requires f.settle && f.publish != Unconfirmed(true)
    ensures var w1 := Republish(w, n, key, uuid, f);
      AllOutstanding(w1) && w1.hindered == w.hindered && w1.doubtful == w.doubtful
  {
    var a := w.active[uuid];
    var (w1, published) := Publish(w, n, key, a, f.publish);
    StoredIsClean(w, Route(w.topo.broker, n, key, map[]), Republished(a, key));
    PublishTouchesNoRecord(w, n, key, a, f.publish);
    assert ActiveTags(w1) && AllOutstanding(w1) && w1.hindered == w.hindered && w1.doubtful == w.doubtful;
    CloseIsClean(w1, uuid, if published then Moved else RequeueVerb(w, a));
  }

  lemma NackIsClean(w: World, uuid: string, f: Faults)
    requires ActiveTags(w) && Untroubled(w) && f.settle
    ensures Untroubled(Nack(w, uuid, f).0)
  {
    if f.client && uuid in w.active {
      CloseIsClean(w, uuid, Rejected);
    }
  }

  lemma RetryIsClean(w: World, src: Source, uuid: string, delay: nat, f: Faults)
    requires Inv(w) && Untroubled(w) && IsDelay(delay)
    requires Accepting(f.declare) && f.settle && f.publish != Unconfirmed(true)
    ensures var (w1, ok) := Retry(w, src, uuid, delay, f);
      Untroubled(w1) && (!ok ==> ActiveTags(w1))
  {
    if f.client && uuid in w.active && (w.retryChannel || f.channel) {
      var w1 := Prepared(w, src, delay, f);
      PreparedKeeps(w, src, delay, f);
      assert w1.content == w.content && w1.active == w.active;
      assert AllOutstanding(w1);
      RepublishIsClean(w1, RetryName(src.address.name, delay), SourceName(src), uuid, f);
    }
  }

  lemma DispatchIsClean(w: World, src: Source, req: AckRequest, f: Faults)
    requires Inv(w) && Untroubled(w) && req.delay < TWO_31
    requires Accepting(f.declare) && f.settle && f.publish != Unconfirmed(true)
    ensures Untroubled(Dispatch(w, src, req, f).0)
  {
    if req.uuid == "" {
    } else if req.nack && req.delay > 0 {
      RetryIsClean(w, src, req.uuid, req.delay, f);
      if !Retry(w, src, req.uuid, req.delay, f).1 {
        NackIsClean(Retry(w, src, req.uuid, req.delay, f).0, req.uuid, f);
      }
    } else if req.nack {
      NackIsClean(w, req.uuid, f);
    } else if f.client && req.uuid in w.active {
      CloseIsClean(w, req.uuid, Acked);
    }
  }

  /** A message that waits in its queue is no delivery of the client's, so handing it out disturbs none. */
  lemma HandedOutIsClean(w: World, c: Copy, uuid: string)
    requires AllOutstanding(w) && c in w.content && w.content[c].unacked.None?
    ensures AllOutstanding(HandedOut(w, c, uuid)) && forall u :: u in w.active ==> w.active[u].copy != c
  {
    var w1 := HandedOut(w, c, uuid);
    forall u | u in w.active ensures w.active[u].copy != c && Outstanding(w1, w1.active[u]) {
      assert Outstanding(w, w.active[u]);
    }
  }

  lemma ActivateIsClean(w: World, uuid: string, a: Active)
    requires AllOutstanding(w) && Outstanding(w, a)
    ensures AllOutstanding(w.(active := w.active[uuid := a]))
  {
    var w1 := w.(active := w.active[uuid := a]);
    forall u | u in w1.active ensures Outstanding(w1, w1.active[u]) {
      if u != uuid {
        assert Outstanding(w, w.active[u]);
      }
    }
  }

  lemma DeliverIsClean(w: World, c: Copy, uuid: string, ok: bool)
    requires Inv(w) && Untroubled(w) && Step(w, Deliver(c, uuid, ok)).Some?
    ensures Untroubled(Step(w, Deliver(c, uuid, ok)).value)
  {
    HandedOutIsClean(w, c, uuid);
    var a, w1 := ActiveOf(w, c), HandedOut(w, c, uuid);
    if MaxHit(a.acquired, w.cap) {
      SettleIsClean(w1, a, ok);
    } else {
      ActivateIsClean(w1, uuid, a);
    }
  }

  lemma SettleIsClean(w: World, a: Active, ok: bool)
    requires Untroubled(w) && forall u :: u in w.active ==> w.active[u].copy != a.copy
    ensures Untroubled(Settle(w, a, Rejected, ok).0)
  {
    var w1 := Settle(w, a, Rejected, ok).0;
    forall u | u in w1.active ensures Outstanding(w1, w1.active[u]) {
      assert Outstanding(w, w.active[u]);
    }
  }

  lemma ExpireIsClean(w: World, c: Copy)
    requires Inv(w) && Untroubled(w) && Step(w, Expire(c)).Some?
    ensures Untroubled(Step(w, Expire(c)).value)
  {
    var m, w1 := w.content[c], w.(content := w.content - {c});
    forall u | u in w.active ensures Outstanding(w1, w1.active[u]) {
      assert Outstanding(w, w.active[u]);
    }
    RemovedKeeps(w, c);
    StoredIsClean(w1, DeadLetterRoute(w.topo.broker, w.topo.broker.queues[c.queue], m.key, map[]),
                  m.(acquired := 0, delivered := 0));
  }

  lemma StepIsClean(w: World, e: Event)
    requires Inv(w) && Untroubled(w) && Clean(e) && Step(w, e).Some?
    ensures Untroubled(Step(w, e).value)
  {
    match e
    case Arrive(q, key, retries) => StoredIsClean(w, {q}, Arrived(w.nextPublication, q, key, retries));
    case Deliver(c, uuid, ok) => DeliverIsClean(w, c, uuid, ok);
    case Request(src, req, f) => DispatchIsClean(w, src, req, f);
    case Expire(c) => ExpireIsClean(w, c);
    case _ =>
  }

  lemma {:induction false} RunIsClean(w: World, es: seq<Event>)
    requires Inv(w) && Untroubled(w) && Exec(Step, w, es).Some? && forall i :: 0 <= i < |es| ==> Clean(es[i])
    ensures Untroubled(Exec(Step, w, es).value)
    decreases |es|
  {
    if es != [] {
      StepIsClean(w, es[0]);
      StepKeeps(w, es[0]);
      RunIsClean(Step(w, es[0]).value, es[1..]);
    }
  }

  /**
   In every run in which the declarations and settlements of requests are not refused, late or left in doubt, and no
   subscription loses its channel, though the client may lose its connection and single bindings of subscriptions may be
   refused: all that arrived is in exactly one place each, and the broker waits for every delivery the client has.
   */
  lemma CleanRunsConserve(w0: World, es: seq<Event>, w: World, lid: nat)
    requires Reaches(w0, es, w) && forall i :: 0 <= i < |es| ==> Clean(es[i])
    ensures |w.arrived| == Arrivals(es)
    ensures forall u :: u in w.active ==> Outstanding(w, w.active[u])
    ensures lid in w.arrived ==> (lid in w.finished <==> !Present(w, lid))
    ensures lid in w.arrived ==>
      && (forall c, d :: c in w.content && d in w.content && w.content[c].lid == w.content[d].lid == lid ==> c == d)
      && (forall c :: c in w.content && w.content[c].lid == lid ==> InPlace(w, c, w.content[c]))
  {
    InitialHolds(w0);
    RunIsClean(w0, es);
    RunCountsArrivals(w0, es);
    if lid in w.arrived {
      ExactlyOnePlace(w0, es, w, lid);
    }
  }

  // A reconnect clears the client's records of what it has declared, and with them what was wrong in them.

  /** The declarations of a request's retry, if any, are not refused or late. */
  predicate DeclaresWell(e: Event) { e.Request? ==> Accepting(e.f.declare) }

  function Forgiven(w: World): World { w.(hindered := false) }

  lemma CloseForgives(w: World, uuid: string, verb: Verb, ok: bool)
    requires uuid in w.active
    ensures Close(Forgiven(w), uuid, verb, ok) == (Forgiven(Close(w, uuid, verb, ok).0), Close(w, uuid, verb, ok).1)
  {
  }

  lemma NackForgives(w: World, uuid: string, f: Faults)
    ensures Nack(Forgiven(w), uuid, f) == (Forgiven(Nack(w, uuid, f).0), Nack(w, uuid, f).1)
  {
    if f.client && uuid in w.active {
      CloseForgives(w, uuid, Rejected, f.settle);
    }
  }

  lemma RepublishForgives(w: World, n: string, key: string, uuid: string, f: Faults)
    requires uuid in w.active
    ensures Republish(Forgiven(w), n, key, uuid, f) == Forgiven(Republish(w, n, key, uuid, f))
  {
    var a := w.active[uuid];
    var (w1, published) := Publish(w, n, key, a, f.publish);
    assert Publish(Forgiven(w), n, key, a, f.publish) == (Forgiven(w1), published);
    CloseForgives(w1, uuid, if published then Moved else RequeueVerb(w, a), f.settle);
  }

  lemma RetryForgives(w: World, src: Source, uuid: string, delay: nat, f: Faults)
    requires Accepting(f.declare)
    ensures Retry(Forgiven(w), src, uuid, delay, f)
      == (Forgiven(Retry(w, src, uuid, delay, f).0), Retry(w, src, uuid, delay, f).1)
  {
    if f.client && uuid in w.active && (w.retryChannel || f.channel) {
      var w1 := Prepared(w, src, delay, f);
      assert Prepared(Forgiven(w), src, delay, f) == Forgiven(w1);
      RepublishForgives(w1, RetryName(src.address.name, delay), SourceName(src), uuid, f);
    }
  }

  lemma DispatchForgives(w: World, src: Source, req: AckRequest, f: Faults)
    requires Accepting(f.declare)
    ensures Dispatch(Forgiven(w), src, req, f) == (Forgiven(Dispatch(w, src, req, f).0), Dispatch(w, src, req, f).1)
  {
    if req.uuid == "" {
    } else if req.nack && req.delay > 0 {
      RetryForgives(w, src, req.uuid, req.delay, f);
      NackForgives(Retry(w, src, req.uuid, req.delay, f).0, req.uuid, f);
    } else if req.nack {
      NackForgives(w, req.uuid, f);
    } else if f.client && req.uuid in w.active {
      CloseForgives(w, req.uuid, Acked, f.settle);
    }
  }

  /** The record of earlier trouble has no influence on a run. */
  lemma StepForgives(w: World, e: Event)
    requires DeclaresWell(e) && Step(w, e).Some?
    ensures Step(Forgiven(w), e) == Some(Forgiven(Step(w, e).value))
  {
    match e
    case Request(src, req, f) => DispatchForgives(w, src, req, f);
    case _ =>
  }

  /** From a state whose records are true, what is accounted for stays so, and so is what arrives. */
  lemma {:induction false} HealedRun(w: World, es: seq<Event>, lid: nat)
    requires Inv(Forgiven(w)) && Exec(Step, w, es).Some? && forall i :: 0 <= i < |es| ==> DeclaresWell(es[i])
    requires Accounted(w, lid) || lid !in w.arrived
    ensures lid in Exec(Step, w, es).value.arrived ==> Accounted(Exec(Step, w, es).value, lid)
    decreases |es|
  {
    if es != [] {
      var w1 := Step(w, es[0]).value;
      StepForgives(w, es[0]);
      assert Accounted(Forgiven(w), lid) == Accounted(w, lid);
      StepAccounts(Forgiven(w), es[0], lid);
      StepKeeps(Forgiven(w), es[0]);
      assert Accounted(Forgiven(w1), lid) == Accounted(w1, lid);
      HealedRun(w1, es[1..], lid);
    }
  }

  /** Only the truth of the client's records depends on whether there was trouble. */
  lemma ForgivenKeeps(w: World)
    requires Inv(w) && AllRemembered(w.topo)
    ensures Inv(Forgiven(w))
  {
    var w1 := Forgiven(w);
    forall c | c in w1.content ensures InPlace(w1, c, w1.content[c]) {
      assert InPlace(w, c, w.content[c]);
    }
    forall u | u in w1.active ensures LinkedTo(w1, w1.active[u]) {
      assert LinkedTo(w, w.active[u]);
    }
  }

  lemma ReconnectedIsHealed(w: World)
    requires Inv(w)
    ensures Inv(Forgiven(Reconnecting(w))) && SameMessages(w, Reconnecting(w)) && Reconnecting(w).arrived == w.arrived
  {
    ReconnectedKeeps(w);
    ForgottenIsRemembered(w.topo);
    ForgivenKeeps(Reconnecting(w));
  }

  /**
   Whatever was refused or late before a reconnect: from then on no message is lost any more as long as the declarations
   of later retries are neither, since the client remembers nothing and declares everything again.
   */
  lemma ReconnectHeals(w0: World, es: seq<Event>, w: World, w1: World, later: seq<Event>, end: World, lid: nat)
    requires Reaches(w0, es, w) && Step(w, Reconnected) == Some(w1) && Exec(Step, w1, later) == Some(end)
    requires forall i :: 0 <= i < |later| ==> DeclaresWell(later[i])
    requires Accounted(w, lid) || lid !in w.arrived
    ensures lid in end.arrived ==> Accounted(end, lid)
  {
    InitialHolds(w0);
    RunKeeps(w0, es);
    assert w1 == Reconnecting(w);
    HealedByReconnect(w, w1, later, lid);
  }

  lemma HealedByReconnect(w: World, w1: World, later: seq<Event>, lid: nat)
    requires Inv(w) && w1 == Reconnecting(w) && Exec(Step, w1, later).Some?
    requires forall i :: 0 <= i < |later| ==> DeclaresWell(later[i])
    requires Accounted(w, lid) || lid !in w.arrived
    ensures lid in Exec(Step, w1, later).value.arrived ==> Accounted(Exec(Step, w1, later).value, lid)
  {
    ReconnectedIsHealed(w);
    SameMessagesConserved(w, w1, lid);
    HealedRun(w1, later, lid);
  }

  /** A late bind request that takes effect becomes a binding, and nothing else changes. */
  lemma LateBindTakesEffect(w: World, x: Binding)
    requires Step(w, TakesEffect(x)).Some?
    ensures var w1 := Step(w, TakesEffect(x)).value; var t, t1 := w.topo, w1.topo;
      && x in t.pending && x in t1.broker.bindings && x !in t1.pending
      && t1.broker.bindings + t1.pending == t.broker.bindings + t.pending && t.broker.bindings <= t1.broker.bindings
      && w1 == w.(topo := t.(broker := t.broker.(bindings := t1.broker.bindings), pending := t.pending - {x}))
  {
  }

  // What a delayed retry publishes.

  lemma StoredCopies(w: World, queues: set<string>, m: Held, c: Copy)
    requires c in Stored(w, queues, m).content && c !in w.content
    ensures Stored(w, queues, m).content[c] == m
  {
  }

  lemma CloseAddsNothing(w: World, uuid: string, verb: Verb, ok: bool, c: Copy)
    requires uuid in w.active && c in Close(w, uuid, verb, ok).0.content
    ensures c in w.content && (w.content[c].unacked.None? ==> Close(w, uuid, verb, ok).0.content[c] == w.content[c])
  {
  }

  lemma RepublishAdds(w: World, n: string, key: string, uuid: string, f: Faults, c: Copy)
    requires uuid in w.active && c !in w.content && c in Republish(w, n, key, uuid, f).content
    ensures Republish(w, n, key, uuid, f).content[c] == Republished(w.active[uuid], key)
  {
    var a := w.active[uuid];
    var (w1, published) := Publish(w, n, key, a, f.publish);
    CloseAddsNothing(w1, uuid, if published then Moved else RequeueVerb(w, a), f.settle, c);
    StoredCopies(w, Route(w.topo.broker, n, key, map[]), Republished(a, key), c);
  }

  lemma RetryAdds(w: World, src: Source, uuid: string, delay: nat, f: Faults, c: Copy)
    requires c !in w.content && c in Retry(w, src, uuid, delay, f).0.content
    ensures uuid in w.active
    ensures Retry(w, src, uuid, delay, f).0.content[c] == Republished(w.active[uuid], SourceName(src))
  {
    var mid := Prepared(w, src, delay, f);
    assert mid.content == w.content && mid.active == w.active;
    RepublishAdds(mid, RetryName(src.address.name, delay), SourceName(src), uuid, f, c);
  }

  lemma NackAddsNothing(w: World, uuid: string, f: Faults, c: Copy)
    requires c in Nack(w, uuid, f).0.content
    ensures c in w.content
  {
    if f.client && uuid in w.active {
      CloseAddsNothing(w, uuid, Rejected, f.settle, c);
    }
  }

  lemma RetryDispatchAdds(w: World, src: Source, uuid: string, delay: nat, f: Faults, c: Copy)
    requires delay > 0 && c !in w.content && c in Dispatch(w, src, AckRequest(uuid, true, delay), f).0.content
    ensures uuid in w.active
    ensures Dispatch(w, src, AckRequest(uuid, true, delay), f).0.content[c] == Republished(w.active[uuid], SourceName(src))
  {
    var (w1, ok) := Retry(w, src, uuid, delay, f);
    if ok {
      RetryAdds(w, src, uuid, delay, f, c);
    } else if uuid != "" {
      NackAddsNothing(w1, uuid, f, c);
    }
  }

  /** An ack and an undelayed nack add none. */
  lemma PlainDispatchAddsNothing(w: World, src: Source, req: AckRequest, f: Faults, c: Copy)
    requires !(req.nack && req.delay > 0) && c in Dispatch(w, src, req, f).0.content
    ensures c in w.content
  {
    if req.uuid == "" {
    } else if req.nack {
      NackAddsNothing(w, req.uuid, f, c);
    } else if f.client && req.uuid in w.active {
      CloseAddsNothing(w, req.uuid, Acked, f.settle, c);
    }
  }

  /**
   A dispatch adds no message but what a delayed retry publishes again: the same message with its home, the name of its
   queue as routing key, a retry count one higher, and nothing of its deliveries.
   */
  lemma RetriedCopyIsFresh(w: World, src: Source, uuid: string, delay: nat, f: Faults, c: Copy)
    requires delay > 0 && c !in w.content && c in Dispatch(w, src, AckRequest(uuid, true, delay), f).0.content
    ensures uuid in w.active
    ensures var a, m := w.active[uuid], Dispatch(w, src, AckRequest(uuid, true, delay), f).0.content[c];
      && m.lid == a.lid && m.home == a.home && m.key == SourceName(src) && m.unacked.None?
      && m.retries == BumpedTimes(a.retries, 1) && m.trail == Trail(a.trail.first, a.trail.hops + 1)
      && m.acquired == m.delivered == 0
  {
    RetryDispatchAdds(w, src, uuid, delay, f, c);
    assert BumpedTimes(w.active[uuid].retries, 0) == w.active[uuid].retries;
  }

  /** A request for a delayed retry that gets as far as asking for the retry channel. */
  predicate OpensRetryChannel(w: World, e: Event) {
    && e.Request? && e.req.nack && e.req.delay > 0 && e.req.uuid != "" && e.req.uuid in w.active
    && e.f.client && e.f.channel
  }

  /** The retry channel is opened by the first delayed retry that can have one, and kept until the next reconnect. */
  lemma RetryChannelIsKept(w: World, e: Event)
    requires Step(w, e).Some?
    ensures Step(w, e).value.retryChannel <==> !e.Reconnected? && (w.retryChannel || OpensRetryChannel(w, e))
  {
    match e
    case Request(src, req, f) => DispatchKeepsChannel(w, src, req, f);
    case _ =>
  }

  lemma CloseKeepsChannel(w: World, uuid: string, verb: Verb, ok: bool)
    requires uuid in w.active
    ensures Close(w, uuid, verb, ok).0.retryChannel == w.retryChannel
  {
  }

  lemma NackKeepsChannel(w: World, uuid: string, f: Faults)
    ensures Nack(w, uuid, f).0.retryChannel == w.retryChannel
  {
    if f.client && uuid in w.active {
      CloseKeepsChannel(w, uuid, Rejected, f.settle);
    }
  }

  lemma RetryOpensChannel(w: World, src: Source, uuid: string, delay: nat, f: Faults)
    ensures Retry(w, src, uuid, delay, f).0.retryChannel == (w.retryChannel || (f.client && uuid in w.active && f.channel))
  {
    if f.client && uuid in w.active && (w.retryChannel || f.channel) {
      var mid := Prepared(w, src, delay, f);
      var (w1, published) := Publish(mid, RetryName(src.address.name, delay), SourceName(src), w.active[uuid], f.publish);
      CloseKeepsChannel(w1, uuid, if published then Moved else RequeueVerb(mid, w.active[uuid]), f.settle);
    }
  }

  lemma DispatchKeepsChannel(w: World, src: Source, req: AckRequest, f: Faults)
    ensures Dispatch(w, src, req, f).0.retryChannel
      == (w.retryChannel || (req.nack && req.delay > 0 && req.uuid != "" && req.uuid in w.active && f.client && f.channel))
  {
    if req.uuid == "" {
    } else if req.nack && req.delay > 0 {
      RetryOpensChannel(w, src, req.uuid, req.delay, f);
      NackKeepsChannel(Retry(w, src, req.uuid, req.delay, f).0, req.uuid, f);
    } else if req.nack {
      NackKeepsChannel(w, req.uuid, f);
    } else if f.client && req.uuid in w.active {
      CloseKeepsChannel(w, req.uuid, Acked, f.settle);
    }
  }

  // Rejections are on record.

  /** A message that was at the broker before and is not any more. */
  ghost predicate BuriedFrom(w: World, w1: World, b: Burial) {
    exists c :: c in w.content && c !in w1.content
      && b.lid == w.content[c].lid && b.home == c.queue && b.key == w.content[c].key
  }

  predicate Rejects(x: Attempt) { x.verb.Rejected? && x.done }

  /** Nothing was settled, or one delivery was; a rejection that the broker honours is recorded with its message. */
  ghost predicate Recorded(w: World, w1: World) {
    || (w1.attempts == w.attempts && w1.buried == w.buried)
    || (exists x :: w1.attempts == w.attempts + [x] && !Rejects(x) && w1.buried == w.buried)
    || (exists x, b :: w1.attempts == w.attempts + [x] && Rejects(x) && w1.buried == w.buried + [b] && BuriedFrom(w, w1, b))
  }

  lemma SettleRecords(w: World, a: Active, verb: Verb, ok: bool)
    ensures Recorded(w, Settle(w, a, verb, ok).0)
  {
    var (w1, done) := Settle(w, a, verb, ok);
    var x := Attempt(a.tag, verb, done);
    assert w1.attempts == w.attempts + [x];
    if Rejects(x) {
      var b := BurialOf(w, a);
      assert BuriedFrom(w, w1, b);
      assert w1.buried == w.buried + [b];
    } else {
      assert w1.buried == w.buried;
    }
  }

  /** Records are about attempts, burials and which messages there are. */
  lemma RecordedAlike(w: World, v: World, w1: World, v1: World)
    requires Recorded(v, v1) && v.attempts == w.attempts && v.buried == w.buried
    requires v1.attempts == w1.attempts && v1.buried == w1.buried && v1.content.Keys == w1.content.Keys
    requires forall c :: c in v.content && c !in v1.content ==>
      c in w.content && w.content[c].lid == v.content[c].lid && w.content[c].key == v.content[c].key
    ensures Recorded(w, w1)
  {
    if x, b :| v1.attempts == v.attempts + [x] && Rejects(x) && v1.buried == v.buried + [b] && BuriedFrom(v, v1, b) {
      assert BuriedFrom(w, w1, b);
    } else if x :| v1.attempts == v.attempts + [x] && !Rejects(x) && v1.buried == v.buried {
      assert w1.attempts == w.attempts + [x];
    }
  }

  lemma CloseRecords(w: World, uuid: string, verb: Verb, ok: bool)
    requires uuid in w.active
    ensures Recorded(w, Close(w, uuid, verb, ok).0)
  {
    SettleRecords(w, w.active[uuid], verb, ok);
    RecordedAlike(w, w, Close(w, uuid, verb, ok).0, Settle(w, w.active[uuid], verb, ok).0);
  }

  lemma NackRecords(w: World, uuid: string, f: Faults)
    ensures Recorded(w, Nack(w, uuid, f).0)
  {
    if f.client && uuid in w.active {
      CloseRecords(w, uuid, Rejected, f.settle);
    }
  }

  /** Settling takes away nothing but a message that the broker waits for. */
  lemma CloseTakesDelivered(w: World, uuid: string, verb: Verb, ok: bool, c: Copy)
    requires uuid in w.active && c in w.content && c !in Close(w, uuid, verb, ok).0.content
    ensures w.content[c].unacked.Some?
  {
  }

  lemma RepublishRecords(w: World, n: string, key: string, uuid: string, f: Faults)
    requires uuid in w.active
    ensures Recorded(w, Republish(w, n, key, uuid, f))
  {
    var a := w.active[uuid];
    var (w1, published) := Publish(w, n, key, a, f.publish);
    var verb := if published then Moved else RequeueVerb(w, a);
    CloseRecords(w1, uuid, verb, f.settle);
    var w2 := Close(w1, uuid, verb, f.settle).0;
    forall c | c in w1.content && c !in w2.content
      ensures c in w.content && w.content[c] == w1.content[c]
    {
      CloseTakesDelivered(w1, uuid, verb, f.settle, c);
      if c !in w.content {
        StoredCopies(w, Route(w.topo.broker, n, key, map[]), Republished(a, key), c);
      }
    }
    RecordedAlike(w, w1, Republish(w, n, key, uuid, f), w2);
  }

  lemma RetryRecords(w: World, src: Source, uuid: string, delay: nat, f: Faults)
    ensures var (w1, ok) := Retry(w, src, uuid, delay, f);
      && (ok ==> Recorded(w, w1))
      && (!ok ==> w1.attempts == w.attempts && w1.buried == w.buried && w1.content == w.content)
  {
    if f.client && uuid in w.active && (w.retryChannel || f.channel) {
      var mid := Prepared(w, src, delay, f);
      RepublishRecords(mid, RetryName(src.address.name, delay), SourceName(src), uuid, f);
      if Retry(w, src, uuid, delay, f).1 {
        RecordedAlike(w, mid, Retry(w, src, uuid, delay, f).0, Retry(w, src, uuid, delay, f).0);
      }
    }
  }

  lemma DispatchRecords(w: World, src: Source, req: AckRequest, f: Faults)
    ensures Recorded(w, Dispatch(w, src, req, f).0)
  {
    if req.uuid == "" {
    } else if req.nack && req.delay > 0 {
      RetryRecords(w, src, req.uuid, req.delay, f);
      var (w1, ok) := Retry(w, src, req.uuid, req.delay, f);
      if !ok {
        NackRecords(w1, req.uuid, f);
        RecordedAlike(w, w1, Nack(w1, req.uuid, f).0, Nack(w1, req.uuid, f).0);
      }
    } else if req.nack {
      NackRecords(w, req.uuid, f);
    } else if f.client && req.uuid in w.active {
      CloseRecords(w, req.uuid, Acked, f.settle);
    }
  }

  lemma DeliverRecords(w: World, c: Copy, uuid: string, ok: bool)
    requires c in w.content
    ensures Recorded(w, Delivered(w, c, uuid, ok))
  {
    var a, w1 := ActiveOf(w, c), HandedOut(w, c, uuid);
    if MaxHit(a.acquired, w.cap) {
      SettleRecords(w1, a, Rejected, ok);
      RecordedAlike(w, w1, Delivered(w, c, uuid, ok), Settle(w1, a, Rejected, ok).0);
    }
  }

  lemma StepRecords(w: World, e: Event)
    requires Step(w, e).Some?
    ensures Recorded(w, Step(w, e).value)
  {
    match e
    case Request(src, req, f) => DispatchRecords(w, src, req, f);
    case Deliver(c, uuid, ok) => DeliverRecords(w, c, uuid, ok);
    case _ =>
  }

  function Rejections(attempts: seq<Attempt>): nat {
    if attempts == [] then 0
    else Rejections(attempts[..|attempts| - 1]) + if Rejects(attempts[|attempts| - 1]) then 1 else 0
  }

  lemma RecordedCounts(w: World, w1: World)
    requires Recorded(w, w1) && |w.buried| == Rejections(w.attempts)
    ensures |w1.buried| == Rejections(w1.attempts)
  {
    if x :| w1.attempts == w.attempts + [x] {
      assert w1.attempts[..|w.attempts|] == w.attempts;
    }
  }

  lemma {:induction false} RunRecords(w: World, es: seq<Event>)
    requires |w.buried| == Rejections(w.attempts) && Exec(Step, w, es).Some?
    ensures |Exec(Step, w, es).value.buried| == Rejections(Exec(Step, w, es).value.attempts)
    decreases |es|
  {
    if es != [] {
      StepRecords(w, es[0]);
      RecordedCounts(w, Step(w, es[0]).value);
      RunRecords(Step(w, es[0]).value, es[1..]);
    }
  }

  /**
   In every run the record of rejections has one entry for each rejection that the broker honoured, by a nack, a failed
   retry or the cap; and each step adds an entry only for the message that it takes away.
   */
  lemma RejectionsAreRecorded(w0: World, es: seq<Event>, w: World, e: Event, w1: World)
    requires Reaches(w0, es, w) && Step(w, e) == Some(w1)
    ensures |w.buried| == Rejections(w.attempts)
    ensures w1.buried == w.buried || exists b :: w1.buried == w.buried + [b] && BuriedFrom(w, w1, b)
  {
    RunRecords(w0, es);
    StepRecords(w, e);
  }

  /**
   A message that has been handed out more often than the cap is rejected when it comes again, if the broker honours
   that, and never reaches the client; any other reaches it as a delivery that the broker waits for.
   */
  lemma DeliveryMeetsTheCap(w: World, c: Copy, uuid: string, ok: bool)
    requires c in w.content && w.content[c].acquired < TWO_31 && uuid !in w.active && 0 <= w.cap
    ensures var w1, m := Delivered(w, c, uuid, ok), w.content[c];
      if m.acquired > w.cap then
        w1.active == w.active && w1.content.Keys == (if ok then w.content.Keys - {c} else w.content.Keys)
        && w1.finished == (if ok then w.finished + {m.lid} else w.finished)
      else
        w1.active.Keys == w.active.Keys + {uuid} && Outstanding(w1, w1.active[uuid]) && w1.active[uuid].copy == c
        && w1.content.Keys == w.content.Keys && w1.finished == w.finished && w1.attempts == w.attempts
  {
    CapIsExactBelow(w.content[c].acquired, w.cap);
  }
}
