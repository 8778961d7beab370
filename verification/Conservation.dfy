/** No message is lost and none is doubled: what the settlement machine conserves over every run, and exactly when not. */
module Conservation {
  import opened Amqp
  import opened Counters
  import opened RetryTopology
  import opened Runs
  import opened Settlement
  import opened SettlementRuns
  import opened Text
  import opened Topology
  import opened Wrappers

  ghost predicate Present(w: World, lid: nat) {
    exists c :: c in w.content && w.content[c].lid == lid
  }

  /** The message is somewhere at the broker, or it was acknowledged by the client or rejected. */
  ghost predicate Accounted(w: World, lid: nat) { lid in w.finished || Present(w, lid) }

  /** No two copies of one message, and no copy of a finished one. */
  predicate Sole(w: World) {
    && (forall c, d :: c in w.content && d in w.content && w.content[c].lid == w.content[d].lid ==> c == d)
    && (forall c :: c in w.content ==> w.content[c].lid !in w.finished)
  }

  ghost predicate Conserved(w: World) {
    && (!w.hindered ==> forall l :: l in w.arrived ==> Accounted(w, l))
    && (!w.doubtful ==> Sole(w))
  }

  // What the parts of a dispatch do to the messages at the broker.

  /** Messages that stay where they are, with the tag they have. */
  predicate SameMessages(w: World, w1: World) {
    && w1.content.Keys == w.content.Keys && w1.finished == w.finished
    && forall c :: c in w.content ==> w1.content[c].lid == w.content[c].lid
  }

  lemma SameMessagesConserved(w: World, w1: World, lid: nat)
    requires SameMessages(w, w1)
    ensures Accounted(w, lid) ==> Accounted(w1, lid)
    ensures Sole(w) ==> Sole(w1)
  {
    if Present(w, lid) {
      var c :| c in w.content && w.content[c].lid == lid;
      assert c in w1.content && w1.content[c].lid == lid;
    }
  }

  /** Settling a message accounts for it, unless it was moved and nothing came of the move. */
  lemma SettleConserves(w: World, a: Active, verb: Verb, ok: bool, lid: nat)
    requires a.copy in w.content ==> w.content[a.copy].lid == a.lid
    requires Accounted(w, lid)
    requires verb == Moved ==> lid != a.lid || exists c :: c in w.content && c != a.copy && w.content[c].lid == lid
    ensures Accounted(Settle(w, a, verb, ok).0, lid)
  {
    var w1 := Settle(w, a, verb, ok).0;
    if lid !in w1.finished {
      var c :| c in w.content && w.content[c].lid == lid && (verb == Moved && lid == a.lid ==> c != a.copy);
      assert c in w1.content && w1.content[c].lid == lid;
    }
  }

  /** Settling keeps messages single, except that a message that is acknowledged while it is elsewhere too is not. */
  lemma SettleStaysSole(w: World, a: Active, verb: Verb, ok: bool)
    requires a.copy in w.content ==> w.content[a.copy].lid == a.lid
    requires Sole(w)
    ensures Sole(Settle(w, a, verb, ok).0)
  {
    var w1 := Settle(w, a, verb, ok).0;
    forall c | c in w1.content ensures c in w.content && w1.content[c].lid == w.content[c].lid && w1.content[c].lid !in w1.finished {
      assert c in w.content;
    }
  }

  // What a retry comes to.

  /** The topology is such that a message published to the retry exchange is stored in the retry queue. */
  predicate Routed(b: Broker, n: string) {
    n in b.exchanges && n in b.queues && HashBinding(n) in b.bindings
  }

  lemma StoredOnce(w: World, n: string, m: Held)
    ensures Stored(w, {n}, m).content == w.content[Copy(w.nextPublication, n) := m]
    ensures Stored(w, {}, m).content == w.content
  {
    assert Copy(w.nextPublication, n) in Stored(w, {n}, m).content;
  }

  /** A retry exchange feeds its own queue, if that is bound. */
  ghost predicate FeedsItself(w: World, n: string, key: string) {
    n in w.topo.broker.exchanges ==> Route(w.topo.broker, n, key, map[]) == if Routed(w.topo.broker, n) then {n} else {}
  }

  lemma PublishOutcome(w: World, n: string, key: string, a: Active, p: Publishing)
    requires FeedsItself(w, n, key)
    ensures var (w1, published) := Publish(w, n, key, a, p);
      && published == (n in w.topo.broker.exchanges && p.Confirmed?)
      && w1.content == (if Routed(w.topo.broker, n) && p != Unconfirmed(false)
                        then w.content[Copy(w.nextPublication, n) := Republished(a, key)] else w.content)
      && w1.finished == w.finished
  {
    StoredOnce(w, n, Republished(a, key));
  }

  lemma CloseOutcome(w: World, uuid: string, verb: Verb, ok: bool)
    requires uuid in w.active && Outstanding(w, w.active[uuid])
    ensures var (w1, done) := Close(w, uuid, verb, ok);
      var c := w.active[uuid].copy;
      && done == ok
      && w1.content == (if !ok then w.content
                        else if verb == Requeued then w.content[c := w.content[c].(unacked := None)]
                        else w.content - {c})
      && w1.finished == (if ok && (verb == Acked || verb == Rejected) then w.finished + {w.active[uuid].lid} else w.finished)
  {
  }

  /** Exactly what becomes of the delivered message `c` and of its new copy. */
  ghost predicate Outcome(w: World, w1: World, n: string, a: Active, m: Held, f: Faults) {
    var again := Copy(w.nextPublication, n);
    && again != a.copy
    && (a.copy in w1.content <==> !(n in w.topo.broker.exchanges && f.publish.Confirmed? && f.settle))
    && (a.copy in w1.content ==> w1.content[a.copy].lid == a.lid)
    && (again in w1.content <==> (Routed(w.topo.broker, n) && f.publish != Unconfirmed(false)))
    && (again in w1.content ==> w1.content[again] == m)
    && (forall c :: c != a.copy && c != again ==> (c in w1.content <==> c in w.content))
    && (forall c :: c != a.copy && c != again && c in w.content ==> w1.content[c] == w.content[c])
    && w1.finished == w.finished
    && w1.doubtful == (w.doubtful || !f.settle || f.publish == Unconfirmed(true))
  }

  /** The outcome, from what publishing and settling did to the queues. */
  lemma OutcomeOf(w: World, mid: World, w1: World, n: string, a: Active, m: Held, f: Faults)
    requires Outstanding(w, a) && w.content[a.copy].lid == a.lid
    requires a.copy.publication < w.nextPublication && Copy(w.nextPublication, n) !in w.content
    requires mid.content == if Routed(w.topo.broker, n) && f.publish != Unconfirmed(false)
                            then w.content[Copy(w.nextPublication, n) := m] else w.content
    requires w1.content == if !f.settle then mid.content
                           else if n in w.topo.broker.exchanges && f.publish.Confirmed? then mid.content - {a.copy}
                           else mid.content[a.copy := w.content[a.copy].(unacked := None)]
    requires w1.finished == w.finished
    requires w1.doubtful == (w.doubtful || !f.settle || f.publish == Unconfirmed(true))
    ensures Outcome(w, w1, n, a, m, f)
  {
  }

  lemma RepublishOutcomeFrom(w: World, n: string, key: string, uuid: string, f: Faults)
    requires uuid in w.active && Outstanding(w, w.active[uuid]) && w.content[w.active[uuid].copy].lid == w.active[uuid].lid
    requires FeedsItself(w, n, key) && RequeueVerb(w, w.active[uuid]) == Requeued
    requires w.active[uuid].copy.publication < w.nextPublication && Copy(w.nextPublication, n) !in w.content
    ensures Outcome(w, Republish(w, n, key, uuid, f), n, w.active[uuid], Republished(w.active[uuid], key), f)
  {
    var a := w.active[uuid];
    var (w1, published) := Publish(w, n, key, a, f.publish);
    PublishOutcome(w, n, key, a, f.publish);
    PublishTouchesNoRecord(w, n, key, a, f.publish);
    CloseOutcome(w1, uuid, if published then Moved else Requeued, f.settle);
    OutcomeOf(w, w1, Republish(w, n, key, uuid, f), n, a, Republished(a, key), f);
  }

  lemma RepublishOutcome(w: World, n: string, key: string, uuid: string, f: Faults)
    requires Inv(w) && IsRetryName(n) && uuid in w.active && key == w.active[uuid].home && Outstanding(w, w.active[uuid])
    ensures Outcome(w, Republish(w, n, key, uuid, f), n, w.active[uuid], Republished(w.active[uuid], key), f)
    ensures Copy(w.nextPublication, n) !in w.content
  {
    var a := w.active[uuid];
    assert LinkedTo(w, a);
    if n in w.topo.broker.exchanges {
      PublishGoesTo(w, n, key, a);
    }
    RepublishOutcomeFrom(w, n, key, uuid, f);
  }

  /** When nothing is refused or late, a retry that gets as far as publishing publishes to an exchange that feeds the retry queue. */
  lemma PreparedRouted(w: World, src: Source, delay: nat, f: Faults)
    requires Inv(w) && IsDelay(delay) && !Prepared(w, src, delay, f).hindered
    requires Declared(w.topo, RetrySource(src.address.name, delay), false, f.declare).1
    ensures var n, b := RetryName(src.address.name, delay), Prepared(w, src, delay, f).topo.broker;
      n in b.exchanges ==> Routed(b, n)
  {
    var n, t := RetryName(src.address.name, delay), Prepared(w, src, delay, f).topo;
    PreparedKeeps(w, src, delay, f);
    assert Shaped(ViewOf(w.topo, n), n, delay) && Remembered(ViewOf(t, n), n) && Shaped(ViewOf(t, n), n, delay);
    RetryDeclared(w.topo, src.address.name, delay, f.declare);
    assert ViewOf(t, n).knownBinding;
    if n in t.broker.exchanges {
      assert HashBinding(n) in ViewOf(t, n).bindings;
    }
  }

  // Histories only grow.

  /** Nothing arrives, and what went wrong stays on record. */
  predicate Later(w: World, w1: World) {
    w1.arrived == w.arrived && (w.hindered ==> w1.hindered) && (w.doubtful ==> w1.doubtful)
  }

  lemma CloseHistory(w: World, uuid: string, verb: Verb, ok: bool)
    requires uuid in w.active
    ensures var w1 := Close(w, uuid, verb, ok).0;
      w1.arrived == w.arrived && w1.hindered == w.hindered && w1.doubtful == w.doubtful
  {
  }

  lemma RepublishHistory(w: World, n: string, key: string, uuid: string, f: Faults)
    requires uuid in w.active
    ensures Later(w, Republish(w, n, key, uuid, f)) && Republish(w, n, key, uuid, f).hindered == w.hindered
  {
    var a := w.active[uuid];
    var (w1, published) := Publish(w, n, key, a, f.publish);
    assert w1.arrived == w.arrived && w1.hindered == w.hindered && w1.active == w.active;
    CloseHistory(w1, uuid, if published then Moved else RequeueVerb(w, a), f.settle);
  }

  lemma NackHistory(w: World, uuid: string, f: Faults)
    ensures var w1 := Nack(w, uuid, f).0;
      w1.arrived == w.arrived && w1.hindered == w.hindered && w1.doubtful == w.doubtful
  {
    if f.client && uuid in w.active {
      CloseHistory(w, uuid, Rejected, f.settle);
    }
  }

  lemma RetryHistory(w: World, src: Source, uuid: string, delay: nat, f: Faults)
    ensures Later(w, Retry(w, src, uuid, delay, f).0)
  {
    if f.client && uuid in w.active && (w.retryChannel || f.channel) {
      var w1 := Prepared(w, src, delay, f);
      assert Later(w, w1) && w1.active == w.active;
      RepublishHistory(w1, RetryName(src.address.name, delay), SourceName(src), uuid, f);
    }
  }

  lemma DispatchHistory(w: World, src: Source, req: AckRequest, f: Faults)
    ensures Later(w, Dispatch(w, src, req, f).0)
  {
    if req.uuid == "" {
    } else if req.nack && req.delay > 0 {
      RetryHistory(w, src, req.uuid, req.delay, f);
      NackHistory(Retry(w, src, req.uuid, req.delay, f).0, req.uuid, f);
    } else if req.nack {
      NackHistory(w, req.uuid, f);
    } else if f.client && req.uuid in w.active {
      CloseHistory(w, req.uuid, Acked, f.settle);
    }
  }

  lemma StepHistory(w: World, e: Event)
    requires Step(w, e).Some? && !e.Arrive?
    ensures Later(w, Step(w, e).value)
  {
    if e.Request? {
      DispatchHistory(w, e.src, e.req, e.f);
    }
  }

  /** An ack or a nack without delay that the broker honours ends exactly that message; one that fails changes no queue. */
  lemma PlainRequestEndsOne(w: World, src: Source, req: AckRequest, f: Faults)
    requires req.uuid in w.active && req.uuid != "" && f.client && (!req.nack || req.delay <= 0)
    ensures var w1, a := Dispatch(w, src, req, f).0, w.active[req.uuid];
      var done := f.settle && Outstanding(w, a);
      && w1.content == (if done then w.content - {a.copy} else w.content)
      && w1.finished == (if done then w.finished + {a.lid} else w.finished)
      && w1.topo == w.topo
  {
    var verb := if req.nack then Rejected else Acked;
    assert Dispatch(w, src, req, f).0 == Close(w, req.uuid, verb, f.settle).0;
    if Outstanding(w, w.active[req.uuid]) {
      CloseOutcome(w, req.uuid, verb, f.settle);
    } else {
      CloseUnsettled(w, req.uuid, verb, f.settle);
    }
  }

  // Nothing is lost.

  lemma CloseAccounts(w: World, uuid: string, verb: Verb, ok: bool, lid: nat)
    requires Linked(w) && uuid in w.active && verb != Moved && Accounted(w, lid)
    ensures Accounted(Close(w, uuid, verb, ok).0, lid)
  {
    assert LinkedTo(w, w.active[uuid]);
    var w1 := Settle(w, w.active[uuid], verb, ok).0;
    SettleConserves(w, w.active[uuid], verb, ok, lid);
    SameMessagesConserved(w1, Close(w, uuid, verb, ok).0, lid);
  }

  lemma RepublishAccounts(w: World, n: string, key: string, uuid: string, f: Faults, lid: nat)
    requires Inv(w) && IsRetryName(n) && uuid in w.active && key == w.active[uuid].home && Accounted(w, lid)
    requires n in w.topo.broker.exchanges ==> Routed(w.topo.broker, n)
    ensures Accounted(Republish(w, n, key, uuid, f), lid)
  {
    var w1, a, again := Republish(w, n, key, uuid, f), w.active[uuid], Copy(w.nextPublication, n);
    if Outstanding(w, a) {
      RepublishOutcome(w, n, key, uuid, f);
      assert LinkedTo(w, a);
      if lid !in w.finished {
        var c :| c in w.content && w.content[c].lid == lid;
        var d := if c == a.copy && c !in w1.content then again else c;
        assert d in w1.content && w1.content[d].lid == lid;
      }
    } else {
      RepublishUnsettled(w, n, key, uuid, f);
      if lid !in w.finished {
        var c :| c in w.content && w.content[c].lid == lid;
        assert c in w1.content && w1.content[c].lid == lid;
      }
    }
  }

  lemma PublishAdds(w: World, n: string, key: string, a: Active, p: Publishing)
    requires Placed(w)
    ensures var w1 := Publish(w, n, key, a, p).0;
      w1.finished == w.finished && forall c :: c in w.content ==> c in w1.content && w1.content[c] == w.content[c]
  {
  }

  lemma CloseUnsettled(w: World, uuid: string, verb: Verb, ok: bool)
    requires uuid in w.active && !Outstanding(w, w.active[uuid])
    ensures var (w1, done) := Close(w, uuid, verb, ok);
      w1.finished == w.finished && w1.content == w.content && !done
  {
  }

  /** A retry of a delivery that the broker has taken back leaves every message where it is. */
  lemma RepublishUnsettled(w: World, n: string, key: string, uuid: string, f: Faults)
    requires Places(w) && uuid in w.active && !Outstanding(w, w.active[uuid])
    ensures var w1 := Republish(w, n, key, uuid, f);
      && w1.finished == w.finished && w1.doubtful
      && forall c :: c in w.content ==> c in w1.content && w1.content[c] == w.content[c]
  {
    var a := w.active[uuid];
    assert LinkedTo(w, a);
    var (w1, published) := Publish(w, n, key, a, f.publish);
    PublishAdds(w, n, key, a, f.publish);
    PublishTouchesNoRecord(w, n, key, a, f.publish);
    CloseUnsettled(w1, uuid, if published then Moved else RequeueVerb(w, a), f.settle);
  }

  lemma RetryAccounts(w: World, src: Source, uuid: string, delay: nat, f: Faults, lid: nat)
    requires Inv(w) && IsDelay(delay) && Own(w, src, uuid) && Accounted(w, lid) && !Retry(w, src, uuid, delay, f).0.hindered
    ensures Accounted(Retry(w, src, uuid, delay, f).0, lid)
  {
    if f.client && uuid in w.active && (w.retryChannel || f.channel) {
      var w1 := Prepared(w, src, delay, f);
      SameMessagesConserved(w, w1, lid);
      if Declared(w.topo, RetrySource(src.address.name, delay), false, f.declare).1 {
        RepublishHistory(w1, RetryName(src.address.name, delay), SourceName(src), uuid, f);
        PreparedKeeps(w, src, delay, f);
        PreparedRouted(w, src, delay, f);
        assert LinkedTo(w, w.active[uuid]) && IsRetryName(RetryName(src.address.name, delay));
        RepublishAccounts(w1, RetryName(src.address.name, delay), SourceName(src), uuid, f, lid);
      }
    }
  }

  lemma NackAccounts(w: World, uuid: string, f: Faults, lid: nat)
    requires Linked(w) && Accounted(w, lid)
    ensures Accounted(Nack(w, uuid, f).0, lid) && Accounted(DeadLetter(w, uuid, f).0, lid)
  {
    if f.client && uuid in w.active {
      CloseAccounts(w, uuid, Rejected, f.settle, lid);
    }
  }

  lemma DispatchAccounts(w: World, src: Source, req: AckRequest, f: Faults, lid: nat)
    requires Inv(w) && req.delay < TWO_31 && Own(w, src, req.uuid) && Accounted(w, lid) && !Dispatch(w, src, req, f).0.hindered
    ensures Accounted(Dispatch(w, src, req, f).0, lid)
  {
    if req.uuid == "" {
    } else if req.nack && req.delay > 0 {
      var w1 := Retry(w, src, req.uuid, req.delay, f).0;
      NackHistory(w1, req.uuid, f);
      RetryAccounts(w, src, req.uuid, req.delay, f, lid);
      RetryKeeps(w, src, req.uuid, req.delay, f);
      NackAccounts(w1, req.uuid, f, lid);
    } else if req.nack {
      NackAccounts(w, req.uuid, f, lid);
      NackKeeps(w, req.uuid, f);
      NackAccounts(DeadLetter(w, req.uuid, f).0, req.uuid, f, lid);
    } else if f.client && req.uuid in w.active {
      CloseAccounts(w, req.uuid, Acked, f.settle, lid);
    }
  }

  lemma DeliverAccounts(w: World, c: Copy, uuid: string, ok: bool, lid: nat)
    requires c in w.content && Accounted(w, lid)
    ensures Accounted(Delivered(w, c, uuid, ok), lid)
  {
    var a, w1 := ActiveOf(w, c), HandedOut(w, c, uuid);
    SameMessagesConserved(w, w1, lid);
    if MaxHit(a.acquired, w.cap) {
      SettleConserves(w1, a, Rejected, ok, lid);
    } else {
      SameMessagesConserved(w1, Delivered(w, c, uuid, ok), lid);
    }
  }

  lemma StoredAccounts(w: World, q: string, m: Held, lid: nat)
    requires Places(w) && (Accounted(w, lid) || lid == m.lid)
    ensures Accounted(Stored(w, {q}, m), lid)
  {
    StoredOnce(w, q, m);
    var w1, again := Stored(w, {q}, m), Copy(w.nextPublication, q);
    if lid == m.lid {
      assert again in w1.content && w1.content[again].lid == lid;
    } else if lid !in w.finished {
      var c :| c in w.content && w.content[c].lid == lid;
      assert c in w1.content && w1.content[c].lid == lid;
    }
  }

  lemma ExpireAccounts(w: World, c: Copy, lid: nat)
    requires Inv(w) && Step(w, Expire(c)).Some? && Accounted(w, lid)
    ensures Accounted(Step(w, Expire(c)).value, lid)
  {
    ExpiryReturnsHome(w, c);
    var m, w1 := w.content[c], w.(content := w.content - {c});
    RemovedKeeps(w, c);
    if lid !in w.finished && lid != m.lid {
      var d :| d in w.content && w.content[d].lid == lid;
      assert d in w1.content && w1.content[d].lid == lid;
    }
    StoredAccounts(w1, m.home, m.(acquired := 0, delivered := 0), lid);
  }

  /** A step that leaves every retry's declarations accepted accounts for every message it found accounted for. */
  lemma StepAccounts(w: World, e: Event, lid: nat)
    requires Inv(w) && Step(w, e).Some? && !Step(w, e).value.hindered
    requires Accounted(w, lid) || lid !in w.arrived
    ensures lid in Step(w, e).value.arrived ==> Accounted(Step(w, e).value, lid)
  {
    if Accounted(w, lid) {
      match e
      case Arrive(q, key, retries) =>
        StoredAccounts(w, q, Arrived(w.nextPublication, q, key, retries), lid);
        SameMessagesConserved(Stored(w, {q}, Arrived(w.nextPublication, q, key, retries)), Step(w, e).value, lid);
      case Deliver(c, uuid, ok) => DeliverAccounts(w, c, uuid, ok, lid);
      case Request(src, req, f) => DispatchAccounts(w, src, req, f, lid);
      case Expire(c) => ExpireAccounts(w, c, lid);
      case _ => SameMessagesConserved(w, Step(w, e).value, lid);
    } else if e.Arrive? {
      var m := Arrived(w.nextPublication, e.queue, e.key, e.retries);
      if lid == m.lid {
        StoredAccounts(w, e.queue, m, lid);
        SameMessagesConserved(Stored(w, {e.queue}, m), Step(w, e).value, lid);
      }
    } else {
      StepHistory(w, e);
    }
  }

  // Nothing is doubled.

  lemma CloseStaysSole(w: World, uuid: string, verb: Verb, ok: bool)
    requires Linked(w) && uuid in w.active && Sole(w)
    ensures Sole(Close(w, uuid, verb, ok).0)
  {
    assert LinkedTo(w, w.active[uuid]);
    SettleStaysSole(w, w.active[uuid], verb, ok);
    SameMessagesConserved(Settle(w, w.active[uuid], verb, ok).0, Close(w, uuid, verb, ok).0, 0);
  }

  lemma RepublishStaysSole(w: World, n: string, key: string, uuid: string, f: Faults)
    requires Inv(w) && IsRetryName(n) && uuid in w.active && key == w.active[uuid].home && Sole(w)
    requires !Republish(w, n, key, uuid, f).doubtful
    ensures Sole(Republish(w, n, key, uuid, f))
  {
    var w1, a, again := Republish(w, n, key, uuid, f), w.active[uuid], Copy(w.nextPublication, n);
    if !Outstanding(w, a) {
      RepublishUnsettled(w, n, key, uuid, f);
    }
    RepublishOutcome(w, n, key, uuid, f);
    assert LinkedTo(w, a);
    OutcomeSole(w, w, w1, n, a, Republished(a, key), f);
  }

  lemma RetryStaysSole(w: World, src: Source, uuid: string, delay: nat, f: Faults)
    requires Inv(w) && IsDelay(delay) && Own(w, src, uuid) && Sole(w) && !Retry(w, src, uuid, delay, f).0.doubtful
    ensures Sole(Retry(w, src, uuid, delay, f).0)
  {
    if f.client && uuid in w.active && (w.retryChannel || f.channel) {
      var w1 := Prepared(w, src, delay, f);
      SameMessagesConserved(w, w1, 0);
      if Declared(w.topo, RetrySource(src.address.name, delay), false, f.declare).1 {
        PreparedKeeps(w, src, delay, f);
        assert LinkedTo(w, w.active[uuid]) && IsRetryName(RetryName(src.address.name, delay));
        RepublishStaysSole(w1, RetryName(src.address.name, delay), SourceName(src), uuid, f);
      }
    }
  }

  lemma NackStaysSole(w: World, uuid: string, f: Faults)
    requires Linked(w) && Sole(w)
    ensures Sole(Nack(w, uuid, f).0) && Sole(DeadLetter(w, uuid, f).0)
  {
    if f.client && uuid in w.active {
      CloseStaysSole(w, uuid, Rejected, f.settle);
    }
  }

  lemma DispatchStaysSole(w: World, src: Source, req: AckRequest, f: Faults)
    requires Inv(w) && req.delay < TWO_31 && Own(w, src, req.uuid) && Sole(w) && !Dispatch(w, src, req, f).0.doubtful
    ensures Sole(Dispatch(w, src, req, f).0)
  {
    if req.uuid == "" {
    } else if req.nack && req.delay > 0 {
      var w1 := Retry(w, src, req.uuid, req.delay, f).0;
      NackHistory(w1, req.uuid, f);
      RetryStaysSole(w, src, req.uuid, req.delay, f);
      RetryKeeps(w, src, req.uuid, req.delay, f);
      NackStaysSole(w1, req.uuid, f);
    } else if req.nack {
      NackStaysSole(w, req.uuid, f);
      NackKeeps(w, req.uuid, f);
      NackStaysSole(DeadLetter(w, req.uuid, f).0, req.uuid, f);
    } else if f.client && req.uuid in w.active {
      CloseStaysSole(w, req.uuid, Acked, f.settle);
    }
  }

  lemma DeliverStaysSole(w: World, c: Copy, uuid: string, ok: bool)
    requires c in w.content && Sole(w)
    ensures Sole(Delivered(w, c, uuid, ok))
  {
    var a, w1 := ActiveOf(w, c), HandedOut(w, c, uuid);
    SameMessagesConserved(w, w1, 0);
    if MaxHit(a.acquired, w.cap) {
      SettleStaysSole(w1, a, Rejected, ok);
    } else {
      SameMessagesConserved(w1, Delivered(w, c, uuid, ok), 0);
    }
  }

  lemma StoredStaysSole(w: World, q: string, m: Held)
    requires Sole(w) && m.lid !in w.finished && forall c :: c in w.content ==> w.content[c].lid != m.lid
    ensures Sole(Stored(w, {q}, m))
  {
    StoredOnce(w, q, m);
  }

  lemma ArriveStaysSole(w: World, q: string, key: string, retries: HeaderValue)
    requires Places(w) && Sole(w)
    ensures Sole(Stored(w, {q}, Arrived(w.nextPublication, q, key, retries)))
  {
    forall c | c in w.content ensures w.content[c].lid != w.nextPublication {
      assert w.content[c].lid in w.arrived;
    }
    StoredStaysSole(w, q, Arrived(w.nextPublication, q, key, retries));
  }

  lemma ExpireStaysSole(w: World, c: Copy)
    requires Inv(w) && Step(w, Expire(c)).Some? && Sole(w)
    ensures Sole(Step(w, Expire(c)).value)
  {
    ExpiryReturnsHome(w, c);
    var m, w1 := w.content[c], w.(content := w.content - {c});
    assert Sole(w1);
    StoredStaysSole(w1, m.home, m.(acquired := 0, delivered := 0));
  }

  /** A step in which no retry is left in doubt doubles nothing. */
  lemma StepStaysSole(w: World, e: Event)
    requires Inv(w) && Step(w, e).Some? && Sole(w) && !Step(w, e).value.doubtful
    ensures Sole(Step(w, e).value)
  {
    match e
    case Arrive(q, key, retries) =>
      ArriveStaysSole(w, q, key, retries);
      SameMessagesConserved(Stored(w, {q}, Arrived(w.nextPublication, q, key, retries)), Step(w, e).value, 0);
    case Deliver(c, uuid, ok) => DeliverStaysSole(w, c, uuid, ok);
    case Request(src, req, f) => DispatchStaysSole(w, src, req, f);
    case Expire(c) => ExpireStaysSole(w, c);
    case _ => SameMessagesConserved(w, Step(w, e).value, 0);
  }

  // Theorems about every run.

  lemma StepConserves(w: World, e: Event)
    requires Inv(w) && Conserved(w) && Step(w, e).Some?
    ensures Conserved(Step(w, e).value)
  {
    var w1 := Step(w, e).value;
    if !e.Arrive? {
      StepHistory(w, e);
    }
    if !w1.hindered {
      forall l | l in w1.arrived ensures Accounted(w1, l) {
        StepAccounts(w, e, l);
      }
    }
    if !w1.doubtful {
      StepStaysSole(w, e);
    }
  }

  lemma {:induction false} RunConserves(w: World, es: seq<Event>)
    requires Inv(w) && Conserved(w) && Exec(Step, w, es).Some?
    ensures Conserved(Exec(Step, w, es).value)
    decreases |es|
  {
    if es != [] {
      StepKeeps(w, es[0]);
      StepConserves(w, es[0]);
      RunConserves(Step(w, es[0]).value, es[1..]);
    }
  }

  /** As long as no declaration of a retry was refused or took effect late, every message that arrived is accounted for. */
  lemma NothingIsLost(w0: World, es: seq<Event>, w: World, lid: nat)
    requires Reaches(w0, es, w) && !w.hindered && lid in w.arrived
    ensures Accounted(w, lid)
  {
    InitialHolds(w0);
    RunConserves(w0, es);
  }

  /**
   If besides no retry was left in doubt, every message is in exactly one place: finished, or one copy, which is in
   the queue where it arrived or in a retry queue from which it will return there.
   */
  lemma ExactlyOnePlace(w0: World, es: seq<Event>, w: World, lid: nat)
    requires Reaches(w0, es, w) && !w.hindered && !w.doubtful && lid in w.arrived
    ensures lid in w.finished <==> !Present(w, lid)
    ensures forall c, d :: c in w.content && d in w.content && w.content[c].lid == w.content[d].lid == lid ==> c == d
    ensures forall c :: c in w.content && w.content[c].lid == lid ==> InPlace(w, c, w.content[c])
  {
    NothingIsLost(w0, es, w, lid);
    InitialHolds(w0);
    RunConserves(w0, es);
    RunKeeps(w0, es);
  }

  // When a delayed retry fails to conserve, in terms of what was there before it and which requests are refused or late.

  predicate ExchangeThere(v: View, n: string, f: DeclareFaults) {
    v.exchange.Some? || (!Contains(n, "amq.") && f.exchangeChannel && f.exchange)
  }

  predicate QueueThere(v: View, f: DeclareFaults) {
    v.queue.Some? || (!v.knownQueue && f.queueChannel && f.queue)
  }

  predicate BindingThere(v: View, n: string, f: DeclareFaults) {
    || HashBinding(n) in v.bindings
    || (!v.knownBinding && f.bind.channel && 0 !in f.bind.refusedBinds && !f.bind.late && ExchangeThere(v, n, f) && QueueThere(v, f))
  }

  predicate QueueIsFed(v: View, n: string, f: DeclareFaults) {
    ExchangeThere(v, n, f) && QueueThere(v, f) && BindingThere(v, n, f)
  }

  lemma PreparedTopology(w: World, src: Source, d: nat, f: Faults)
    requires Inv(w) && IsDelay(d)
    ensures var n := RetryName(src.address.name, d);
      var v, b := ViewOf(w.topo, n), Prepared(w, src, d, f).topo.broker;
      && (n in b.exchanges <==> ExchangeThere(v, n, f.declare))
      && (Routed(b, n) <==> QueueIsFed(v, n, f.declare))
      && Declared(w.topo, RetrySource(src.address.name, d), false, f.declare).1 == (v.knownBinding || f.declare.bind.channel)
  {
    var n, t := RetryName(src.address.name, d), Prepared(w, src, d, f).topo;
    assert Shaped(ViewOf(w.topo, n), n, d);
    RetryDeclared(w.topo, src.address.name, d, f.declare);
    assert HashBinding(n) in t.broker.bindings <==> HashBinding(n) in ViewOf(t, n).bindings;
  }

  /** A retry that does not get as far as publishing falls back to a rejection. */
  lemma UnpublishedRetry(w: World, src: Source, uuid: string, d: nat, f: Faults)
    requires Inv(w) && IsDelay(d) && uuid in w.active && uuid != "" && Own(w, src, uuid) && Sole(w)
    requires !GetsToPublish(w, ViewOf(w.topo, RetryName(src.address.name, d)), f)
    ensures var w1 := Dispatch(w, src, AckRequest(uuid, true, d), f).0;
      Sole(w1) && forall lid :: Accounted(w, lid) ==> Accounted(w1, lid)
  {
    var w1 := Retry(w, src, uuid, d, f).0;
    PreparedTopology(w, src, d, f);
    assert SameMessages(w, w1);
    RetryKeeps(w, src, uuid, d, f);
    SameMessagesConserved(w, w1, 0);
    NackStaysSole(w1, uuid, f);
    forall lid | Accounted(w, lid) ensures Accounted(Nack(w1, uuid, f).0, lid) {
      SameMessagesConserved(w, w1, lid);
      NackAccounts(w1, uuid, f, lid);
    }
  }

  /** What a retry that publishes comes to. */
  lemma PublishedRetry(w: World, src: Source, uuid: string, d: nat, f: Faults)
    requires Inv(w) && IsDelay(d) && uuid in w.active && Own(w, src, uuid) && Outstanding(w, w.active[uuid])
    requires GetsToPublish(w, ViewOf(w.topo, RetryName(src.address.name, d)), f)
    ensures var (w1, success) := Dispatch(w, src, AckRequest(uuid, true, d), f);
      var n, a := RetryName(src.address.name, d), w.active[uuid];
      && success && a.copy.publication < w.nextPublication && w.content[a.copy].lid == a.lid
      && Copy(w.nextPublication, n) !in w.content
      && Outcome(Prepared(w, src, d, f), w1, n, a, Republished(a, SourceName(src)), f)
  {
    var n := RetryName(src.address.name, d);
    PreparedTopology(w, src, d, f);
    PreparedKeeps(w, src, d, f);
    assert LinkedTo(w, w.active[uuid]) && IsRetryName(n) && uuid != "";
    RepublishOutcome(Prepared(w, src, d, f), n, SourceName(src), uuid, f);
  }

  /**
   What a retry that publishes comes to when the broker has already taken the delivery back, for instance because the
   subscription's channel has closed: the copy is stored, and nothing is removed.
   */
  lemma PublishedRetryOfTaken(w: World, src: Source, uuid: string, d: nat, f: Faults)
    requires Inv(w) && IsDelay(d) && uuid in w.active && Own(w, src, uuid) && !Outstanding(w, w.active[uuid])
    requires GetsToPublish(w, ViewOf(w.topo, RetryName(src.address.name, d)), f)
    ensures var (w1, success) := Dispatch(w, src, AckRequest(uuid, true, d), f);
      var n, a := RetryName(src.address.name, d), w.active[uuid];
      var again := Copy(w.nextPublication, n);
      && success && w1.finished == w.finished && again !in w.content
      && w1.content == (if QueueIsFed(ViewOf(w.topo, n), n, f.declare) && f.publish != Unconfirmed(false)
                        then w.content[again := Republished(a, SourceName(src))] else w.content)
  {
    var n, a, mid := RetryName(src.address.name, d), w.active[uuid], Prepared(w, src, d, f);
    PreparedTopology(w, src, d, f);
    PreparedKeeps(w, src, d, f);
    assert LinkedTo(w, a) && IsRetryName(n) && uuid != "";
    if n in mid.topo.broker.exchanges {
      PublishGoesTo(mid, n, SourceName(src), a);
    }
    RepublishOfTaken(mid, n, SourceName(src), uuid, f);
  }

  lemma RepublishOfTaken(w: World, n: string, key: string, uuid: string, f: Faults)
    requires uuid in w.active && !Outstanding(w, w.active[uuid]) && FeedsItself(w, n, key)
    requires w.active[uuid].copy.publication < w.nextPublication
    ensures var w1, a := Republish(w, n, key, uuid, f), w.active[uuid];
      && w1.finished == w.finished
      && w1.content == (if Routed(w.topo.broker, n) && f.publish != Unconfirmed(false)
                        then w.content[Copy(w.nextPublication, n) := Republished(a, key)] else w.content)
  {
    var a := w.active[uuid];
    var (w1, published) := Publish(w, n, key, a, f.publish);
    PublishOutcome(w, n, key, a, f.publish);
    PublishTouchesNoRecord(w, n, key, a, f.publish);
    CloseUnsettled(w1, uuid, if published then Moved else RequeueVerb(w, a), f.settle);
  }

  /**
   A nacked message with a delay is rejected at once if and only if the broker still waits for the delivery and the retry
   does not get as far as publishing: no retry channel, or no channel for a bind request it still has to make.
   */
  lemma RetryIsRejectedIff(w0: World, es: seq<Event>, w: World, src: Source, uuid: string, d: nat, f: Faults)
    requires Reaches(w0, es, w) && IsDelay(d) && uuid in w.active && Own(w, src, uuid)
    ensures var w1, a := Dispatch(w, src, AckRequest(uuid, true, d), f).0, w.active[uuid];
      var v := ViewOf(w.topo, RetryName(src.address.name, d));
      var rejected := Outstanding(w, a) && f.client && f.settle && !GetsToPublish(w, v, f);
      && w1.finished == (if rejected then w.finished + {a.lid} else w.finished)
      && (rejected ==> w1.content == w.content - {a.copy})
  {
    InitialHolds(w0);
    RunKeeps(w0, es);
    var a, v := w.active[uuid], ViewOf(w.topo, RetryName(src.address.name, d));
    assert LinkedTo(w, a) && uuid != "";
    if !GetsToPublish(w, v, f) {
      UnpublishedIsRejected(w, src, uuid, d, f);
    } else if Outstanding(w, a) {
      PublishedRetry(w, src, uuid, d, f);
    } else {
      PublishedRetryOfTaken(w, src, uuid, d, f);
    }
  }

  lemma UnpublishedIsRejected(w: World, src: Source, uuid: string, d: nat, f: Faults)
    requires IsDelay(d) && uuid in w.active && uuid != ""
    requires !GetsToPublish(w, ViewOf(w.topo, RetryName(src.address.name, d)), f)
    ensures var w1, a := Dispatch(w, src, AckRequest(uuid, true, d), f).0, w.active[uuid];
      var rejected := Outstanding(w, a) && f.client && f.settle;
      && w1.finished == (if rejected then w.finished + {a.lid} else w.finished)
      && w1.content == (if rejected then w.content - {a.copy} else w.content)
  {
    RetryGetsThrough(w, src, uuid, d, f);
    if f.client {
      RetrySendsOnce(w, src, uuid, d, f);
      var w1 := Retry(w, src, uuid, d, f).0;
      assert w1.finished == w.finished;
      if Outstanding(w, w.active[uuid]) {
        CloseOutcome(w1, uuid, Rejected, f.settle);
      } else {
        CloseUnsettled(w1, uuid, Rejected, f.settle);
      }
    }
  }

  /** How a dispatch settles, from what was there before it and which requests are refused. */
  lemma SettlesAsAsked(w0: World, es: seq<Event>, w: World, src: Source, req: AckRequest, f: Faults)
    requires Reaches(w0, es, w) && req.uuid in w.active && f.client && req.delay < TWO_31 && Own(w, src, req.uuid)
    ensures var w1, n := Dispatch(w, src, req, f).0, |w.attempts|;
      |w1.attempts| == n + 1 && w1.attempts[n].verb ==
        if !req.nack then Acked
        else if req.delay <= 0 then Rejected
        else RetryFate(w, RetryName(src.address.name, req.delay), f)
  {
    InitialHolds(w0);
    RunKeeps(w0, es);
    assert LinkedTo(w, w.active[req.uuid]);
    DispatchSendsOnce(w, src, req, f);
    if req.nack && req.delay > 0 {
      PreparedTopology(w, src, req.delay, f);
    }
  }

  function RetryFate(w: World, n: string, f: Faults): Verb {
    var v := ViewOf(w.topo, n);
    if !GetsToPublish(w, v, f) then Rejected
    else if ExchangeThere(v, n, f.declare) && f.publish.Confirmed? then Moved
    else Requeued
  }

  /** The delivered copy is the only trace of the message: not finished, and nowhere else. */
  predicate OnlyTrace(w: World, a: Active) {
    a.lid !in w.finished && forall c :: c in w.content && w.content[c].lid == a.lid ==> c == a.copy
  }

  /**
   A delayed retry loses a message that was accounted for if and only if the broker still waits for the delivery, the
   publication is confirmed by an exchange that does not feed the retry queue, and the original, which was the only trace
   of the message, is then acknowledged. The client is told Success.
   */
  lemma RetryLosesIff(w0: World, es: seq<Event>, w: World, src: Source, uuid: string, d: nat, f: Faults)
    requires Reaches(w0, es, w) && IsDelay(d) && uuid in w.active && Own(w, src, uuid)
    ensures var (w1, success) := Dispatch(w, src, AckRequest(uuid, true, d), f);
      var a, n := w.active[uuid], RetryName(src.address.name, d);
      var v := ViewOf(w.topo, n);
      var lost := Accounted(w, a.lid) && !Accounted(w1, a.lid);
      && (lost <==> (Outstanding(w, a) && OnlyTrace(w, a)
                     && GetsToPublish(w, v, f) && ExchangeThere(v, n, f.declare) && !QueueIsFed(v, n, f.declare)
                     && f.publish.Confirmed? && f.settle))
      && (lost ==> success)
  {
    InitialHolds(w0);
    RunKeeps(w0, es);
    var a, n, w1 := w.active[uuid], RetryName(src.address.name, d), Dispatch(w, src, AckRequest(uuid, true, d), f).0;
    assert LinkedTo(w, a) && uuid != "";
    if !GetsToPublish(w, ViewOf(w.topo, n), f) {
      UnpublishedIsRejected(w, src, uuid, d, f);
      AnyCopyAccounts(w, w1, a);
    } else if Outstanding(w, a) {
      PublishedLosesIff(w, src, uuid, d, f);
    } else {
      PublishedRetryOfTaken(w, src, uuid, d, f);
      AnyCopyAccounts(w, w1, a);
    }
  }

  lemma PublishedLosesIff(w: World, src: Source, uuid: string, d: nat, f: Faults)
    requires Inv(w) && IsDelay(d) && uuid in w.active && Own(w, src, uuid) && Outstanding(w, w.active[uuid])
    requires GetsToPublish(w, ViewOf(w.topo, RetryName(src.address.name, d)), f)
    ensures var (w1, success) := Dispatch(w, src, AckRequest(uuid, true, d), f);
      var a, n := w.active[uuid], RetryName(src.address.name, d);
      var v := ViewOf(w.topo, n);
      && success && Accounted(w, a.lid)
      && (!Accounted(w1, a.lid) <==> (OnlyTrace(w, a) && ExchangeThere(v, n, f.declare) && !QueueIsFed(v, n, f.declare)
                                      && f.publish.Confirmed? && f.settle))
  {
    var a, n, w1 := w.active[uuid], RetryName(src.address.name, d), Dispatch(w, src, AckRequest(uuid, true, d), f).0;
    PreparedTopology(w, src, d, f);
    PublishedRetry(w, src, uuid, d, f);
    OutcomeAccounts(w, Prepared(w, src, d, f), w1, n, a, Republished(a, SourceName(src)), f);
  }

  /** Where the message is afterwards, if everything but the delivered copy is still there. */
  lemma AnyCopyAccounts(w: World, w1: World, a: Active)
    requires w.finished <= w1.finished && (a.copy in w.content && a.copy !in w1.content ==> a.lid in w1.finished)
    requires forall c :: c in w.content && (c != a.copy || c in w1.content) ==> c in w1.content && w1.content[c] == w.content[c]
    ensures Accounted(w, a.lid) ==> Accounted(w1, a.lid)
  {
    if Present(w, a.lid) && a.lid !in w1.finished {
      var c :| c in w.content && w.content[c].lid == a.lid;
      assert c in w1.content && w1.content[c].lid == a.lid;
    }
  }

  lemma OutcomeAccounts(w: World, mid: World, w1: World, n: string, a: Active, m: Held, f: Faults)
    requires Outcome(mid, w1, n, a, m, f) && mid.content == w.content && mid.finished == w.finished
    requires a.copy in w.content && w.content[a.copy].lid == a.lid == m.lid && Copy(mid.nextPublication, n) !in w.content
    ensures Accounted(w, a.lid)
    ensures Accounted(w1, a.lid)
      <==> (!OnlyTrace(w, a) || a.copy in w1.content || Copy(mid.nextPublication, n) in w1.content)
  {
    assert Present(w, a.lid);
    if a.copy in w1.content {
      assert w1.content[a.copy].lid == a.lid;
    } else if Copy(mid.nextPublication, n) in w1.content {
      assert w1.content[Copy(mid.nextPublication, n)].lid == a.lid;
    } else if c :| c in w.content && w.content[c].lid == a.lid && c != a.copy {
      assert c in w1.content && w1.content[c].lid == a.lid;
    }
  }

  /** What the broker stores comes beside a trace of the message that stays. */
  predicate LeavesBoth(w: World, a: Active, f: Faults) {
    if Outstanding(w, a) then f.publish == Unconfirmed(true) || (f.publish.Confirmed? && !f.settle)
    else f.publish != Unconfirmed(false) && (a.lid in w.finished || exists c :: c in w.content && w.content[c].lid == a.lid)
  }

  /**
   A delayed retry doubles the message if and only if its copy is stored and a trace of it stays. While the broker waits
   for the delivery, that is a publication that went through unconfirmed, or an acknowledgement that failed. When the
   broker has taken the delivery back, it is any stored publication of a message that is still accounted for.
   */
  lemma RetryDoublesIff(w0: World, es: seq<Event>, w: World, src: Source, uuid: string, d: nat, f: Faults)
    requires Reaches(w0, es, w) && Sole(w) && IsDelay(d) && uuid in w.active && Own(w, src, uuid)
    ensures var w1 := Dispatch(w, src, AckRequest(uuid, true, d), f).0;
      var n := RetryName(src.address.name, d);
      var v := ViewOf(w.topo, n);
      !Sole(w1) <==> (GetsToPublish(w, v, f) && QueueIsFed(v, n, f.declare) && LeavesBoth(w, w.active[uuid], f))
  {
    InitialHolds(w0);
    RunKeeps(w0, es);
    assert LinkedTo(w, w.active[uuid]) && uuid != "";
    if !GetsToPublish(w, ViewOf(w.topo, RetryName(src.address.name, d)), f) {
      UnpublishedRetry(w, src, uuid, d, f);
    } else if Outstanding(w, w.active[uuid]) {
      PublishedDoublesIff(w, src, uuid, d, f);
    } else {
      TakenDoublesIff(w, src, uuid, d, f);
    }
  }

  lemma TakenDoublesIff(w: World, src: Source, uuid: string, d: nat, f: Faults)
    requires Inv(w) && Sole(w) && IsDelay(d) && uuid in w.active && Own(w, src, uuid) && !Outstanding(w, w.active[uuid])
    requires GetsToPublish(w, ViewOf(w.topo, RetryName(src.address.name, d)), f)
    ensures var n := RetryName(src.address.name, d);
      !Sole(Dispatch(w, src, AckRequest(uuid, true, d), f).0) <==>
        (QueueIsFed(ViewOf(w.topo, n), n, f.declare) && LeavesBoth(w, w.active[uuid], f))
  {
    var n, a := RetryName(src.address.name, d), w.active[uuid];
    PublishedRetryOfTaken(w, src, uuid, d, f);
    SoleWithOneMore(w, Dispatch(w, src, AckRequest(uuid, true, d), f).0, Copy(w.nextPublication, n),
                    Republished(a, SourceName(src)));
  }

  lemma SoleWithOneMore(w: World, w1: World, again: Copy, m: Held)
    requires Sole(w) && again !in w.content && w1.finished == w.finished
    ensures w1.content == w.content ==> Sole(w1)
    ensures w1.content == w.content[again := m] ==> (Sole(w1) <==> !Accounted(w, m.lid))
  {
    if w1.content == w.content[again := m] {
      assert again in w1.content;
      if m.lid !in w.finished && Present(w, m.lid) {
        var c :| c in w.content && w.content[c].lid == m.lid;
        assert c in w1.content && c != again;
      }
    }
  }

  lemma PublishedDoublesIff(w: World, src: Source, uuid: string, d: nat, f: Faults)
    requires Inv(w) && Sole(w) && IsDelay(d) && uuid in w.active && Own(w, src, uuid) && Outstanding(w, w.active[uuid])
    requires GetsToPublish(w, ViewOf(w.topo, RetryName(src.address.name, d)), f)
    ensures var n := RetryName(src.address.name, d);
      !Sole(Dispatch(w, src, AckRequest(uuid, true, d), f).0) <==>
        (QueueIsFed(ViewOf(w.topo, n), n, f.declare) && LeavesBoth(w, w.active[uuid], f))
  {
    var a, n := w.active[uuid], RetryName(src.address.name, d);
    PreparedTopology(w, src, d, f);
    PublishedRetry(w, src, uuid, d, f);
    OutcomeDoublesIff(w, Prepared(w, src, d, f), Dispatch(w, src, AckRequest(uuid, true, d), f).0, n, a,
                      Republished(a, SourceName(src)), f);
  }

  lemma OutcomeDoublesIff(w: World, mid: World, w1: World, n: string, a: Active, m: Held, f: Faults)
    requires Outcome(mid, w1, n, a, m, f) && mid.content == w.content && mid.finished == w.finished && Sole(w)
    requires Outstanding(w, a) && w.content[a.copy].lid == a.lid == m.lid
    ensures !Sole(w1) <==> (Routed(mid.topo.broker, n) && LeavesBoth(w, a, f))
  {
    OutcomeSole(w, mid, w1, n, a, m, f);
  }

  lemma OutcomeSole(w: World, mid: World, w1: World, n: string, a: Active, m: Held, f: Faults)
    requires Outcome(mid, w1, n, a, m, f) && mid.content == w.content && mid.finished == w.finished && Sole(w)
    requires a.copy in w.content && w.content[a.copy].lid == a.lid == m.lid
    ensures Sole(w1) <==> !(a.copy in w1.content && Copy(mid.nextPublication, n) in w1.content)
  {
    var again := Copy(mid.nextPublication, n);
    if a.copy in w1.content && again in w1.content {
      assert w1.content[a.copy].lid == w1.content[again].lid;
    } else {
      forall c | c in w1.content
        ensures w1.content[c].lid == a.lid ==> c == a.copy || c == again
        ensures w1.content[c].lid !in w1.finished
        ensures c != a.copy && c != again ==> c in w.content && w.content[c].lid == w1.content[c].lid
      {
        assert c != a.copy && c != again ==> c in w.content && w1.content[c] == w.content[c];
      }
    }
  }

  const LONE_QUEUE := Broker(map[], map["q" := Queue("classic", None, None, None, None, false)], {})
  const LONE_SOURCE := Source("q", TemporarySource, Address("a", TopicAddress, []), false, false, false, map[], [])
  /** A retry on the first connection's new channel, with the outcomes that matter: of the bind, the publication, the settling. */
  function OneRetry(bind: BindFaults, publish: Publishing, settle: bool): Faults {
    Faults(true, true, DeclareFaults(true, true, true, true, bind), publish, settle)
  }

  lemma LoneQueueIsShaped()
    ensures AllShaped(Topology(LONE_QUEUE, {}, {}, {}, {})) && !IsRetryName("q")
  {
    var t := Topology(LONE_QUEUE, {}, {}, {}, {});
    forall a: string, d: nat | IsDelay(d)
      ensures RetryName(a, d) != "q" && Shaped(ViewOf(t, RetryName(a, d)), RetryName(a, d), d)
    {
      assert |RetryName(a, d)| > 1;
    }
  }

  /** One message that has arrived and been delivered. */
  lemma OneDelivery() returns (w0: World, es: seq<Event>, w: World)
    ensures Reaches(w0, es, w) && w.topo == Topology(LONE_QUEUE, {}, {}, {}, {}) && w.nextPublication == 1
    ensures w.active == map["u" := Active(Copy(0, "q"), 0, 0, "q", Int64(0), Absent, Trail(Absent, 0))] && w.arrived == {0}
    ensures w.content == map[Copy(0, "q") := Held(0, "q", "", 1, 1, Absent, Trail(Absent, 0), Some(0))] && w.finished == {}
  {
    LoneQueueIsShaped();
    w0 := Start(LONE_QUEUE, 20);
    es := [];
    var arrival, c := Arrive("q", "", Absent), Copy(0, "q");
    ExecMore(Step, w0, es, arrival);
    es := es + [arrival];
    w := Exec(Step, w0, es).value;
    StoredOnce(w0, "q", Arrived(0, "q", "", Absent));
    assert w.content == map[c := Arrived(0, "q", "", Absent)];
    assert w == w0.(content := w.content, nextPublication := 1, arrived := {0});
    ExecMore(Step, w0, es, Deliver(c, "u", true));
    es := es + [Deliver(c, "u", true)];
    w := Exec(Step, w0, es).value;
  }

  lemma NothingThereYet(w: World)
    requires w.topo == Topology(LONE_QUEUE, {}, {}, {}, {})
    ensures ViewOf(w.topo, RetryName("a", 5)) == View(None, None, {}, {}, false, false, false)
    ensures !Contains(RetryName("a", 5), "amq.")
    ensures QueueIsFed(ViewOf(w.topo, RetryName("a", 5)), RetryName("a", 5), DeclareFaults(true, true, true, true, NO_BIND_FAULTS))
  {
    assert |RetryName("a", 5)| > 1;
    NoAmqInRetryOfA();
  }

  /** A refused bind request is enough, and so is a late one: the message is gone and the client is told Success. */
  lemma UnboundRetryLosesAMessage(bind: BindFaults) returns (w0: World, es: seq<Event>, w: World)
    requires bind == NO_BIND_FAULTS.(refusedBinds := {0}) || bind == NO_BIND_FAULTS.(late := true)
    ensures Reaches(w0, es, w) && "u" in w.active && Own(w, LONE_SOURCE, "u") && 0 in w.arrived
    ensures var (w1, success) := Dispatch(w, LONE_SOURCE, AckRequest("u", true, 5), OneRetry(bind, Confirmed, true));
      !Accounted(w1, 0) && success
  {
    w0, es, w := OneDelivery();
    NothingThereYet(w);
    assert Outstanding(w, w.active["u"]) && OnlyTrace(w, w.active["u"]);
    assert Present(w, 0);
    RetryLosesIff(w0, es, w, LONE_SOURCE, "u", 5, OneRetry(bind, Confirmed, true));
  }

  /** A publication that is stored but not confirmed leaves the message twice, and so does an acknowledgement that fails. */
  lemma RetryDoublesAMessage(publish: Publishing, settle: bool) returns (w0: World, es: seq<Event>, w: World)
    requires publish == Unconfirmed(true) || (publish == Confirmed && !settle)
    ensures Reaches(w0, es, w) && "u" in w.active && Own(w, LONE_SOURCE, "u")
    ensures Sole(w) && !Sole(Dispatch(w, LONE_SOURCE, AckRequest("u", true, 5), OneRetry(NO_BIND_FAULTS, publish, settle)).0)
  {
    w0, es, w := OneDelivery();
    NothingThereYet(w);
    assert Outstanding(w, w.active["u"]);
    RetryDoublesIff(w0, es, w, LONE_SOURCE, "u", 5, OneRetry(NO_BIND_FAULTS, publish, settle));
  }

  /** A message nacked with a delay of five seconds is rejected at once, for want of a channel to bind the retry queue on. */
  lemma RetryRejectsAMessage() returns (w0: World, es: seq<Event>, w: World)
    ensures Reaches(w0, es, w) && "u" in w.active && Own(w, LONE_SOURCE, "u") && 0 !in w.finished
    ensures var (w1, success) := Dispatch(w, LONE_SOURCE, AckRequest("u", true, 5),
                                          OneRetry(NO_BIND_FAULTS.(channel := false), Confirmed, true));
      0 in w1.finished && w1.content == map[] && success
  {
    w0, es, w := OneDelivery();
    NothingThereYet(w);
    var f := OneRetry(NO_BIND_FAULTS.(channel := false), Confirmed, true);
    RetryIsRejectedIff(w0, es, w, LONE_SOURCE, "u", 5, f);
    DispatchSendsOnce(w, LONE_SOURCE, AckRequest("u", true, 5), f);
  }

  /** A delivery that the broker has taken back while the client still has its uuid. */
  lemma TakenBackDelivery() returns (w0: World, es: seq<Event>, w: World)
    ensures Reaches(w0, es, w) && w.topo == Topology(LONE_QUEUE, {}, {}, {}, {}) && w.finished == {}
    ensures w.active == map["u" := Active(Copy(0, "q"), 0, 0, "q", Int64(0), Absent, Trail(Absent, 0))]
    ensures w.content == map[Copy(0, "q") := Held(0, "q", "", 1, 1, Absent, Trail(Absent, 0), None)]
  {
    w0, es, w := OneDelivery();
    var before := w;
    ExecMore(Step, w0, es, ChannelClosed({0}));
    es := es + [ChannelClosed({0})];
    w := before.(content := TakenBack(before.content, {0}));
  }

  /**
   Nothing has to be refused: the subscription's channel closes, the broker requeues the message, and the client, whose
   uuid is still active, nacks it with a delay.
   */
  lemma RetryAfterChannelLossDoublesAMessage() returns (w0: World, es: seq<Event>, w: World)
    ensures Reaches(w0, es, w) && "u" in w.active && Own(w, LONE_SOURCE, "u")
    ensures var (w1, success) := Dispatch(w, LONE_SOURCE, AckRequest("u", true, 5), OneRetry(NO_BIND_FAULTS, Confirmed, true));
      Sole(w) && !Sole(w1) && success
  {
    w0, es, w := TakenBackDelivery();
    assert Copy(0, "q") in w.content && !Outstanding(w, w.active["u"]);
    NothingThereYet(w);
    var f := OneRetry(NO_BIND_FAULTS, Confirmed, true);
    RetryDoublesIff(w0, es, w, LONE_SOURCE, "u", 5, f);
    RetryGetsThrough(w, LONE_SOURCE, "u", 5, f);
  }

  lemma NoAmqInRetryOfA()
    ensures !Contains(RetryName("a", 5), "amq.")
  {
    var n := RetryName("a", 5);
    assert n == "a.retry.5s";
    forall i | 0 <= i <= |n| ensures !("amq." <= n[i..]) {
      assert i + 2 < |n| ==> n[i..][2] == n[i + 2];
    }
  }
}
