/** What holds in every run of the settlement machine, whatever fails. */
module SettlementRuns {
  import opened Amqp
  import opened Counters
  import opened DeadLetters
  import opened RetryTopology
  import opened Runs
  import opened Settlement
  import opened Topology
  import opened Wrappers

  // Invariants.

  predicate TagsOnce(w: World) {
    && (forall i, j :: 0 <= i < j < |w.attempts| ==> w.attempts[i].tag != w.attempts[j].tag)
    && (forall i :: 0 <= i < |w.attempts| ==> w.attempts[i].tag < w.nextTag)
  }

  predicate ActiveTags(w: World) {
    && (forall u :: u in w.active ==> u in w.used && u != "" && w.active[u].tag < w.nextTag)
    && (forall u, i :: u in w.active && 0 <= i < |w.attempts| ==> w.attempts[i].tag != w.active[u].tag)
    && (forall u, v :: u in w.active && v in w.active && u != v ==> w.active[u].tag != w.active[v].tag)
  }

  ghost predicate IsHome(w: World, q: string) { q in w.topo.broker.queues && !IsRetryName(q) }

  /** A message is in its home queue, or in a retry queue with its home queue as routing key. */
  ghost predicate InPlace(w: World, c: Copy, m: Held) {
    c.queue == m.home || (IsRetryName(c.queue) && c.queue in w.topo.broker.queues && m.key == m.home)
  }

  ghost predicate Placed(w: World) {
    forall c :: c in w.content ==>
      && c.publication < w.nextPublication && w.content[c].lid in w.arrived
      && IsHome(w, w.content[c].home) && InPlace(w, c, w.content[c])
  }

  ghost predicate LinkedTo(w: World, a: Active) {
    && a.copy.publication < w.nextPublication && a.lid in w.arrived
    && IsHome(w, a.home) && a.copy.queue == a.home && !MaxHit(a.acquired, w.cap)
    && (a.copy in w.content ==> w.content[a.copy].lid == a.lid && w.content[a.copy].home == a.home)
  }

  ghost predicate Linked(w: World) {
    forall u :: u in w.active ==> LinkedTo(w, w.active[u])
  }

  predicate Numbered(w: World) {
    (forall l :: l in w.arrived ==> l < w.nextPublication) && w.finished <= w.arrived
  }

  ghost predicate TopologyOk(w: World) {
    AllShaped(w.topo) && (!w.hindered ==> AllRemembered(w.topo))
  }

  function Min(m: int, n: int): int { if m < n then m else n }

  predicate CountedOnce(m: Held, cap: int) {
    m.acquired <= TWO_31 ==> m.delivered == Min(m.acquired, cap + 1)
  }

  /** The first cap + 1 acquisitions reach the client and no other does. */
  predicate Counted(w: World) {
    0 < w.cap < TWO_31 && forall c :: c in w.content ==> CountedOnce(w.content[c], w.cap)
  }

  predicate Tags(w: World) { TagsOnce(w) && ActiveTags(w) }

  ghost predicate Places(w: World) { Placed(w) && Linked(w) && Numbered(w) && TopologyOk(w) && Counted(w) }

  ghost predicate Inv(w: World) { Tags(w) && Places(w) }

  // What one dispatch is made of.

  /** Settling sends one attempt and touches none of the client's records. */
  lemma SettleSendsOnce(w: World, a: Active, verb: Verb, ok: bool)
    ensures var (w1, done) := Settle(w, a, verb, ok);
      && w1.attempts == w.attempts + [Attempt(a.tag, verb, done)] && done == (ok && Outstanding(w, a))
      && w1.active == w.active && w1.used == w.used && w1.nextTag == w.nextTag
  {
  }

  /** Closing a delivery also forgets it. */
  lemma CloseSendsOnce(w: World, uuid: string, verb: Verb, ok: bool)
    requires uuid in w.active
    ensures var (w1, done) := Close(w, uuid, verb, ok);
      && w1.attempts == w.attempts + [Attempt(w.active[uuid].tag, verb, done)]
      && done == (ok && Outstanding(w, w.active[uuid]))
      && w1.active == w.active - {uuid} && w1.used == w.used && w1.nextTag == w.nextTag
  {
    SettleSendsOnce(w, w.active[uuid], verb, ok);
  }

  lemma PublishTouchesNoRecord(w: World, n: string, key: string, a: Active, p: Publishing)
    ensures var w1 := Publish(w, n, key, a, p).0;
      && w1.active == w.active && w1.attempts == w.attempts && w1.used == w.used && w1.nextTag == w.nextTag
      && (a.copy.publication < w.nextPublication ==> Outstanding(w1, a) == Outstanding(w, a))
  {
  }

  lemma RepublishSendsOnce(w: World, n: string, key: string, uuid: string, f: Faults)
    requires uuid in w.active
    ensures var w1 := Republish(w, n, key, uuid, f);
      && w1.active == w.active - {uuid} && w1.used == w.used
      && |w1.attempts| == |w.attempts| + 1 && w1.attempts[|w.attempts|].tag == w.active[uuid].tag
      && w1.attempts[|w.attempts|].verb
         == (if n in w.topo.broker.exchanges && f.publish.Confirmed? then Moved else RequeueVerb(w, w.active[uuid]))
      && (w.active[uuid].copy.publication < w.nextPublication ==>
            w1.attempts[|w.attempts|].done == (f.settle && Outstanding(w, w.active[uuid])))
  {
    var a := w.active[uuid];
    var (w1, published) := Publish(w, n, key, a, f.publish);
    PublishTouchesNoRecord(w, n, key, a, f.publish);
    CloseSendsOnce(w1, uuid, if published then Moved else RequeueVerb(w, a), f.settle);
  }

  /** A retry gets as far as publishing: known from the client's record of the retry queue and what is refused. */
  predicate GetsToPublish(w: World, v: View, f: Faults) {
    f.client && (w.retryChannel || f.channel) && (v.knownBinding || f.declare.bind.channel)
  }

  lemma RetryGetsThrough(w: World, src: Source, uuid: string, delay: nat, f: Faults)
    ensures Retry(w, src, uuid, delay, f).1
      == (uuid in w.active && GetsToPublish(w, ViewOf(w.topo, RetryName(src.address.name, delay)), f))
  {
    var retry := RetrySource(src.address.name, delay);
    var t1 := ExchangeDeclared(w.topo, retry.address, f.declare.exchangeChannel, f.declare.exchange).0;
    var t2 := QueueDeclared(t1, retry, false, f.declare.queueChannel, f.declare.queue).0;
    assert t2.knownBindings == w.topo.knownBindings;
  }

  /** The original is acknowledged once the new copy is confirmed, and requeued otherwise. */
  function RetryVerb(w: World, src: Source, uuid: string, delay: nat, f: Faults): Verb
    requires uuid in w.active
  {
    var b := Prepared(w, src, delay, f).topo.broker;
    if RetryName(src.address.name, delay) in b.exchanges && f.publish.Confirmed? then Moved else RequeueVerb(w, w.active[uuid])
  }

  /** A retry that gets as far as publishing settles the delivery once; one that does not leaves it to the fallback. */
  lemma RetrySendsOnce(w: World, src: Source, uuid: string, delay: nat, f: Faults)
    requires uuid in w.active && f.client
    ensures var (w1, ok) := Retry(w, src, uuid, delay, f);
      var a, n := w.active[uuid], |w.attempts|;
      && w1.used == w.used
      && (!ok ==> w1.active == w.active && w1.attempts == w.attempts && w1.content == w.content)
      && (ok ==> w1.active == w.active - {uuid} && |w1.attempts| == n + 1 && w1.attempts[n].tag == a.tag)
      && (ok ==> w1.attempts[n].verb == RetryVerb(w, src, uuid, delay, f))
      && (ok && a.copy.publication < w.nextPublication ==> w1.attempts[n].done == (f.settle && Outstanding(w, a)))
  {
    if w.retryChannel || f.channel {
      var retry := RetrySource(src.address.name, delay);
      var (t, bound) := Declared(w.topo, retry, false, f.declare);
      var w1 := w.(topo := t, retryChannel := true, hindered := w.hindered || !Accepting(f.declare));
      if bound {
        RepublishSendsOnce(w1, retry.address.name, SourceName(src), uuid, f);
      }
    }
  }

  lemma CloseKeepsTags(w: World, uuid: string, verb: Verb, ok: bool)
    requires TagsOnce(w) && ActiveTags(w) && uuid in w.active
    ensures TagsOnce(Close(w, uuid, verb, ok).0) && ActiveTags(Close(w, uuid, verb, ok).0)
  {
  }

  lemma SettleKeepsPlaces(w: World, a: Active, verb: Verb, ok: bool)
    requires Places(w) && a.lid in w.arrived
    ensures Places(Settle(w, a, verb, ok).0)
  {
    var w1 := Settle(w, a, verb, ok).0;
    assert w1.content == w.content || w1.content == w.content - {a.copy}
        || (a.copy in w.content && w1.content == w.content[a.copy := w.content[a.copy].(unacked := None)]);
    SameContentKeepsPlaces(w, w1, a.copy);
  }

  /** Taking a message away, or taking it back from its consumer, keeps everything. */
  lemma SameContentKeepsPlaces(w: World, w1: World, c: Copy)
    requires Places(w)
    requires w1.content == w.content || w1.content == w.content - {c}
        || (c in w.content && w1.content == w.content[c := w.content[c].(unacked := None)])
    requires w1 == w.(content := w1.content, attempts := w1.attempts, finished := w1.finished, buried := w1.buried)
    requires w1.finished <= w.arrived
    ensures Places(w1)
  {
    forall x | x in w1.content ensures IsHome(w1, w1.content[x].home) && InPlace(w1, x, w1.content[x]) {
      assert IsHome(w, w.content[x].home) && InPlace(w, x, w.content[x]);
    }
    forall u | u in w1.active ensures LinkedTo(w1, w1.active[u]) {
      assert LinkedTo(w, w.active[u]);
    }
  }

  /** Forgetting a delivery keeps everything. */
  lemma ForgetKeeps(w: World, uuid: string)
    requires Places(w)
    ensures Places(w.(active := w.active - {uuid}))
  {
    var w1 := w.(active := w.active - {uuid});
    assert forall c :: c in w1.content ==> InPlace(w1, c, w1.content[c]) == InPlace(w, c, w.content[c]);
    forall u | u in w1.active ensures LinkedTo(w1, w1.active[u]) {
      assert LinkedTo(w, w.active[u]);
    }
  }

  lemma CloseKeeps(w: World, uuid: string, verb: Verb, ok: bool)
    requires Inv(w) && uuid in w.active
    ensures Inv(Close(w, uuid, verb, ok).0)
  {
    CloseKeepsTags(w, uuid, verb, ok);
    assert LinkedTo(w, w.active[uuid]);
    SettleKeepsPlaces(w, w.active[uuid], verb, ok);
    ForgetKeeps(Settle(w, w.active[uuid], verb, ok).0, uuid);
  }

  lemma StoredKeeps(w: World, queues: set<string>, m: Held)
    requires Inv(w) && m.acquired == m.delivered == 0 && m.lid in w.arrived + {w.nextPublication}
    requires IsHome(w, m.home) && forall q :: q in queues ==> InPlace(w, Copy(0, q), m)
    ensures Inv(Stored(w, queues, m).(arrived := w.arrived + {m.lid}))
  {
    var w1 := Stored(w, queues, m).(arrived := w.arrived + {m.lid});
    forall c | c in w1.content
      ensures c.publication < w1.nextPublication && w1.content[c].lid in w1.arrived
      ensures IsHome(w1, w1.content[c].home) && InPlace(w1, c, w1.content[c]) && CountedOnce(w1.content[c], w1.cap)
    {
      if c in w.content && c.publication < w.nextPublication {
        assert w1.content[c] == w.content[c];
        assert InPlace(w, c, w.content[c]);
      } else {
        assert w1.content[c] == m && InPlace(w, Copy(0, c.queue), m);
      }
    }
    forall u | u in w1.active ensures LinkedTo(w1, w1.active[u]) {
      assert LinkedTo(w, w.active[u]);
    }
  }

  // Topology changes.

  predicate QueuesGrow(t: Topology, t1: Topology) { t.broker.queues.Keys <= t1.broker.queues.Keys }

  lemma TopologyKeeps(w: World, t: Topology, channel: bool, hindered: bool)
    requires Inv(w) && QueuesGrow(w.topo, t) && AllShaped(t) && (!hindered ==> AllRemembered(t))
    ensures Inv(w.(topo := t, retryChannel := channel, hindered := hindered))
  {
    var w1 := w.(topo := t, retryChannel := channel, hindered := hindered);
    forall c | c in w1.content ensures IsHome(w1, w1.content[c].home) && InPlace(w1, c, w1.content[c]) {
      assert IsHome(w, w.content[c].home) && InPlace(w, c, w.content[c]);
    }
    forall u | u in w1.active ensures LinkedTo(w1, w1.active[u]) {
      assert LinkedTo(w, w.active[u]);
    }
  }

  /** A subscription leaves retry names alone. */
  lemma SubscribedElsewhere(t: Topology, src: Source, home: DeclareFaults, dead: DeclareFaults, n: string)
    requires Outsider(src) && IsRetryName(n)
    ensures ViewOf(Subscribed(t, src, home, dead).0, n) == ViewOf(t, n)
  {
    var t1 := ExchangeDeclared(t, src.address, home.exchangeChannel, home.exchange).0;
    OtherExchangeUntouched(t, src.address, home.exchangeChannel, home.exchange, n);
    var t2 := QueueDeclared(t1, src, true, home.queueChannel, home.queue).0;
    OtherQueueUntouched(t1, src, true, home.queueChannel, home.queue, n);
    var t3 := BindingDeclared(t2, src, true, home.bind).0;
    OtherBindingUntouched(t2, src, true, home.bind, n);
    if "DeadLetterAddress" in src.options {
      OtherNamesUntouched(t3, DeadLetterSource(src, src.options["DeadLetterAddress"]), true, dead, n);
    }
  }

  lemma SubscribeKeeps(w: World, src: Source, home: DeclareFaults, dead: DeclareFaults)
    requires Inv(w) && Outsider(src)
    ensures Inv(w.(topo := Subscribed(w.topo, src, home, dead).0))
  {
    var t := Subscribed(w.topo, src, home, dead).0;
    forall n | IsRetryName(n) ensures ViewOf(t, n) == ViewOf(w.topo, n) {
      SubscribedElsewhere(w.topo, src, home, dead, n);
    }
    OtherDeclaredKeeps(w.topo, t);
    SubscribedKeepsQueues(w.topo, src, home, dead);
    TopologyKeeps(w, t, w.retryChannel, w.hindered);
  }

  lemma ForeignKeeps(w: World, b: Broker)
    requires Inv(w) && Grows(w.topo, b)
    ensures Inv(w.(topo := w.topo.(broker := b)))
  {
    var t := w.topo.(broker := b);
    if !w.hindered {
      forall a: string, d: nat | IsDelay(d) ensures Remembered(ViewOf(t, RetryName(a, d)), RetryName(a, d)) {
        var n := RetryName(a, d);
        assert IsRetryName(n) && Remembered(ViewOf(w.topo, n), n);
        if ViewOf(w.topo, n).knownBinding && !Text.Contains(n, "amq.") {
          assert HashBinding(n) in ViewOf(w.topo, n).bindings;
        }
      }
    }
    TopologyKeeps(w, t, w.retryChannel, w.hindered);
  }

  /** A pending bind of a retry topology is the one that belongs there. */
  lemma TakesEffectKeeps(w: World, x: Binding)
    requires Inv(w) && x in w.topo.pending
    ensures Inv(w.(topo := InEffect(w.topo, x)))
  {
    var t := InEffect(w.topo, x);
    forall a: string, d: nat | IsDelay(d)
      ensures Shaped(ViewOf(t, RetryName(a, d)), RetryName(a, d), d)
      ensures !w.hindered ==> Remembered(ViewOf(t, RetryName(a, d)), RetryName(a, d))
    {
      var n := RetryName(a, d);
      assert Shaped(ViewOf(w.topo, n), n, d) && (!w.hindered ==> Remembered(ViewOf(w.topo, n), n));
      assert ViewOf(t, n).bindings + ViewOf(t, n).pending <= ViewOf(w.topo, n).bindings + ViewOf(w.topo, n).pending;
      assert ViewOf(w.topo, n).bindings <= ViewOf(t, n).bindings;
    }
    TopologyKeeps(w, t, w.retryChannel, w.hindered);
  }

  // Requests.

  /** The guard of a request: the message is settled on the stream that delivered it. */
  predicate Own(w: World, src: Source, uuid: string) {
    uuid in w.active ==> w.active[uuid].copy.queue == SourceName(src)
  }

  /** Where a retry's publication ends up. */
  lemma PublishGoesTo(w: World, n: string, key: string, a: Active)
    requires IsRetryName(n) && Inv(w) && LinkedTo(w, a) && key == a.home && n in w.topo.broker.exchanges
    ensures Route(w.topo.broker, n, key, map[])
      == if n in w.topo.broker.queues && HashBinding(n) in w.topo.broker.bindings then {n} else {}
    ensures forall q :: q in Route(w.topo.broker, n, key, map[]) ==> InPlace(w, Copy(0, q), Republished(a, key))
  {
    var address: string, c: nat :| IsDelay(c) && n == RetryName(address, c);
    var v := ViewOf(w.topo, RetryName(address, c));
    assert Shaped(v, n, c);
    forall x | x in w.topo.broker.bindings && x.exchange == n ensures x == HashBinding(n) {
      assert x in v.bindings;
    }
    RetryRoute(w.topo.broker, n, key);
  }

  lemma PublishKeeps(w: World, n: string, key: string, a: Active, p: Publishing)
    requires Inv(w) && IsRetryName(n) && LinkedTo(w, a) && key == a.home
    ensures Inv(Publish(w, n, key, a, p).0) && Publish(w, n, key, a, p).0.active == w.active
  {
    if n in w.topo.broker.exchanges && p != Unconfirmed(false) {
      PublishGoesTo(w, n, key, a);
      StoredKeeps(w, Route(w.topo.broker, n, key, map[]), Republished(a, key));
      assert w.arrived + {a.lid} == w.arrived;
    }
  }

  lemma DoubtKeeps(w: World, doubtful: bool)
    requires Inv(w)
    ensures Inv(w.(doubtful := doubtful))
  {
    var w1 := w.(doubtful := doubtful);
    assert forall c :: c in w1.content ==> InPlace(w1, c, w1.content[c]) == InPlace(w, c, w.content[c]);
    assert forall u :: u in w1.active ==> LinkedTo(w1, w1.active[u]) == LinkedTo(w, w.active[u]);
  }

  lemma RepublishKeeps(w: World, n: string, key: string, uuid: string, f: Faults)
    requires Inv(w) && IsRetryName(n) && uuid in w.active && key == w.active[uuid].home
    ensures Inv(Republish(w, n, key, uuid, f))
  {
    var a := w.active[uuid];
    assert LinkedTo(w, a);
    var (w1, published) := Publish(w, n, key, a, f.publish);
    PublishKeeps(w, n, key, a, f.publish);
    var verb := if published then Moved else RequeueVerb(w, a);
    var (w2, done) := Close(w1, uuid, verb, f.settle);
    CloseKeeps(w1, uuid, verb, f.settle);
    DoubtKeeps(w2, w.doubtful || !done || f.publish == Unconfirmed(true));
  }

  /** The world after a retry's declarations. */
  function Prepared(w: World, src: Source, delay: nat, f: Faults): World {
    w.(topo := Declared(w.topo, RetrySource(src.address.name, delay), false, f.declare).0,
       retryChannel := true, hindered := w.hindered || !Accepting(f.declare))
  }

  lemma PreparedKeeps(w: World, src: Source, delay: nat, f: Faults)
    requires Inv(w) && IsDelay(delay)
    ensures Inv(Prepared(w, src, delay, f))
  {
    RetryDeclaredKeeps(w.topo, src.address.name, delay, f.declare);
    DeclaredKeepsQueues(w.topo, RetrySource(src.address.name, delay), false, f.declare);
    TopologyKeeps(w, Prepared(w, src, delay, f).topo, true, w.hindered || !Accepting(f.declare));
  }

  lemma RetryKeeps(w: World, src: Source, uuid: string, delay: nat, f: Faults)
    requires Inv(w) && IsDelay(delay) && Own(w, src, uuid)
    ensures Inv(Retry(w, src, uuid, delay, f).0)
  {
    if f.client && uuid in w.active && (w.retryChannel || f.channel) {
      var n := RetryName(src.address.name, delay);
      assert IsRetryName(n);
      var w1 := Prepared(w, src, delay, f);
      PreparedKeeps(w, src, delay, f);
      assert LinkedTo(w, w.active[uuid]);
      RepublishKeeps(w1, n, SourceName(src), uuid, f);
    }
  }

  lemma NackKeeps(w: World, uuid: string, f: Faults)
    requires Inv(w)
    ensures Inv(Nack(w, uuid, f).0) && Inv(DeadLetter(w, uuid, f).0)
  {
    if f.client && uuid in w.active {
      CloseKeeps(w, uuid, Rejected, f.settle);
    }
  }

  lemma DispatchKeeps(w: World, src: Source, req: AckRequest, f: Faults)
    requires Inv(w) && req.delay < TWO_31 && Own(w, src, req.uuid)
    ensures Inv(Dispatch(w, src, req, f).0)
  {
    if req.uuid == "" {
    } else if req.nack && req.delay > 0 {
      RetryKeeps(w, src, req.uuid, req.delay, f);
      NackKeeps(Retry(w, src, req.uuid, req.delay, f).0, req.uuid, f);
    } else if req.nack {
      NackKeeps(w, req.uuid, f);
      NackKeeps(DeadLetter(w, req.uuid, f).0, req.uuid, f);
    } else if f.client && req.uuid in w.active {
      CloseKeeps(w, req.uuid, Acked, f.settle);
    }
  }

  // Other steps.

  /** Handing a message to a consumer. */
  lemma HandedOutKeeps(w: World, c: Copy, uuid: string)
    requires Places(w) && c in w.content && !IsRetryName(c.queue)
    ensures Places(HandedOut(w, c, uuid))
    ensures !MaxHit(Int64(w.content[c].acquired), w.cap) ==> LinkedTo(HandedOut(w, c, uuid), ActiveOf(w, c))
  {
    var w1, m := HandedOut(w, c, uuid), w.content[c];
    assert InPlace(w, c, m) && CountedOnce(m, w.cap);
    if m.acquired < TWO_31 {
      CapIsExactBelow(m.acquired, w.cap);
    }
    forall x | x in w1.content ensures InPlace(w1, x, w1.content[x]) {
      assert InPlace(w, x, w.content[x]);
    }
    forall u | u in w1.active ensures LinkedTo(w1, w1.active[u]) {
      assert LinkedTo(w, w.active[u]);
    }
  }

  lemma ActivateKeeps(w: World, uuid: string, a: Active)
    requires Places(w) && LinkedTo(w, a)
    ensures Places(w.(active := w.active[uuid := a]))
  {
    var w1 := w.(active := w.active[uuid := a]);
    assert forall c :: c in w1.content ==> InPlace(w1, c, w1.content[c]) == InPlace(w, c, w.content[c]);
    forall u | u in w1.active ensures LinkedTo(w1, w1.active[u]) {
      assert u != uuid ==> LinkedTo(w, w.active[u]);
    }
  }

  /** A tag that no delivery has yet. */
  predicate NewTag(w: World, tag: nat) {
    && tag < w.nextTag
    && (forall i :: 0 <= i < |w.attempts| ==> w.attempts[i].tag != tag)
    && (forall u :: u in w.active ==> w.active[u].tag != tag)
  }

  lemma AttemptKeepsTags(w: World, w1: World, x: Attempt)
    requires Tags(w) && NewTag(w, x.tag)
    requires w1.attempts == w.attempts + [x] && w1.active == w.active && w1.used == w.used && w1.nextTag == w.nextTag
    ensures Tags(w1)
  {
  }

  lemma DeliverKeepsTags(w: World, c: Copy, uuid: string, ok: bool)
    requires Tags(w) && c in w.content && uuid != "" && uuid !in w.used
    ensures Tags(Delivered(w, c, uuid, ok))
  {
    var a, w1 := ActiveOf(w, c), HandedOut(w, c, uuid);
    assert w1.attempts == w.attempts && w1.active == w.active;
    assert Tags(w1) && NewTag(w1, a.tag);
    if MaxHit(a.acquired, w.cap) {
      SettleSendsOnce(w1, a, Rejected, ok);
      var (w2, done) := Settle(w1, a, Rejected, ok);
      AttemptKeepsTags(w1, w2, Attempt(a.tag, Rejected, done));
    } else {
      assert uuid !in w.active;
    }
  }

  lemma DeliverKeeps(w: World, c: Copy, uuid: string, ok: bool)
    requires Places(w) && c in w.content && !IsRetryName(c.queue)
    ensures Places(Delivered(w, c, uuid, ok))
  {
    var a, w1 := ActiveOf(w, c), HandedOut(w, c, uuid);
    HandedOutKeeps(w, c, uuid);
    if MaxHit(a.acquired, w.cap) {
      SettleKeepsPlaces(w1, a, Rejected, ok);
    } else {
      ActivateKeeps(w1, uuid, a);
    }
  }

  lemma TakenBackKeeps(w: World, tags: set<nat>)
    requires Places(w)
    ensures Places(w.(content := TakenBack(w.content, tags)))
  {
    var w1 := w.(content := TakenBack(w.content, tags));
    forall c | c in w1.content ensures InPlace(w1, c, w1.content[c]) {
      assert InPlace(w, c, w.content[c]);
    }
    forall u | u in w1.active ensures LinkedTo(w1, w1.active[u]) {
      assert LinkedTo(w, w.active[u]);
    }
  }

  /** What the client no longer remembers cannot mislead it. */
  lemma ForgottenIsRemembered(t: Topology)
    requires AllShaped(t)
    ensures AllShaped(Topology(t.broker, t.pending, {}, {}, {})) && AllRemembered(Topology(t.broker, t.pending, {}, {}, {}))
  {
    var t1 := Topology(t.broker, t.pending, {}, {}, {});
    forall a: string, d: nat | IsDelay(d)
      ensures Shaped(ViewOf(t1, RetryName(a, d)), RetryName(a, d), d)
      ensures Remembered(ViewOf(t1, RetryName(a, d)), RetryName(a, d))
    {
      assert Shaped(ViewOf(t, RetryName(a, d)), RetryName(a, d), d);
    }
  }

  lemma ReconnectedKeeps(w: World)
    requires Inv(w)
    ensures Inv(Step(w, Reconnected).value)
  {
    var w1 := w.(content := TakenBack(w.content, AllTags(w.content)));
    TakenBackKeeps(w, AllTags(w.content));
    var w2 := w1.(active := map[]);
    assert Placed(w2) by {
      assert forall c :: c in w2.content ==> InPlace(w2, c, w2.content[c]) == InPlace(w1, c, w1.content[c]);
    }
    assert Places(w2);
    ForgottenIsRemembered(w.topo);
    TopologyKeeps(w2, Topology(w.topo.broker, w.topo.pending, {}, {}, {}), false, w.hindered);
  }

  /** A message that expires in a retry queue is back in its home queue, and nowhere else. */
  lemma ExpiryReturnsHome(w: World, c: Copy)
    requires Inv(w) && Step(w, Expire(c)).Some?
    ensures Step(w, Expire(c)) == Some(Stored(w.(content := w.content - {c}), {w.content[c].home},
                                              w.content[c].(acquired := 0, delivered := 0)))
    ensures IsHome(w, w.content[c].home)
  {
    var m := w.content[c];
    assert InPlace(w, c, m) && IsHome(w, m.home);
    var address: string, d: nat :| IsDelay(d) && c.queue == RetryName(address, d);
    assert Shaped(ViewOf(w.topo, RetryName(address, d)), RetryName(address, d), d);
    ExpiryRoute(w.topo.broker, d, m.key, map[]);
  }

  lemma RemovedKeeps(w: World, c: Copy)
    requires Places(w)
    ensures Places(w.(content := w.content - {c}))
  {
    var w1 := w.(content := w.content - {c});
    assert forall x :: x in w1.content ==> InPlace(w1, x, w1.content[x]) == InPlace(w, x, w.content[x]);
    forall u | u in w1.active ensures LinkedTo(w1, w1.active[u]) {
      assert LinkedTo(w, w.active[u]);
    }
  }

  lemma ExpireKeeps(w: World, c: Copy)
    requires Inv(w) && Step(w, Expire(c)).Some?
    ensures Inv(Step(w, Expire(c)).value)
  {
    var m, w1 := w.content[c], w.(content := w.content - {c});
    ExpiryReturnsHome(w, c);
    RemovedKeeps(w, c);
    assert m.lid in w.arrived && w1.arrived + {m.lid} == w1.arrived;
    StoredKeeps(w1, {m.home}, m.(acquired := 0, delivered := 0));
  }

  lemma StepKeeps(w: World, e: Event)
    requires Inv(w) && Step(w, e).Some?
    ensures Inv(Step(w, e).value)
  {
    match e
    case Arrive(q, key, retries) => StoredKeeps(w, {q}, Arrived(w.nextPublication, q, key, retries));
    case Subscribe(src, home, dead) => SubscribeKeeps(w, Subscribing(src), home, dead);
    case Foreign(b) => ForeignKeeps(w, b);
    case TakesEffect(x) => TakesEffectKeeps(w, x);
    case Deliver(c, uuid, ok) => DeliverKeepsTags(w, c, uuid, ok); DeliverKeeps(w, c, uuid, ok);
    case Request(src, req, f) => DispatchKeeps(w, src, req, f);
    case ChannelClosed(tags) => TakenBackKeeps(w, tags);
    case Reconnected => ReconnectedKeeps(w);
    case Expire(c) => ExpireKeeps(w, c);
  }

  lemma {:induction false} RunKeeps(w: World, es: seq<Event>)
    requires Inv(w) && Exec(Step, w, es).Some?
    ensures Inv(Exec(Step, w, es).value)
    decreases |es|
  {
    if es != [] {
      StepKeeps(w, es[0]);
      RunKeeps(Step(w, es[0]).value, es[1..]);
    }
  }

  lemma InitialHolds(w: World)
    requires Initial(w)
    ensures Inv(w)
  {
  }

  // Theorems about every run.

  /** Each delivery tag is settled at most once, even counting attempts that fail; active uuids hold distinct unsettled tags. */
  lemma SettledAtMostOnce(w0: World, es: seq<Event>, w: World)
    requires Reaches(w0, es, w)
    ensures TagsOnce(w) && ActiveTags(w)
  {
    InitialHolds(w0);
    RunKeeps(w0, es);
  }

  /** A request for an unknown or empty uuid is answered with failure and touches nothing. */
  lemma UnknownIsInert(w: World, src: Source, req: AckRequest, f: Faults)
    requires req.uuid == "" || req.uuid !in w.active
    ensures Dispatch(w, src, req, f) == (w, false)
  {
  }

  /** How a dispatch settles: an ack, a rejection, or for a retry that gets as far as publishing a move or a requeue. */
  function VerbFor(w: World, src: Source, req: AckRequest, f: Faults): Verb
    requires req.uuid in w.active
  {
    if !req.nack then Acked
    else if req.delay <= 0 || !GetsToPublish(w, ViewOf(w.topo, RetryName(src.address.name, req.delay)), f) then Rejected
    else RetryVerb(w, src, req.uuid, req.delay, f)
  }

  /** The dispatch takes one of the paths that answer Success whatever came of settling. */
  predicate AnswersBlindly(w: World, src: Source, req: AckRequest, f: Faults) {
    && req.nack
    && if req.delay > 0 then GetsToPublish(w, ViewOf(w.topo, RetryName(src.address.name, req.delay)), f)
       else "DeadLetterAddress" in src.options
  }

  /** What a dispatch does for a delivery that is active: it settles it once and forgets it. */
  lemma DispatchSendsOnce(w: World, src: Source, req: AckRequest, f: Faults)
    requires req.uuid in w.active && req.uuid != "" && f.client
    ensures var (w1, success) := Dispatch(w, src, req, f);
      var a, n := w.active[req.uuid], |w.attempts|;
      var done := f.settle && Outstanding(w, a);
      && w1.active == w.active - {req.uuid} && w1.used == w.used
      && |w1.attempts| == n + 1 && w1.attempts[n].tag == a.tag && w1.attempts[n].verb == VerbFor(w, src, req, f)
      && (a.copy.publication < w.nextPublication ==> w1.attempts[n].done == done)
      && success == (done || AnswersBlindly(w, src, req, f))
  {
    if req.nack && req.delay > 0 {
      RetryGetsThrough(w, src, req.uuid, req.delay, f);
      RetrySendsOnce(w, src, req.uuid, req.delay, f);
      var (w1, ok) := Retry(w, src, req.uuid, req.delay, f);
      if !ok {
        CloseSendsOnce(w1, req.uuid, Rejected, f.settle);
      }
    } else {
      CloseSendsOnce(w, req.uuid, if req.nack then Rejected else Acked, f.settle);
    }
  }

  /** Whatever fails and whatever fallback is taken, a handled uuid is no longer active, and no other uuid is affected. */
  lemma DispatchHandlesOne(w: World, src: Source, req: AckRequest, f: Faults)
    requires ActiveTags(w)
    ensures Dispatch(w, src, req, f).0.active == if f.client then w.active - {req.uuid} else w.active
    ensures Dispatch(w, src, req, f).0.used == w.used
  {
    if req.uuid == "" || req.uuid !in w.active {
      assert req.uuid !in w.active;
      UnknownIsInert(w, src, req, f);
    } else if f.client {
      DispatchSendsOnce(w, src, req, f);
    }
  }

  lemma StepHandlesForGood(w: World, e: Event, uuid: string)
    requires uuid in w.used && uuid !in w.active && Step(w, e).Some?
    ensures uuid in Step(w, e).value.used && uuid !in Step(w, e).value.active
  {
    if e.Request? {
      var req := e.req;
      if req.uuid == "" || req.uuid !in w.active {
        UnknownIsInert(w, e.src, req, e.f);
      } else if e.f.client {
        DispatchSendsOnce(w, e.src, req, e.f);
      }
    } else if e.Deliver? {
      SettleSendsOnce(HandedOut(w, e.copy, e.uuid), ActiveOf(w, e.copy), Rejected, e.ok);
    }
  }

  /** A uuid that has been handled, or dropped by a reconnect, never becomes active again. */
  lemma {:induction false} HandledStaysHandled(w: World, es: seq<Event>, uuid: string)
    requires uuid in w.used && uuid !in w.active && Exec(Step, w, es).Some?
    ensures uuid !in Exec(Step, w, es).value.active
    decreases |es|
  {
    if es != [] {
      StepHandlesForGood(w, es[0], uuid);
      HandledStaysHandled(Step(w, es[0]).value, es[1..], uuid);
    }
  }

  /** A uuid handed out before a reconnect is never settled afterwards: every later request for it is refused and inert. */
  lemma ReconnectForgets(w: World, es: seq<Event>, w1: World, src: Source, req: AckRequest, f: Faults)
    requires Exec(Step, w, [Reconnected] + es) == Some(w1) && req.uuid in w.used
    ensures Dispatch(w1, src, req, f) == (w1, false)
  {
    var run := [Reconnected] + es;
    assert run[0] == Reconnected && run[1..] == es;
    var cleared := Step(w, Reconnected).value;
    HandledStaysHandled(cleared, es, req.uuid);
    UnknownIsInert(w1, src, req, f);
  }

  /** Of the first 2^31 acquisitions of a broker message exactly the first cap + 1 reach the client. */
  lemma DeliveriesAreCapped(w0: World, es: seq<Event>, w: World, c: Copy)
    requires Reaches(w0, es, w) && c in w.content && w.content[c].acquired <= TWO_31
    ensures w.content[c].delivered == Min(w.content[c].acquired, w.cap + 1)
  {
    InitialHolds(w0);
    RunKeeps(w0, es);
    assert CountedOnce(w.content[c], w.cap);
  }

  /** The cap inside Nack(true) never fires for a message that reached the client, so a failed retry really requeues. */
  lemma RequeueIsHonoured(w0: World, es: seq<Event>, w: World, uuid: string)
    requires Reaches(w0, es, w) && uuid in w.active
    ensures RequeueVerb(w, w.active[uuid]) == Requeued
  {
    InitialHolds(w0);
    RunKeeps(w0, es);
    assert LinkedTo(w, w.active[uuid]);
  }

  /** ... and for one that is over the cap it would: a requeue of it is a rejection. */
  lemma OverTheCapIsRejected(w: World, a: Active, n: nat)
    requires a.acquired == Int64(n) && n < TWO_31 && w.cap >= 0
    ensures RequeueVerb(w, a) == if n > w.cap then Rejected else Requeued
  {
    CapIsExactBelow(n, w.cap);
  }

  /**
   The response says Success although the broker did not settle the delivery if and only if the settlement failed
   on the dead letter path, or after a delayed retry got as far as publishing.
   */
  lemma SuccessIsBlindIff(w0: World, es: seq<Event>, w: World, src: Source, req: AckRequest, f: Faults)
    requires Reaches(w0, es, w) && req.uuid in w.active && f.client
    ensures var (w1, success) := Dispatch(w, src, req, f);
      var n := |w.attempts|;
      && |w1.attempts| == n + 1
      && ((success && !w1.attempts[n].done) <==>
            (!(f.settle && Outstanding(w, w.active[req.uuid])) && AnswersBlindly(w, src, req, f)))
  {
    InitialHolds(w0);
    RunKeeps(w0, es);
    assert LinkedTo(w, w.active[req.uuid]);
    DispatchSendsOnce(w, src, req, f);
  }

  // The retry count over a run.

  predicate HeaderTrue(retries: HeaderValue, trail: Trail) { retries == BumpedTimes(trail.first, trail.hops) }

  predicate HeadersTrue(w: World) {
    && (forall c :: c in w.content ==> HeaderTrue(w.content[c].retries, w.content[c].trail))
    && (forall u :: u in w.active ==> HeaderTrue(w.active[u].retries, w.active[u].trail))
  }

  lemma CloseKeepsHeaders(w: World, uuid: string, verb: Verb, ok: bool)
    requires HeadersTrue(w) && uuid in w.active
    ensures HeadersTrue(Close(w, uuid, verb, ok).0)
  {
  }

  lemma StoredKeepsHeaders(w: World, queues: set<string>, m: Held)
    requires HeadersTrue(w) && HeaderTrue(m.retries, m.trail)
    ensures HeadersTrue(Stored(w, queues, m))
  {
  }

  lemma RepublishKeepsHeaders(w: World, n: string, key: string, uuid: string, f: Faults)
    requires HeadersTrue(w) && uuid in w.active
    ensures HeadersTrue(Republish(w, n, key, uuid, f))
  {
    var a := w.active[uuid];
    var (w1, published) := Publish(w, n, key, a, f.publish);
    PublishTouchesNoRecord(w, n, key, a, f.publish);
    assert HeaderTrue(Republished(a, key).retries, Republished(a, key).trail);
    StoredKeepsHeaders(w, Route(w.topo.broker, n, key, map[]), Republished(a, key));
    assert HeadersTrue(w1);
    CloseKeepsHeaders(w1, uuid, if published then Moved else RequeueVerb(w, a), f.settle);
  }

  lemma RetryKeepsHeaders(w: World, src: Source, uuid: string, delay: nat, f: Faults)
    requires HeadersTrue(w)
    ensures HeadersTrue(Retry(w, src, uuid, delay, f).0)
  {
    if f.client && uuid in w.active && (w.retryChannel || f.channel) {
      var w1 := Prepared(w, src, delay, f);
      assert HeadersTrue(w1);
      RepublishKeepsHeaders(w1, RetryName(src.address.name, delay), SourceName(src), uuid, f);
    }
  }

  lemma NackKeepsHeaders(w: World, uuid: string, f: Faults)
    requires HeadersTrue(w)
    ensures HeadersTrue(Nack(w, uuid, f).0) && HeadersTrue(DeadLetter(w, uuid, f).0)
  {
    if f.client && uuid in w.active {
      CloseKeepsHeaders(w, uuid, Rejected, f.settle);
    }
  }

  lemma DispatchKeepsHeaders(w: World, src: Source, req: AckRequest, f: Faults)
    requires HeadersTrue(w)
    ensures HeadersTrue(Dispatch(w, src, req, f).0)
  {
    if req.uuid == "" {
    } else if req.nack && req.delay > 0 {
      RetryKeepsHeaders(w, src, req.uuid, req.delay, f);
      NackKeepsHeaders(Retry(w, src, req.uuid, req.delay, f).0, req.uuid, f);
    } else if req.nack {
      NackKeepsHeaders(w, req.uuid, f);
      NackKeepsHeaders(DeadLetter(w, req.uuid, f).0, req.uuid, f);
    } else if f.client && req.uuid in w.active {
      CloseKeepsHeaders(w, req.uuid, Acked, f.settle);
    }
  }

  lemma DeliverKeepsHeaders(w: World, c: Copy, uuid: string, ok: bool)
    requires HeadersTrue(w) && c in w.content
    ensures HeadersTrue(Delivered(w, c, uuid, ok))
  {
    assert HeadersTrue(HandedOut(w, c, uuid));
  }

  lemma StepKeepsHeaders(w: World, e: Event)
    requires HeadersTrue(w) && Step(w, e).Some?
    ensures HeadersTrue(Step(w, e).value)
  {
    match e
    case Arrive(q, key, retries) => StoredKeepsHeaders(w, {q}, Arrived(w.nextPublication, q, key, retries));
    case Deliver(c, uuid, ok) => DeliverKeepsHeaders(w, c, uuid, ok);
    case Request(src, req, f) => DispatchKeepsHeaders(w, src, req, f);
    case Expire(c) =>
      var m := w.content[c];
      StoredKeepsHeaders(w.(content := w.content - {c}),
                         DeadLetterRoute(w.topo.broker, w.topo.broker.queues[c.queue], m.key, map[]),
                         m.(acquired := 0, delivered := 0));
    case _ =>
  }

  lemma {:induction false} RunKeepsHeaders(w: World, es: seq<Event>)
    requires HeadersTrue(w) && Exec(Step, w, es).Some?
    ensures HeadersTrue(Exec(Step, w, es).value)
    decreases |es|
  {
    if es != [] {
      StepKeepsHeaders(w, es[0]);
      RunKeepsHeaders(Step(w, es[0]).value, es[1..]);
    }
  }

  /**
   Over every run x-retry-count is exact: after `hops` retry publications on the way of a message it is the count the
   message arrived with, plus `hops`, as an int32.
   */
  lemma RetryCountOverRuns(w0: World, es: seq<Event>, w: World, c: Copy)
    requires Reaches(w0, es, w) && c in w.content
    ensures var m := w.content[c];
      m.retries == if m.trail.hops == 0 then m.trail.first else Int32(ToInt32(StartCount(m.trail.first) + m.trail.hops))
  {
    RunKeepsHeaders(w0, es);
    var m := w.content[c];
    assert HeaderTrue(m.retries, m.trail);
    if m.trail.hops > 0 {
      RetryCountIsExact(m.trail.first, m.trail.hops);
    }
  }
}
