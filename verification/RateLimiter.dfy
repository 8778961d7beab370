/**
 Per-client token buckets in a map that evicts idle clients
 (internal/server/ratelimiter/ratelimiter.go). Times are integer nanoseconds and
 one token is worth `fillInterval` units, so the bucket arithmetic is exact.
 */
module RateLimiter {
  import opened Wrappers

  const SECOND := 1_000_000_000

  datatype Config = Config(bucketSize: int, fillInterval: int, maxAge: int, enforced: bool) {
    /** The check of NewClientLimitManager. */
    predicate Ok() { bucketSize > 0 && fillInterval > 0 && maxAge > 0 }

    /** Scaled content of a full bucket. */
    function Full(): int { bucketSize * fillInterval }
  }

  datatype Bucket = Bucket(tokens: int, last: int)
  datatype ClientLimiter = ClientLimiter(limiter: Bucket, lastConnectionTime: int)
  type Clients = map<string, ClientLimiter>

  /** Whole seconds of a duration, truncated toward zero as int(d.Seconds()) is. */
  function Seconds(d: int): int {
    if d >= 0 then d / SECOND else -((-d) / SECOND)
  }

  /** Tokens in the bucket at `now`; a clock that steps back adds none. */
  function Available(cfg: Config, b: Bucket, now: int): int {
    var grown := b.tokens + if now > b.last then now - b.last else 0;
    if grown > cfg.Full() then cfg.Full() else grown
  }

  /** rate.Limiter.Allow: take one token, or leave the bucket untouched. */
  function Allow(cfg: Config, b: Bucket, now: int): (bool, Bucket) {
    var v := Available(cfg, b, now);
    if v >= cfg.fillInterval then (true, Bucket(v - cfg.fillInterval, now)) else (false, b)
  }

  /** The bucket a request of `key` is charged to: a fresh one is full. */
  function BucketOf(cfg: Config, clients: Clients, key: string, now: int): Bucket {
    if key in clients then clients[key].limiter else Bucket(cfg.Full(), now)
  }

  function Charge(cfg: Config, clients: Clients, key: string, now: int): (bool, Clients) {
    var (ok, b) := Allow(cfg, BucketOf(cfg, clients, key, now), now);
    (ok, clients[key := ClientLimiter(b, now)])
  }

  /** Whether the bucket allows a request, and the map afterwards. An unidentified caller is not limited when enforcing. */
  function Decide(cfg: Config, clients: Clients, id: Option<string>, now: int): (bool, Clients) {
    if id.None? && cfg.enforced then (true, clients)
    else Charge(cfg, clients, if id.Some? then id.value else "", now)
  }

  predicate Stale(cfg: Config, c: ClientLimiter, now: int) {
    Seconds(now - c.lastConnectionTime) > Seconds(cfg.maxAge)
  }

  function Culled(cfg: Config, clients: Clients, now: int): Clients {
    map k | k in clients && !Stale(cfg, clients[k], now) :: clients[k]
  }

  class ClientLimitManager {
    const cfg: Config
    var clients: Clients

    constructor (cfg: Config)
      requires cfg.Ok()
      ensures this.cfg == cfg && clients == map[]
    {
      this.cfg, clients := cfg, map[];
    }

    /** Limit: true means the request may proceed, false is ErrTooManyRequests. */
    method Limit(id: Option<string>, now: int) returns (admitted: bool)
      modifies this
      ensures clients == Decide(cfg, old(clients), id, now).1
      ensures admitted <==> !cfg.enforced || Decide(cfg, old(clients), id, now).0
      ensures id.None? ==> admitted
      ensures id.None? && cfg.enforced ==> clients == old(clients)
      ensures !(id.None? && cfg.enforced) ==>
        var key := if id.Some? then id.value else "";
        && clients.Keys == old(clients).Keys + {key} && clients[key].lastConnectionTime == now
        && (key in old(clients) && !Decide(cfg, old(clients), id, now).0 ==> clients[key].limiter == old(clients)[key].limiter)
        && forall other :: other in old(clients) && other != key ==> clients[other] == old(clients)[other]
    {
      if id.None? && cfg.enforced {
        return true;
      }
      var key := if id.Some? then id.value else "";
      var limiter := Bucket(cfg.Full(), now);
      if key in clients {
        limiter := clients[key].limiter;
      }
      var (allowed, after) := Allow(cfg, limiter, now);
      clients := clients[key := ClientLimiter(after, now)];
      if !allowed && cfg.enforced {
        return false;
      }
      return true;
    }

    /** cullStaleClients: walk a snapshot of the keys and delete what has been idle too long. */
    method CullStaleClients(now: int)
      modifies this
      ensures clients == Culled(cfg, old(clients), now)
    {
      var todo := clients.Keys;
      while todo != {}
        invariant todo <= clients.Keys <= old(clients).Keys
        invariant forall k :: k in clients ==> clients[k] == old(clients)[k]
        invariant forall k :: k in old(clients) && k !in todo ==>
          (k in clients <==> !Stale(cfg, old(clients)[k], now))
        decreases todo
      {
        var clientID :| clientID in todo;
        todo := todo - {clientID};
        if clientID in clients {
          var lastSeconds := Seconds(now - clients[clientID].lastConnectionTime);
          var maxSeconds := Seconds(cfg.maxAge);
          if lastSeconds > maxSeconds {
            clients := clients - {clientID};
          }
        }
      }
    }
  }

  /** NewClientLimitManager refuses any parameter that is not positive. */
  method NewClientLimitManager(cfg: Config) returns (clm: ClientLimitManager?)
    ensures clm != null <==> cfg.Ok()
    ensures clm != null ==> fresh(clm) && clm.cfg == cfg && clm.clients == map[]
  {
    if cfg.bucketSize <= 0 || cfg.fillInterval <= 0 || cfg.maxAge <= 0 {
      return null;
    }
    clm := new ClientLimitManager(cfg);
  }

  // Runs: requests and culls at times that never go back.

  datatype Event = Request(id: Option<string>, now: int) | Cull(now: int)

  /** Times start at `from` and never go back. */
  predicate Ordered(es: seq<Event>, from: int) {
    && (forall i :: 0 <= i < |es| ==> from <= es[i].now)
    && (forall i, j :: 0 <= i < j < |es| ==> es[i].now <= es[j].now)
  }

  function StepMap(cfg: Config, clients: Clients, e: Event, culling: bool): Clients {
    match e
    case Request(id, now) => Decide(cfg, clients, id, now).1
    case Cull(now) => if culling then Culled(cfg, clients, now) else clients
  }

  function StepDecision(cfg: Config, clients: Clients, e: Event): seq<bool> {
    if e.Request? then [Decide(cfg, clients, e.id, e.now).0] else []
  }

  /** The bucket decisions of a run, with culling on or off. */
  function Decisions(cfg: Config, clients: Clients, es: seq<Event>, culling: bool): seq<bool>
    decreases |es|
  {
    if es == [] then []
    else StepDecision(cfg, clients, es[0]) + Decisions(cfg, StepMap(cfg, clients, es[0], culling), es[1..], culling)
  }

  function Final(cfg: Config, clients: Clients, es: seq<Event>, culling: bool): Clients
    decreases |es|
  {
    if es == [] then clients else Final(cfg, StepMap(cfg, clients, es[0], culling), es[1..], culling)
  }

  /** 1 for a request of `key` in the window [lo, hi] that an enforcing limiter lets through. */
  function Counts(cfg: Config, clients: Clients, e: Event, key: string, lo: int, hi: int): nat {
    if e.Request? && e.id == Some(key) && lo <= e.now <= hi && Decide(cfg, clients, e.id, e.now).0 then 1 else 0
  }

  /** How many requests of `key` a run admits in the window [lo, hi]. */
  function Admitted(cfg: Config, clients: Clients, es: seq<Event>, key: string, lo: int, hi: int): nat
    decreases |es|
  {
    if es == [] then 0
    else Counts(cfg, clients, es[0], key, lo, hi) + Admitted(cfg, StepMap(cfg, clients, es[0], true), es[1..], key, lo, hi)
  }

  /** Idle time after which a client is certain to be evicted by the next cull. */
  function EvictionAge(cfg: Config): int { (Seconds(cfg.maxAge) + 1) * SECOND }

  /** An evicted client's bucket had time to fill: the condition under which eviction cannot be noticed. */
  predicate EvictsOnlyFull(cfg: Config) { EvictionAge(cfg) >= cfg.Full() }

  ghost predicate Valid(cfg: Config, clients: Clients, t: int) {
    forall k :: k in clients ==>
      && 0 <= clients[k].limiter.tokens <= cfg.Full()
      && clients[k].limiter.last <= clients[k].lastConnectionTime <= t
  }

  /** The evicting map is a cache of the other one: what it lacks is full by now. */
  ghost predicate Caches(cfg: Config, cached: Clients, kept: Clients, t: int) {
    && (forall k :: k in cached ==> k in kept && cached[k] == kept[k])
    && (forall k :: k in kept && k !in cached ==> Available(cfg, kept[k].limiter, t) == cfg.Full())
  }

  lemma StepValid(cfg: Config, clients: Clients, e: Event, culling: bool, t: int)
    requires cfg.Ok() && Valid(cfg, clients, t) && t <= e.now
    ensures Valid(cfg, StepMap(cfg, clients, e, culling), e.now)
  {
  }

  lemma StaleIsFull(cfg: Config, c: ClientLimiter, now: int)
    requires cfg.Ok() && EvictsOnlyFull(cfg) && Stale(cfg, c, now)
    requires 0 <= c.limiter.tokens && c.limiter.last <= c.lastConnectionTime <= now
    ensures Available(cfg, c.limiter, now) == cfg.Full()
  {
    assert now - c.lastConnectionTime >= EvictionAge(cfg);
  }

  /** Charging one key keeps the maps in step: a key the cache lacks gets the full bucket it has in the other map. */
  lemma ChargeCaches(cfg: Config, cached: Clients, kept: Clients, key: string, now: int)
    requires cfg.Ok() && Valid(cfg, kept, now) && Caches(cfg, cached, kept, now)
    ensures Charge(cfg, cached, key, now).0 == Charge(cfg, kept, key, now).0
    ensures Caches(cfg, Charge(cfg, cached, key, now).1, Charge(cfg, kept, key, now).1, now)
  {
    Distribute(cfg.bucketSize - 1, 1, cfg.fillInterval);
  }

  lemma CullCaches(cfg: Config, cached: Clients, kept: Clients, now: int)
    requires cfg.Ok() && EvictsOnlyFull(cfg) && Valid(cfg, kept, now) && Caches(cfg, cached, kept, now)
    ensures Caches(cfg, Culled(cfg, cached, now), kept, now)
  {
    forall k | k in cached && Stale(cfg, cached[k], now)
      ensures Available(cfg, kept[k].limiter, now) == cfg.Full()
    {
      StaleIsFull(cfg, cached[k], now);
    }
  }

  lemma StepCaches(cfg: Config, cached: Clients, kept: Clients, e: Event, t: int)
    requires cfg.Ok() && EvictsOnlyFull(cfg) && t <= e.now
    requires Valid(cfg, kept, t) && Caches(cfg, cached, kept, t)
    ensures StepDecision(cfg, cached, e) == StepDecision(cfg, kept, e)
    ensures Caches(cfg, StepMap(cfg, cached, e, true), StepMap(cfg, kept, e, false), e.now)
  {
    assert Caches(cfg, cached, kept, e.now);
    match e
    case Cull(now) => CullCaches(cfg, cached, kept, now);
    case Request(id, now) => ChargeCaches(cfg, cached, kept, if id.Some? then id.value else "", now);
  }

  lemma {:induction false} CachingInvisible(cfg: Config, cached: Clients, kept: Clients, es: seq<Event>, t: int)
    requires cfg.Ok() && EvictsOnlyFull(cfg) && Ordered(es, t)
    requires Valid(cfg, kept, t) && Caches(cfg, cached, kept, t)
    ensures Decisions(cfg, cached, es, true) == Decisions(cfg, kept, es, false)
    decreases |es|
  {
    if es != [] {
      StepValid(cfg, kept, es[0], false, t);
      StepCaches(cfg, cached, kept, es[0], t);
      CachingInvisible(cfg, StepMap(cfg, cached, es[0], true), StepMap(cfg, kept, es[0], false), es[1..], es[0].now);
    }
  }

  lemma Distribute(a: int, b: int, c: int)
    ensures (a + b) * c == a * c + b * c
    ensures a == 0 ==> a * c == 0
    ensures a == 1 ==> a * c == c
  {
  }

  /** What `key` can spend at `t`: a client without an entry has a full bucket. */
  function Credit(cfg: Config, clients: Clients, key: string, t: int): int {
    Available(cfg, BucketOf(cfg, clients, key, t), t)
  }

  lemma CreditGrows(cfg: Config, clients: Clients, key: string, t: int, now: int)
    requires cfg.Ok() && Valid(cfg, clients, t) && t <= now
    ensures 0 <= Credit(cfg, clients, key, now) <= Credit(cfg, clients, key, t) + (now - t)
  {
    Distribute(cfg.bucketSize - 1, 1, cfg.fillInterval);
  }

  /** A request is paid from the bucket of its own key; nobody else's credit changes. */
  lemma RequestIsPaid(cfg: Config, clients: Clients, id: Option<string>, key: string, now: int)
    requires cfg.Ok() && Valid(cfg, clients, now)
    ensures Credit(cfg, Decide(cfg, clients, id, now).1, key, now)
      + (if id == Some(key) && Decide(cfg, clients, id, now).0 then cfg.fillInterval else 0)
      <= Credit(cfg, clients, key, now)
  {
    CreditGrows(cfg, clients, key, now, now);
  }

  /** One step of the potential argument: what a step admits is paid from the bucket or from the time that passed. */
  lemma StepIsPaid(cfg: Config, clients: Clients, e: Event, key: string, lo: int, hi: int, t: int)
    requires cfg.Ok() && EvictsOnlyFull(cfg) && Valid(cfg, clients, t) && t <= e.now
    ensures Credit(cfg, StepMap(cfg, clients, e, true), key, e.now)
      + (if Counts(cfg, clients, e, key, lo, hi) == 1 then cfg.fillInterval else 0)
      <= Credit(cfg, clients, key, t) + (e.now - t)
  {
    CreditGrows(cfg, clients, key, t, e.now);
    if e.Request? {
      RequestIsPaid(cfg, clients, e.id, key, e.now);
    } else if key in clients && Stale(cfg, clients[key], e.now) {
      StaleIsFull(cfg, clients[key], e.now);
    }
  }

  /** Adding up one step and the rest of the run. */
  lemma PayForOneMore(count: nat, rest: nat, interval: int, creditNow: int, creditNext: int, now: int, next: int, hi: int)
    requires count <= 1 && interval > 0
    requires creditNext + (if count == 1 then interval else 0) <= creditNow + (next - now)
    requires rest * interval <= creditNext + (hi - next)
    ensures (count + rest) * interval <= creditNow + (hi - now)
  {
    Distribute(count, rest, interval);
  }

  /** Tokens at hand plus tokens still to come pay for every admission. */
  lemma {:induction false} AdmissionsArePaid(cfg: Config, clients: Clients, es: seq<Event>, key: string, lo: int, hi: int, t: int)
    requires cfg.Ok() && EvictsOnlyFull(cfg) && Ordered(es, t) && Valid(cfg, clients, t)
    requires lo <= t <= hi
    ensures Admitted(cfg, clients, es, key, lo, hi) * cfg.fillInterval <= Credit(cfg, clients, key, t) + (hi - t)
    decreases |es|
  {
    if es == [] {
      CreditGrows(cfg, clients, key, t, t);
    } else if es[0].now > hi {
      CreditGrows(cfg, clients, key, t, t);
      NoneAfter(cfg, clients, es, key, lo, hi, es[0].now);
    } else {
      var e, next := es[0], StepMap(cfg, clients, es[0], true);
      StepValid(cfg, clients, e, true, t);
      AdmissionsArePaid(cfg, next, es[1..], key, lo, hi, e.now);
      StepIsPaid(cfg, clients, e, key, lo, hi, t);
      PayForOneMore(Counts(cfg, clients, e, key, lo, hi), Admitted(cfg, next, es[1..], key, lo, hi), cfg.fillInterval,
        Credit(cfg, clients, key, t), Credit(cfg, next, key, e.now), t, e.now, hi);
    }
  }

  lemma {:induction false} NoneAfter(cfg: Config, clients: Clients, es: seq<Event>, key: string, lo: int, hi: int, t: int)
    requires Ordered(es, t) && hi < t
    ensures Admitted(cfg, clients, es, key, lo, hi) == 0
    decreases |es|
  {
    if es != [] {
      NoneAfter(cfg, StepMap(cfg, clients, es[0], true), es[1..], key, lo, hi, es[0].now);
    }
  }

  /** Before the window opens nothing is counted, and a bucket never holds more than its size. */
  lemma {:induction false} WindowBound(cfg: Config, clients: Clients, es: seq<Event>, key: string, lo: int, hi: int, t: int)
    requires cfg.Ok() && EvictsOnlyFull(cfg) && Ordered(es, t) && Valid(cfg, clients, t)
    requires lo <= hi
    ensures Admitted(cfg, clients, es, key, lo, hi) * cfg.fillInterval <= cfg.Full() + (hi - lo)
    decreases |es|
  {
    if es != [] {
      if es[0].now < lo {
        StepValid(cfg, clients, es[0], true, t);
        WindowBound(cfg, StepMap(cfg, clients, es[0], true), es[1..], key, lo, hi, es[0].now);
      } else if es[0].now > hi {
        NoneAfter(cfg, clients, es, key, lo, hi, es[0].now);
      } else {
        AdmissionsArePaid(cfg, clients, es, key, lo, hi, es[0].now);
      }
    }
  }

  // The run that tells an evicting limiter apart when eviction comes too early:
  // drain the bucket, wait just long enough to be evicted, drain it again.

  function Burst(key: string, now: int, n: nat): seq<Event> {
    if n == 0 then [] else [Request(Some(key), now)] + Burst(key, now, n - 1)
  }

  function DrainTwice(cfg: Config): seq<Event>
    requires cfg.Ok()
  {
    Burst("c", 0, cfg.bucketSize) + ([Cull(EvictionAge(cfg))] + Burst("c", EvictionAge(cfg), cfg.bucketSize))
  }

  lemma {:induction false} DecisionsAppend(cfg: Config, clients: Clients, a: seq<Event>, b: seq<Event>, culling: bool)
    ensures Decisions(cfg, clients, a + b, culling)
         == Decisions(cfg, clients, a, culling) + Decisions(cfg, Final(cfg, clients, a, culling), b, culling)
    decreases |a|
  {
    if a == [] {
      assert a + b == b;
    } else {
      assert (a + b)[1..] == a[1..] + b;
      DecisionsAppend(cfg, StepMap(cfg, clients, a[0], culling), a[1..], b, culling);
    }
  }

  lemma {:induction false} AdmittedAppend(cfg: Config, clients: Clients, a: seq<Event>, b: seq<Event>, key: string, lo: int, hi: int)
    ensures Admitted(cfg, clients, a + b, key, lo, hi)
         == Admitted(cfg, clients, a, key, lo, hi) + Admitted(cfg, Final(cfg, clients, a, true), b, key, lo, hi)
    decreases |a|
  {
    if a == [] {
      assert a + b == b;
    } else {
      assert (a + b)[1..] == a[1..] + b;
      AdmittedAppend(cfg, StepMap(cfg, clients, a[0], true), a[1..], b, key, lo, hi);
    }
  }

  lemma {:induction false} BurstTimes(key: string, now: int, n: nat)
    ensures |Burst(key, now, n)| == n
    ensures forall i :: 0 <= i < n ==> Burst(key, now, n)[i].now == now
  {
    if n > 0 { BurstTimes(key, now, n - 1); }
  }

  lemma BurstOrdered(key: string, now: int, n: nat, rest: seq<Event>, t: int)
    requires t <= now && Ordered(rest, now)
    ensures Ordered(Burst(key, now, n) + rest, t)
  {
    BurstTimes(key, now, n);
  }

  /** A burst the bucket can pay for is let through and paid. */
  lemma {:induction false} BurstPaid(cfg: Config, clients: Clients, key: string, now: int, n: nat, culling: bool, lo: int, hi: int)
    requires cfg.Ok() && lo <= now <= hi
    requires n * cfg.fillInterval <= Available(cfg, BucketOf(cfg, clients, key, now), now)
    ensures false !in Decisions(cfg, clients, Burst(key, now, n), culling)
    ensures culling ==> Admitted(cfg, clients, Burst(key, now, n), key, lo, hi) == n
    ensures var end := Final(cfg, clients, Burst(key, now, n), culling);
      n > 0 ==> end == clients[key := ClientLimiter(
        Bucket(Available(cfg, BucketOf(cfg, clients, key, now), now) - n * cfg.fillInterval, now), now)]
    decreases n
  {
    if n > 0 {
      var e := Request(Some(key), now);
      var next := StepMap(cfg, clients, e, culling);
      assert Burst(key, now, n)[1..] == Burst(key, now, n - 1);
      assert n * cfg.fillInterval == (n - 1) * cfg.fillInterval + cfg.fillInterval;
      assert (n - 1) * cfg.fillInterval >= 0;
      BurstPaid(cfg, next, key, now, n - 1, culling, lo, hi);
    }
  }

  /** A burst the bucket cannot pay for has a refusal in it. */
  lemma {:induction false} BurstRefused(cfg: Config, clients: Clients, key: string, now: int, n: nat, culling: bool)
    requires cfg.Ok()
    requires 0 <= Available(cfg, BucketOf(cfg, clients, key, now), now) < n * cfg.fillInterval
    ensures false in Decisions(cfg, clients, Burst(key, now, n), culling)
    decreases n
  {
    var e := Request(Some(key), now);
    var next := StepMap(cfg, clients, e, culling);
    assert Burst(key, now, n)[1..] == Burst(key, now, n - 1);
    if Available(cfg, BucketOf(cfg, clients, key, now), now) >= cfg.fillInterval {
      assert n * cfg.fillInterval == (n - 1) * cfg.fillInterval + cfg.fillInterval;
      BurstRefused(cfg, next, key, now, n - 1, culling);
    } else {
      assert Decisions(cfg, clients, Burst(key, now, n), culling)[0] == false;
    }
  }

  /** After one burst of bucket size at time 0 the bucket is empty, with or without culling. */
  const DRAINED: Clients := map["c" := ClientLimiter(Bucket(0, 0), 0)]

  lemma FirstDrain(cfg: Config, culling: bool, hi: int)
    requires cfg.Ok() && 0 <= hi
    ensures var b := Burst("c", 0, cfg.bucketSize);
      && Final(cfg, map[], b, culling) == DRAINED
      && false !in Decisions(cfg, map[], b, culling)
      && (culling ==> Admitted(cfg, map[], b, "c", 0, hi) == cfg.bucketSize)
  {
    BurstPaid(cfg, map[], "c", 0, cfg.bucketSize, culling, 0, hi);
  }

  lemma SecondDrainAfterCull(cfg: Config, now: int)
    requires cfg.Ok() && now == EvictionAge(cfg)
    ensures var tail := [Cull(now)] + Burst("c", now, cfg.bucketSize);
      && false !in Decisions(cfg, DRAINED, tail, true)
      && Admitted(cfg, DRAINED, tail, "c", 0, now) == cfg.bucketSize
  {
    var b := Burst("c", now, cfg.bucketSize);
    assert ([Cull(now)] + b)[1..] == b;
    assert Seconds(now) == Seconds(cfg.maxAge) + 1;
    assert Culled(cfg, DRAINED, now) == map[];
    BurstPaid(cfg, map[], "c", now, cfg.bucketSize, true, 0, now);
  }

  lemma SecondDrainWithoutCull(cfg: Config, now: int)
    requires cfg.Ok() && now == EvictionAge(cfg) < cfg.Full()
    ensures false in Decisions(cfg, DRAINED, [Cull(now)] + Burst("c", now, cfg.bucketSize), false)
  {
    var b := Burst("c", now, cfg.bucketSize);
    assert ([Cull(now)] + b)[1..] == b;
    BurstRefused(cfg, DRAINED, "c", now, cfg.bucketSize, false);
  }

  lemma DrainTwiceTellsApart(cfg: Config)
    requires cfg.Ok() && !EvictsOnlyFull(cfg)
    ensures Ordered(DrainTwice(cfg), 0)
    ensures false !in Decisions(cfg, map[], DrainTwice(cfg), true)
    ensures false in Decisions(cfg, map[], DrainTwice(cfg), false)
    ensures Admitted(cfg, map[], DrainTwice(cfg), "c", 0, EvictionAge(cfg)) == 2 * cfg.bucketSize
  {
    var n, age := cfg.bucketSize, EvictionAge(cfg);
    var b0, tail := Burst("c", 0, n), [Cull(age)] + Burst("c", age, n);
    BurstOrdered("c", age, n, [], age);
    assert Burst("c", age, n) + [] == Burst("c", age, n);
    assert Ordered(tail, 0);
    BurstOrdered("c", 0, n, tail, 0);
    FirstDrain(cfg, true, age);
    FirstDrain(cfg, false, age);
    DecisionsAppend(cfg, map[], b0, tail, true);
    DecisionsAppend(cfg, map[], b0, tail, false);
    AdmittedAppend(cfg, map[], b0, tail, "c", 0, age);
    SecondDrainAfterCull(cfg, age);
    SecondDrainWithoutCull(cfg, age);
  }

  /**
   Eviction is invisible in every run exactly when the eviction age, whole-second truncation
   included, is at least the time a bucket needs to fill. `maxAge >= bucketSize * fillInterval` is enough.
   */
  lemma EvictionInvisibleIff(cfg: Config)
    requires cfg.Ok()
    ensures (forall es, t :: Ordered(es, t) ==> Decisions(cfg, map[], es, true) == Decisions(cfg, map[], es, false))
      <==> EvictsOnlyFull(cfg)
    ensures cfg.maxAge >= cfg.bucketSize * cfg.fillInterval ==> EvictsOnlyFull(cfg)
  {
    if EvictsOnlyFull(cfg) {
      forall es, t | Ordered(es, t)
        ensures Decisions(cfg, map[], es, true) == Decisions(cfg, map[], es, false)
      {
        CachingInvisible(cfg, map[], map[], es, t);
      }
    } else {
      DrainTwiceTellsApart(cfg);
      var es := DrainTwice(cfg);
      assert Ordered(es, 0) && Decisions(cfg, map[], es, true) != Decisions(cfg, map[], es, false);
    }
  }

  lemma ScaleUp(a: int, b: int, c: int)
    requires a <= b && c > 0
    ensures a * c <= b * c
  {
  }

  lemma PerWindow(admitted: int, size: int, window: int, interval: int)
    requires interval > 0 && window >= 0
    requires admitted * interval <= size * interval + window
    ensures admitted <= size + window / interval
  {
    var extra, q := admitted - size, window / interval;
    assert (q + 1) * interval > window;
    assert extra * interval <= window;
    if extra >= q + 1 {
      ScaleUp(q + 1, extra, interval);
    }
  }

  predicate WithinRate(cfg: Config, es: seq<Event>, key: string, lo: int, hi: int)
    requires cfg.Ok()
  {
    Admitted(cfg, map[], es, key, lo, hi) <= cfg.bucketSize + (hi - lo) / cfg.fillInterval
  }

  lemma DrainTwiceExceedsRate(cfg: Config)
    requires cfg.Ok() && !EvictsOnlyFull(cfg)
    ensures Ordered(DrainTwice(cfg), 0) && 0 <= EvictionAge(cfg)
    ensures !WithinRate(cfg, DrainTwice(cfg), "c", 0, EvictionAge(cfg))
  {
    DrainTwiceTellsApart(cfg);
    var q := EvictionAge(cfg) / cfg.fillInterval;
    assert q * cfg.fillInterval <= EvictionAge(cfg);
    if q >= cfg.bucketSize {
      ScaleUp(cfg.bucketSize, q, cfg.fillInterval);
    }
  }

  /** The rate bound promised to operators holds in every window of every run under exactly the same condition. */
  lemma WindowBoundIff(cfg: Config)
    requires cfg.Ok() && cfg.enforced
    ensures (forall es, t, key, lo, hi :: Ordered(es, t) && lo <= hi ==> WithinRate(cfg, es, key, lo, hi))
      <==> EvictsOnlyFull(cfg)
  {
    if EvictsOnlyFull(cfg) {
      forall es, t, key, lo, hi | Ordered(es, t) && lo <= hi ensures WithinRate(cfg, es, key, lo, hi) {
        WindowBound(cfg, map[], es, key, lo, hi, t);
        PerWindow(Admitted(cfg, map[], es, key, lo, hi), cfg.bucketSize, hi - lo, cfg.fillInterval);
      }
    } else {
      DrainTwiceExceedsRate(cfg);
    }
  }

  // Callers without an identifier.

  /** A run without the requests of callers whose identifier is missing. */
  function Identified(es: seq<Event>): seq<Event> {
    if es == [] then []
    else (if es[0].Request? && es[0].id.None? then [] else [es[0]]) + Identified(es[1..])
  }

  /** The decisions that identified callers get. */
  function IdentifiedDecisions(cfg: Config, clients: Clients, es: seq<Event>, culling: bool): seq<bool>
    decreases |es|
  {
    if es == [] then []
    else
      (if es[0].Request? && es[0].id.Some? then StepDecision(cfg, clients, es[0]) else [])
      + IdentifiedDecisions(cfg, StepMap(cfg, clients, es[0], culling), es[1..], culling)
  }

  /** When enforcing, callers without an identifier take no tokens: what the others are told is as if they were not there. */
  lemma {:induction false} AnonymousCostNothing(cfg: Config, clients: Clients, es: seq<Event>, culling: bool)
    requires cfg.enforced
    ensures IdentifiedDecisions(cfg, clients, es, culling) == Decisions(cfg, clients, Identified(es), culling)
    decreases |es|
  {
    if es != [] {
      var e, rest := es[0], Identified(es[1..]);
      AnonymousCostNothing(cfg, StepMap(cfg, clients, e, culling), es[1..], culling);
      if e.Request? && e.id.None? {
        assert Identified(es) == rest;
      } else {
        assert Identified(es) == [e] + rest && ([e] + rest)[1..] == rest;
      }
    }
  }

  /** A clock that steps back neither adds nor takes tokens: the request is decided as at the bucket's own time. */
  lemma EarlierClockDecidesAlike(cfg: Config, b: Bucket, now: int)
    requires now <= b.last && b.tokens <= cfg.Full()
    ensures Available(cfg, b, now) == b.tokens
    ensures Allow(cfg, b, now).0 <==> b.tokens >= cfg.fillInterval
  {
  }
}
