/**
 Which clients are connected: the server's connectionMap (internal/server/server.go)
 and the provider's connections with their stream counters
 (internal/provider/connectors/amqp091), the provider's idle cleaner and the
 server's trim. Each method is one step; `now` is the clock at that step.
 */
module ClientRegistry {
  import opened ConcurrentMaps
  import opened Runs
  import opened Wrappers

  const CLEAN_INTERVAL := 30_000_000_000

  /** The part of BrokerDetails the cleaner looks at. */
  datatype Details = Details(activeStreams: int, lastPubSubEvent: int)

  /** A BrokerDetails object; sessions keep the object they started on, even when the client is gone. */
  type Ref = nat

  datatype State = State(
    connected: set<string>,           // keys of connectionMap
    connections: map<string, Ref>,    // the provider's clients
    details: seq<Details>,            // every BrokerDetails ever allocated
    sessions: map<nat, Ref>)          // streams between increment and deferred decrement

  /** Provider.Connect succeeds on the attempts in `accepts`; brokerConnect makes attempts 1 to `retries`. */
  predicate Reaches(accepts: set<int>, retries: int) {
    exists k :: k in accepts && 1 <= k <= retries
  }

  /** connectionCleaner's condition for disconnecting a client. */
  predicate Dead(d: Details, now: int) {
    d.activeStreams < 1 && now - d.lastPubSubEvent > CLEAN_INTERVAL
  }

  function Touch(s: State, r: Ref, delta: int, now: int): State {
    if r < |s.details|
    then s.(details := s.details[r := Details(s.details[r].activeStreams + delta, now)])
    else s
  }

  function Connected(s: State, id: string, accepts: set<int>, retries: int, now: int): State {
    if id in s.connected then s
    else if retries < 1 then s.(connected := s.connected + {id})
    else if !Reaches(accepts, retries) then s
    else s.(connected := s.connected + {id},
            connections := s.connections[id := |s.details|],
            details := s.details + [Details(0, now)])
  }

  function Disconnected(s: State, id: string): State {
    if id in s.connected then s.(connected := s.connected - {id}, connections := s.connections - {id}) else s
  }

  function Cleaned(s: State, now: int): State {
    s.(connections := map id | id in s.connections
         && !(s.connections[id] < |s.details| && Dead(s.details[s.connections[id]], now)) :: s.connections[id])
  }

  function Trimmed(s: State): State {
    s.(connected := s.connected * s.connections.Keys)
  }

  class Registry {
    var s: State

    constructor ()
      ensures s == State({}, map[], [], map[])
    {
      s := State({}, map[], [], map[]);
    }

    /** brokerConnect: a client in connectionMap is taken to be connected already. */
    method Connect(id: string, accepts: set<int>, retries: int, now: int) returns (success: bool)
      modifies this
      ensures s == Connected(old(s), id, accepts, retries, now)
      ensures success <==> id in s.connected
    {
      if id in s.connected {
        return true;
      }
      var failed := false;
      var try := 1;
      while try <= retries
        invariant 1 <= try && (try > 1 ==> try <= retries + 1) && s == old(s)
        invariant forall k :: 1 <= k < try ==> k !in accepts
        invariant failed <==> try > 1
        decreases retries - try
      {
        failed := try !in accepts;
        if !failed {
          s := s.(connections := s.connections[id := |s.details|], details := s.details + [Details(0, now)]);
          break;
        }
        try := try + 1;
      }
      success := !failed;
      if success {
        s := s.(connected := s.connected + {id});
      }
    }

    /** brokerDisconnect: the provider first, then the map. */
    method Disconnect(id: string)
      modifies this
      ensures s == Disconnected(old(s), id)
    {
      if id in s.connected {
        s := s.(connections := Without(s.connections, id));
        s := s.(connected := s.connected - {id});
      }
    }

    /** incrementStreamCount at the start of a subscription, a publish session or a wait for the connection. */
    method StartStream(session: nat, id: string, now: int)
      requires session !in s.sessions && id in s.connections
      modifies this
      ensures Step(old(s), Start(session, id, now)) == Some(s)
    {
      var bd := s.connections[id];
      if bd < |s.details| {
        s := s.(details := s.details[bd := Details(s.details[bd].activeStreams + 1, now)]);
      }
      s := s.(sessions := s.sessions[session := bd]);
    }

    /** The deferred decrementStreamCount, on the object the stream started on. */
    method EndStream(session: nat, now: int)
      requires session in s.sessions
      modifies this
      ensures Step(old(s), End(session, now)) == Some(s)
    {
      var bd := s.sessions[session];
      if bd < |s.details| {
        s := s.(details := s.details[bd := Details(s.details[bd].activeStreams - 1, now)]);
      }
      s := s.(sessions := s.sessions - {session});
    }

    /** updateLastPubSubEvent, when a client subscribes or publishes a single message. */
    method Use(id: string, now: int)
      requires id in s.connections
      modifies this
      ensures Step(old(s), Event.Use(id, now)) == Some(s)
    {
      var bd := s.connections[id];
      if bd < |s.details| {
        s := s.(details := s.details[bd := s.details[bd].(lastPubSubEvent := now)]);
      }
    }

    /** One tick of connectionCleaner: walk a snapshot of the clients and disconnect the dead ones. */
    method Clean(now: int)
      modifies this
      ensures s == Cleaned(old(s), now)
    {
      var todo := s.connections.Keys;
      ghost var start := s;
      while todo != {}
        invariant todo <= s.connections.Keys <= start.connections.Keys
        invariant s == start.(connections := s.connections)
        invariant forall id :: id in s.connections ==> s.connections[id] == start.connections[id]
        invariant forall id :: id in start.connections && id !in todo ==>
          (id in s.connections <==> id in Cleaned(start, now).connections)
        decreases todo
      {
        var id :| id in todo;
        todo := todo - {id};
        if id in s.connections {
          var bd := s.connections[id];
          if bd < |s.details| && s.details[bd].activeStreams < 1
             && now - s.details[bd].lastPubSubEvent > CLEAN_INTERVAL {
            s := s.(connections := Without(s.connections, id));
          }
        }
      }
    }

    /** TrimConnectionList: forget every client the provider does not know any more. */
    method Trim()
      modifies this
      ensures s == Trimmed(old(s))
    {
      var todo := s.connected;
      ghost var start := s;
      while todo != {}
        invariant todo <= s.connected <= start.connected
        invariant s == start.(connected := s.connected)
        invariant forall id :: id in start.connected && id !in todo ==>
          (id in s.connected <==> id in start.connections)
        decreases todo
      {
        var id :| id in todo;
        todo := todo - {id};
        if id !in s.connections {
          s := s.(connected := s.connected - {id});
        }
      }
    }
  }

  // Runs.

  datatype Event =
    | Connect(id: string, accepts: set<int>, retries: int, now: int)
    | Disconnect(id: string)
    | Start(session: nat, id: string, now: int)   // incrementStreamCount
    | End(session: nat, now: int)                 // deferred decrementStreamCount
    | Use(id: string, now: int)                   // a subscription or a single publish begins
    | Clean(now: int)
    | Trim

  function Step(s: State, e: Event): Option<State> {
    match e
    case Connect(id, accepts, retries, now) => Some(Connected(s, id, accepts, retries, now))
    case Disconnect(id) => Some(Disconnected(s, id))
    case Start(x, id, now) =>
      if x in s.sessions || id !in s.connections then None
      else Some(Touch(s, s.connections[id], 1, now).(sessions := s.sessions[x := s.connections[id]]))
    case End(x, now) =>
      if x !in s.sessions then None
      else Some(Touch(s, s.sessions[x], -1, now).(sessions := s.sessions - {x}))
    case Use(id, now) => if id in s.connections then Some(Touch(s, s.connections[id], 0, now)) else None
    case Clean(now) => Some(Cleaned(s, now))
    case Trim => Some(Trimmed(s))
  }

  ghost function SessionsOn(sessions: map<nat, Ref>, r: Ref): set<nat> {
    set x | x in sessions && sessions[x] == r
  }

  ghost predicate Allocated(s: State) {
    && (forall id :: id in s.connections ==> s.connections[id] < |s.details|)
    && (forall x :: x in s.sessions ==> s.sessions[x] < |s.details|)
    && (forall i, j :: i in s.connections && j in s.connections && i != j ==> s.connections[i] != s.connections[j])
  }

  /** The counter of every object, evicted or not, is the number of its open sessions. */
  ghost predicate StreamsCounted(s: State) {
    forall r :: 0 <= r < |s.details| ==> s.details[r].activeStreams == |SessionsOn(s.sessions, r)|
  }

  ghost predicate Inv(s: State) {
    Allocated(s) && StreamsCounted(s) && s.connections.Keys <= s.connected
  }

  lemma StepAllocated(s: State, e: Event)
    requires Allocated(s) && Step(s, e).Some?
    ensures Allocated(Step(s, e).value)
  {
  }

  lemma StepSubset(s: State, e: Event)
    requires s.connections.Keys <= s.connected && Step(s, e).Some?
    ensures Step(s, e).value.connections.Keys <= Step(s, e).value.connected
  {
  }

  lemma SessionAdded(sessions: map<nat, Ref>, x: nat, r: Ref, q: Ref)
    requires x !in sessions
    ensures |SessionsOn(sessions[x := r], q)| == |SessionsOn(sessions, q)| + if q == r then 1 else 0
  {
    assert SessionsOn(sessions[x := r], q) == SessionsOn(sessions, q) + if q == r then {x} else {};
  }

  lemma SessionRemoved(sessions: map<nat, Ref>, x: nat, q: Ref)
    requires x in sessions
    ensures |SessionsOn(sessions - {x}, q)| == |SessionsOn(sessions, q)| - if q == sessions[x] then 1 else 0
  {
    assert SessionsOn(sessions - {x}, q) == SessionsOn(sessions, q) - {x};
  }

  lemma StepStreamsCounted(s: State, e: Event)
    requires Allocated(s) && StreamsCounted(s) && Step(s, e).Some?
    ensures StreamsCounted(Step(s, e).value)
  {
    var n := Step(s, e).value;
    forall r | 0 <= r < |n.details|
      ensures n.details[r].activeStreams == |SessionsOn(n.sessions, r)|
    {
      match e
      case Start(x, id, now) => SessionAdded(s.sessions, x, s.connections[id], r);
      case End(x, now) => SessionRemoved(s.sessions, x, r);
      case Connect(id, accepts, retries, now) =>
        if r == |s.details| { assert SessionsOn(s.sessions, r) == {}; }
      case _ =>
    }
  }

  lemma {:induction false} ExecInv(s: State, es: seq<Event>)
    requires Inv(s) && Exec(Step, s, es).Some?
    ensures Inv(Exec(Step, s, es).value)
    decreases |es|
  {
    if es != [] {
      StepAllocated(s, es[0]);
      StepSubset(s, es[0]);
      StepStreamsCounted(s, es[0]);
      ExecInv(Step(s, es[0]).value, es[1..]);
    }
  }

  const EMPTY := State({}, map[], [], map[])

  /** In every run the stream counters are exact, never negative, and the provider knows connected clients only. */
  lemma RegistriesAgree(es: seq<Event>)
    requires Exec(Step, EMPTY, es).Some?
    ensures var s := Exec(Step, EMPTY, es).value;
      && (forall r :: 0 <= r < |s.details| ==> s.details[r].activeStreams == |SessionsOn(s.sessions, r)|)
      && s.connections.Keys <= s.connected
      && Trimmed(s).connected == s.connections.Keys
  {
    ExecInv(EMPTY, es);
  }

  // When a client was last heard of.

  /** The time of event e, if it creates object r or is a publish or subscribe event on it. */
  function TouchTime(s: State, e: Event, r: Ref): Option<int> {
    match e
    case Connect(id, accepts, retries, now) =>
      if id !in s.connected && Reaches(accepts, retries) && r == |s.details| then Some(now) else None
    case Start(x, id, now) => if id in s.connections && s.connections[id] == r then Some(now) else None
    case End(x, now) => if x in s.sessions && s.sessions[x] == r then Some(now) else None
    case Use(id, now) => if id in s.connections && s.connections[id] == r then Some(now) else None
    case _ => None
  }

  /** The time of the latest such event of a run, or `before` if there is none. */
  function LatestTouch(s: State, es: seq<Event>, r: Ref, before: Option<int>): Option<int>
    decreases |es|
  {
    if es == [] || Step(s, es[0]).None? then before
    else
      var t := TouchTime(s, es[0], r);
      LatestTouch(Step(s, es[0]).value, es[1..], r, if t.Some? then t else before)
  }

  lemma StepTouches(s: State, e: Event, r: Ref)
    requires Step(s, e).Some?
    ensures var n, t := Step(s, e).value, TouchTime(s, e, r);
      && |s.details| <= |n.details|
      && (r < |s.details| && t.None? ==> n.details[r].lastPubSubEvent == s.details[r].lastPubSubEvent)
      && (r < |n.details| && t.Some? ==> n.details[r].lastPubSubEvent == t.value)
      && (|s.details| <= r < |n.details| ==> t.Some?)
  {
  }

  lemma {:induction false} TouchesFollow(s: State, es: seq<Event>, r: Ref, before: Option<int>)
    requires Exec(Step, s, es).Some?
    requires r < |s.details| ==> before == Some(s.details[r].lastPubSubEvent)
    ensures var n := Exec(Step, s, es).value;
      r < |n.details| ==> LatestTouch(s, es, r, before) == Some(n.details[r].lastPubSubEvent)
    decreases |es|
  {
    if es != [] {
      StepTouches(s, es[0], r);
      var t := TouchTime(s, es[0], r);
      TouchesFollow(Step(s, es[0]).value, es[1..], r, if t.Some? then t else before);
    }
  }

  /**
   The cleaner evicts a client exactly when no session is open on it and the latest event on its object, which is the
   connect, a stream's start or end, a subscription or a single publish, is longer ago than the interval.
   */
  lemma CleanerEvictsIdleOnly(es: seq<Event>, now: int, id: string)
    requires Exec(Step, EMPTY, es).Some?
    requires id in Exec(Step, EMPTY, es).value.connections
    ensures var s := Exec(Step, EMPTY, es).value; var r := s.connections[id];
      && LatestTouch(EMPTY, es, r, None).Some?
      && (id !in Cleaned(s, now).connections <==>
            (forall x :: x in s.sessions ==> s.sessions[x] != r)
            && now - LatestTouch(EMPTY, es, r, None).value > CLEAN_INTERVAL)
      && (id in Cleaned(s, now).connections ==> Cleaned(s, now).connections[id] == r)
  {
    ExecInv(EMPTY, es);
    var s := Exec(Step, EMPTY, es).value;
    TouchesFollow(EMPTY, es, s.connections[id], None);
    var on := SessionsOn(s.sessions, s.connections[id]);
    if x :| x in s.sessions && s.sessions[x] == s.connections[id] {
      assert x in on;
      assert on == (on - {x}) + {x};
    } else {
      assert on == {};
    }
  }

  /** A client that disconnects is in neither registry afterwards, and nobody else is affected. */
  lemma DisconnectRemovesOne(es: seq<Event>, id: string)
    requires Exec(Step, EMPTY, es).Some?
    ensures var s := Exec(Step, EMPTY, es).value;
      var n := Step(s, Disconnect(id)).value;
      && Step(s, Disconnect(id)).Some? && n.connected == s.connected - {id} && n.connections == s.connections - {id}
      && n.details == s.details && n.sessions == s.sessions
  {
    ExecInv(EMPTY, es);
  }

  /**
   A client that is not connected becomes connected on its first accepted attempt, with an object of its own, counted and
   timed from then on; one that is connected already is left as it is. With no attempt allowed the server calls a client
   connected that the provider has never heard of.
   */
  lemma ConnectMakesOne(es: seq<Event>, id: string, accepts: set<int>, retries: int, now: int)
    requires Exec(Step, EMPTY, es).Some?
    ensures var s := Exec(Step, EMPTY, es).value;
      var n := Step(s, Connect(id, accepts, retries, now)).value;
      && (id in n.connected <==> id in s.connected || retries < 1 || exists k :: 1 <= k <= retries && k in accepts)
      && (retries < 1 ==> n.connections == s.connections && n.details == s.details)
      && (id in n.connected && id !in s.connected && retries >= 1 ==>
            n.connections.Keys == s.connections.Keys + {id} && n.connections[id] == |s.details|
            && n.details == s.details + [Details(0, now)])
      && (forall other :: other != id ==> (other in n.connected <==> other in s.connected))
      && (forall other :: other in s.connections && other != id ==> n.connections[other] == s.connections[other])
      && (id in s.connected ==> n == s)
  {
    ExecInv(EMPTY, es);
  }

  /**
   A client the cleaner evicted cannot come back before a trim: until then every Connect answers success,
   as the client is still in connectionMap, and connects nothing. After a trim it connects as a new client does.
   */
  lemma EvictedClientMustWaitForTrim(es: seq<Event>, now: int, id: string, accepts: set<int>, retries: int, later: int)
    requires Exec(Step, EMPTY, es).Some?
    requires var s := Exec(Step, EMPTY, es).value; id in s.connections && id !in Cleaned(s, now).connections
    ensures var gone := Cleaned(Exec(Step, EMPTY, es).value, now);
      && id in gone.connected
      && Connected(gone, id, accepts, retries, later) == gone
      && (id in Connected(Trimmed(gone), id, accepts, retries, later).connections <==> Reaches(accepts, retries))
  {
    ExecInv(EMPTY, es);
  }
}
