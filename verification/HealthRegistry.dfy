/**
 The registry of health notifiers (notifyHealth, MonitorHealthChan and
 HealthzServer.Check in internal/server/server.go). Sessions for any addresses
 interleave; a session ends in two atomic steps, DeleteIfEqual and close.
 */
module HealthRegistry {
  import opened ConcurrentMaps
  import opened Runs
  import opened Wrappers

  type Channel = nat

  datatype Phase = Running | Removed | Closed
  datatype Session = Session(addr: string, phase: Phase)

  datatype State = State(
    notifiers: map<string, Channel>,
    sessions: seq<Session>,          // the session with channel c is sessions[c], in order of registration
    closes: seq<Channel>,            // every close() so far
    lookedUp: Option<Channel>,       // what the monitor is about to send on
    sentOnClosed: bool)

  datatype Event =
    | Check(addr: string)            // a new channel is registered for the address
    | Remove(c: Channel)             // deferred DeleteIfEqual
    | Close(c: Channel)              // deferred close
    | LookUp(addr: string)           // the monitor's Get
    | Notify                         // the monitor's send

  function Init(): State { State(map[], [], [], None, false) }

  function Step(s: State, e: Event): Option<State> {
    match e
    case Check(addr) =>
      Some(s.(notifiers := s.notifiers[addr := |s.sessions|], sessions := s.sessions + [Session(addr, Running)]))
    case Remove(c) =>
      if c >= |s.sessions| || !s.sessions[c].phase.Running? then None
      else Some(s.(notifiers := WithoutIfEqual(s.notifiers, s.sessions[c].addr, c),
                   sessions := s.sessions[c := s.sessions[c].(phase := Removed)]))
    case Close(c) =>
      if c >= |s.sessions| || !s.sessions[c].phase.Removed? then None
      else Some(s.(closes := s.closes + [c], sessions := s.sessions[c := s.sessions[c].(phase := Closed)]))
    case LookUp(addr) =>
      if s.lookedUp.Some? || addr !in s.notifiers then None else Some(s.(lookedUp := Some(s.notifiers[addr])))
    case Notify =>
      if s.lookedUp.None? || s.lookedUp.value >= |s.sessions| then None
      else
        (match s.sessions[s.lookedUp.value].phase
         case Running => Some(s.(lookedUp := None))
         case Removed => None                               // nobody receives any more, the send blocks
         case Closed => Some(s.(lookedUp := None, sentOnClosed := true)))
  }

  /** The latest registrant of an address. */
  function Latest(sessions: seq<Session>, addr: string): Option<Channel> {
    if sessions == [] then None
    else if sessions[|sessions| - 1].addr == addr then Some(|sessions| - 1)
    else Latest(sessions[..|sessions| - 1], addr)
  }

  lemma {:induction false} LatestIsLast(sessions: seq<Session>, addr: string)
    ensures match Latest(sessions, addr)
      case Some(c) => c < |sessions| && sessions[c].addr == addr
        && forall d :: c < d < |sessions| ==> sessions[d].addr != addr
      case None => forall d :: 0 <= d < |sessions| ==> sessions[d].addr != addr
  {
    if sessions != [] && sessions[|sessions| - 1].addr != addr {
      LatestIsLast(sessions[..|sessions| - 1], addr);
    }
  }

  /** The registry holds exactly the latest registrants that have not ended. */
  ghost predicate ExactlyLatest(s: State) {
    forall addr ::
      var latest := Latest(s.sessions, addr);
      && (latest.Some? ==> latest.value < |s.sessions|)
      && (addr in s.notifiers <==> latest.Some? && s.sessions[latest.value].phase.Running?)
      && (addr in s.notifiers ==> s.notifiers[addr] == latest.value)
  }

  /** The closed channels are those of the sessions that are through, each once. */
  predicate ClosedOnce(s: State) {
    && (forall i :: 0 <= i < |s.closes| ==> s.closes[i] < |s.sessions| && s.sessions[s.closes[i]].phase.Closed?)
    && (forall i, j :: 0 <= i < j < |s.closes| ==> s.closes[i] != s.closes[j])
  }

  lemma StepExactlyLatest(s: State, e: Event)
    requires ExactlyLatest(s) && Step(s, e).Some?
    ensures ExactlyLatest(Step(s, e).value)
  {
    var n := Step(s, e).value;
    forall addr
      ensures var latest := Latest(n.sessions, addr);
        && (latest.Some? ==> latest.value < |n.sessions|)
        && (addr in n.notifiers <==> latest.Some? && n.sessions[latest.value].phase.Running?)
        && (addr in n.notifiers ==> n.notifiers[addr] == latest.value)
    {
      if e.Check? {
        assert n.sessions[..|s.sessions|] == s.sessions;
      } else {
        SameAddresses(s.sessions, n.sessions, addr);
        LatestIsLast(s.sessions, addr);
      }
    }
  }

  lemma {:induction false} SameAddresses(a: seq<Session>, b: seq<Session>, addr: string)
    requires |a| == |b| && forall i :: 0 <= i < |a| ==> a[i].addr == b[i].addr
    ensures Latest(a, addr) == Latest(b, addr)
  {
    if a != [] {
      SameAddresses(a[..|a| - 1], b[..|b| - 1], addr);
    }
  }

  lemma StepClosedOnce(s: State, e: Event)
    requires ClosedOnce(s) && Step(s, e).Some?
    ensures ClosedOnce(Step(s, e).value)
  {
  }

  lemma {:induction false} ExecInv(s: State, es: seq<Event>)
    requires ExactlyLatest(s) && ClosedOnce(s) && Exec(Step, s, es).Some?
    ensures ExactlyLatest(Exec(Step, s, es).value) && ClosedOnce(Exec(Step, s, es).value)
    decreases |es|
  {
    if es != [] {
      StepExactlyLatest(s, es[0]);
      StepClosedOnce(s, es[0]);
      ExecInv(Step(s, es[0]).value, es[1..]);
    }
  }

  // The sessions, told from the events.

  function Addresses(sessions: seq<Session>): seq<string> {
    seq(|sessions|, c requires 0 <= c < |sessions| => sessions[c].addr)
  }

  /** The address of the session that an event begins, and the channel that it closes. */
  function Begins(e: Event): seq<string> { if e.Check? then [e.addr] else [] }

  function Closes(e: Event): seq<Channel> { if e.Close? then [e.c] else [] }

  function Checked(es: seq<Event>): seq<string> { if es == [] then [] else Begins(es[0]) + Checked(es[1..]) }

  function ClosedBy(es: seq<Event>): seq<Channel> { if es == [] then [] else Closes(es[0]) + ClosedBy(es[1..]) }

  lemma StepFollows(s: State, e: Event)
    requires Step(s, e).Some?
    ensures Addresses(Step(s, e).value.sessions) == Addresses(s.sessions) + Begins(e)
    ensures Step(s, e).value.closes == s.closes + Closes(e)
  {
  }

  lemma {:induction false} SessionsFollow(s: State, es: seq<Event>)
    requires Exec(Step, s, es).Some?
    ensures Addresses(Exec(Step, s, es).value.sessions) == Addresses(s.sessions) + Checked(es)
    ensures Exec(Step, s, es).value.closes == s.closes + ClosedBy(es)
    decreases |es|
  {
    if es != [] {
      StepFollows(s, es[0]);
      SessionsFollow(Step(s, es[0]).value, es[1..]);
    }
  }

  /** In every run the sessions are those that began, in order, and the channels closed are those of the Close events. */
  lemma SessionsAreTheEvents(es: seq<Event>)
    requires Exec(Step, Init(), es).Some?
    ensures Addresses(Exec(Step, Init(), es).value.sessions) == Checked(es)
    ensures Exec(Step, Init(), es).value.closes == ClosedBy(es)
  {
    SessionsFollow(Init(), es);
    assert [] + ClosedBy(es) == ClosedBy(es) && Addresses([]) + Checked(es) == Checked(es);
  }

  /**
   In every interleaving an address is registered exactly while its latest session runs, with the
   channel of that session, which is open; and no channel is closed twice.
   */
  lemma RegistryIsExact(es: seq<Event>, addr: string)
    requires Exec(Step, Init(), es).Some?
    ensures var s := Exec(Step, Init(), es).value;
      && (addr in s.notifiers <==>
          exists c :: 0 <= c < |s.sessions| && s.sessions[c] == Session(addr, Running)
            && forall d :: c < d < |s.sessions| ==> s.sessions[d].addr != addr)
      && (addr in s.notifiers ==> s.notifiers[addr] !in s.closes)
      && (forall i, j :: 0 <= i < j < |s.closes| ==> s.closes[i] != s.closes[j])
  {
    ExecInv(Init(), es);
    var s := Exec(Step, Init(), es).value;
    LatestIsLast(s.sessions, addr);
    if c :| 0 <= c < |s.sessions| && s.sessions[c] == Session(addr, Running)
            && forall d :: c < d < |s.sessions| ==> s.sessions[d].addr != addr {
      assert Latest(s.sessions, addr) == Some(c);
    }
    if addr in s.notifiers {
      var c := s.notifiers[addr];
      assert s.sessions[c] == Session(addr, Running);
    }
  }

  /** Ending a superseded session leaves the registry alone; ending the current one frees its address only. */
  lemma EndingIsLocal(es: seq<Event>, c: Channel)
    requires Exec(Step, Init(), es).Some? && Step(Exec(Step, Init(), es).value, Remove(c)).Some?
    ensures var s := Exec(Step, Init(), es).value;
      Step(s, Remove(c)).value.notifiers
        == if Latest(s.sessions, s.sessions[c].addr) == Some(c) then s.notifiers - {s.sessions[c].addr} else s.notifiers
  {
    ExecInv(Init(), es);
    var s := Exec(Step, Init(), es).value;
    LatestIsLast(s.sessions, s.sessions[c].addr);
  }

  // Broadcasts.

  /** Session c as the run goes on, while the monitor has not sent what it looked up. */
  lemma {:induction false} PhaseFollows(s: State, es: seq<Event>, c: Channel)
    requires Exec(Step, s, es).Some? && c < |s.sessions| && !s.sessions[c].phase.Closed?
    ensures var n := Exec(Step, s, es).value;
      && c < |n.sessions|
      && (n.sessions[c].phase.Closed? <==> Close(c) in es)
      && (n.sessions[c].phase.Running? <==> s.sessions[c].phase.Running? && Remove(c) !in es)
    decreases |es|
  {
    if es != [] {
      var s1 := Step(s, es[0]).value;
      assert es == [es[0]] + es[1..];
      if s1.sessions[c].phase.Closed? {
        StaysClosed(s1, es[1..], c);
      } else {
        PhaseFollows(s1, es[1..], c);
      }
    }
  }

  lemma {:induction false} StaysClosed(s: State, es: seq<Event>, c: Channel)
    requires Exec(Step, s, es).Some? && c < |s.sessions| && s.sessions[c].phase.Closed?
    ensures c < |Exec(Step, s, es).value.sessions| && Exec(Step, s, es).value.sessions[c].phase.Closed?
    decreases |es|
  {
    if es != [] {
      StaysClosed(Step(s, es[0]).value, es[1..], c);
    }
  }

  lemma {:induction false} KeepsLookedUp(s: State, es: seq<Event>)
    requires s.lookedUp.Some? && Exec(Step, s, es).Some? && Notify !in es
    ensures Exec(Step, s, es).value.lookedUp == s.lookedUp && Exec(Step, s, es).value.sentOnClosed == s.sentOnClosed
    decreases |es|
  {
    if es != [] {
      assert es[0] in es;
      KeepsLookedUp(Step(s, es[0]).value, es[1..]);
    }
  }

  /**
   A broadcast looks a channel up and then sends, with anything happening in between. The send meets a closed channel
   if and only if the session closes its channel in between, and it blocks if and only if the session has begun to end
   and not closed it yet.
   */
  lemma SendMeetsClosedIff(es: seq<Event>, addr: string, between: seq<Event>)
    requires Exec(Step, Init(), es).Some? && Step(Exec(Step, Init(), es).value, LookUp(addr)).Some?
    requires var looked := Step(Exec(Step, Init(), es).value, LookUp(addr)).value;
      !looked.sentOnClosed && Notify !in between && Exec(Step, looked, between).Some?
    ensures var looked := Step(Exec(Step, Init(), es).value, LookUp(addr)).value;
      var s, c := Exec(Step, looked, between).value, looked.notifiers[addr];
      && (Step(s, Notify).None? <==> Remove(c) in between && Close(c) !in between)
      && (Step(s, Notify).Some? ==> (Step(s, Notify).value.sentOnClosed <==> Close(c) in between))
  {
    ExecInv(Init(), es);
    var looked := Step(Exec(Step, Init(), es).value, LookUp(addr)).value;
    LatestIsLast(looked.sessions, addr);
    KeepsLookedUp(looked, between);
    PhaseFollows(looked, between, looked.notifiers[addr]);
  }

  /** It happens: the session ends just after its channel has been looked up. */
  lemma BroadcastCanMeetAClosedChannel(addr: string) returns (es: seq<Event>)
    ensures Exec(Step, Init(), es).Some? && Exec(Step, Init(), es).value.sentOnClosed
  {
    var s := Init();
    es := [];
    ExecMore(Step, s, es, Check(addr)); es := es + [Check(addr)];
    ExecMore(Step, s, es, LookUp(addr)); es := es + [LookUp(addr)];
    ExecMore(Step, s, es, Remove(0)); es := es + [Remove(0)];
    ExecMore(Step, s, es, Close(0)); es := es + [Close(0)];
    ExecMore(Step, s, es, Notify); es := es + [Notify];
  }
}
