/**
 The reconnect machine of one client (connect and connectionWatcher in
 internal/provider/connectors/amqp091/amqp091.go). Any number of goroutines call
 connect; goroutine WATCHER also runs the watcher loop around it. Loads, stores,
 lock operations and the dial interleave freely.
 */
module Reconnect {
  import opened Runs
  import opened Wrappers

  datatype ConnState = Disconnected | Connected | Connecting | Closed

  /** Inside connect(). */
  datatype Pc =
    | Outside
    | CheckClient                 // clientDisconnect.Load()
    | CheckState                  // state.Load() == CONNECTING?
    | WaitConnecting              // waitWhileConnecting
    | WantLock                    // bd.Lock()
    | Recheck                     // holds the lock, state.Load() == CONNECTED?
    | Announce                    // holds the lock, state.Store(CONNECTING)
    | Dial                        // holds the lock, maps cleared, conn.Connect()
    | Unlocking(ok: bool)         // holds the lock, deferred unlock
    | Finished(ok: bool)

  /** The loop of connectionWatcher; `Calling(retry)` means goroutine WATCHER is inside connect(). */
  datatype Watcher =
    | Top                         // condition of the outer loop
    | Selecting                   // blocked in select
    | StoreDown(retry: bool)      // state.Store(DISCONNECTED) before connecting
    | RetryCheck                  // condition of the inner loop
    | Calling(retry: bool)
    | StoreReset                  // state.Store(DISCONNECTED) after a failed attempt
    | Stopped

  const WATCHER: nat := 0

  datatype State = State(
    conn: ConnState,
    lock: Option<nat>,
    disconnected: bool,           // clientDisconnect
    pc: map<nat, Pc>,
    watcher: Watcher,
    late: set<nat>)               // inside a connect() that began after clientDisconnect was set

  datatype Event =
    | ClientDisconnects
    | Call(t: nat)                // a goroutine other than the watcher calls connect
    | LoadClient(t: nat)
    | LoadState(t: nat)
    | PollState(t: nat, timedOut: bool)
    | Lock(t: nat)
    | LoadAgain(t: nat)
    | StoreConnecting(t: nat)
    | DialReturns(t: nat, ok: bool)
    | Unlock(t: nat)
    | Return(t: nat)
    | WatchTop
    | WatchError                  // receive on ErrorChannel
    | WatchTimer(closed: bool)    // 30 second fallback
    | WatchShutdown
    | WatchStore
    | WatchRetry

  function Init(threads: set<nat>): State {
    State(Disconnected, None, false, map t | t in threads + {WATCHER} :: Outside, Top, {})
  }

  function Goto(s: State, t: nat, p: Pc): State { s.(pc := s.pc[t := p]) }

  /** Entering connect(). */
  function Enter(s: State, t: nat): State {
    Goto(s, t, CheckClient).(late := if s.disconnected then s.late + {t} else s.late)
  }

  function StepThread(s: State, e: Event, t: nat): Option<State> {
    if t !in s.pc then None
    else
      var p := s.pc[t];
      match e
      case Call(_) => if t != WATCHER && p.Outside? then Some(Enter(s, t)) else None
      case LoadClient(_) =>
        if !p.CheckClient? then None
        else Some(Goto(s, t, if s.disconnected then Finished(false) else CheckState))
      case LoadState(_) =>
        if !p.CheckState? then None
        else Some(Goto(s, t, if s.conn.Connecting? then WaitConnecting else WantLock))
      case PollState(_, timedOut) =>
        if !p.WaitConnecting? then None
        else if timedOut then Some(Goto(s, t, WantLock))
        else
          (match s.conn
           case Connected => Some(Goto(s, t, Finished(true)))
           case Connecting => Some(s)
           case Closed => Some(Goto(s, t, Finished(false)))
           case Disconnected => Some(Goto(s, t, WantLock)))
      case Lock(_) => if p.WantLock? && s.lock.None? then Some(Goto(s.(lock := Some(t)), t, Recheck)) else None
      case LoadAgain(_) =>
        if !p.Recheck? then None
        else Some(Goto(s, t, if s.conn.Connected? then Unlocking(true) else Announce))
      case StoreConnecting(_) => if p.Announce? then Some(Goto(s.(conn := Connecting), t, Dial)) else None
      case DialReturns(_, ok) =>
        if !p.Dial? then None
        else if ok then Some(Goto(s.(conn := Connected), t, Unlocking(true)))
        else Some(Goto(s.(conn := Closed), t, Unlocking(false)))
      case Unlock(_) => if p.Unlocking? then Some(Goto(s.(lock := None), t, Finished(p.ok))) else None
      case Return(_) =>
        if !p.Finished? then None
        else
          var out := Goto(s, t, Outside).(late := s.late - {t});
          if t != WATCHER then Some(out)
          else if s.watcher == Calling(true) && !p.ok then Some(out.(watcher := StoreReset))
          else Some(out.(watcher := Top))
      case _ => None
  }

  function StepWatcher(s: State, e: Event): Option<State> {
    match e
    case WatchTop =>
      if s.watcher.Top? then Some(s.(watcher := if s.disconnected then Stopped else Selecting)) else None
    case WatchError => if s.watcher.Selecting? then Some(s.(watcher := StoreDown(true))) else None
    case WatchTimer(closed) =>
      if s.watcher.Selecting? then Some(s.(watcher := if closed then StoreDown(false) else Top)) else None
    case WatchShutdown => if s.watcher.Selecting? then Some(s.(watcher := Stopped)) else None
    case WatchStore =>
      (match s.watcher
       case StoreDown(retry) =>
         var down := s.(conn := Disconnected);
         if retry then Some(down.(watcher := RetryCheck))
         else if WATCHER in s.pc && s.pc[WATCHER].Outside? then Some(Enter(down, WATCHER).(watcher := Calling(false)))
         else None
       case StoreReset => Some(s.(conn := Disconnected, watcher := RetryCheck))
       case _ => None)
    case WatchRetry =>
      if !s.watcher.RetryCheck? then None
      else if s.disconnected then Some(s.(watcher := Top))
      else if WATCHER in s.pc && s.pc[WATCHER].Outside? then Some(Enter(s, WATCHER).(watcher := Calling(true)))
      else None
    case _ => None
  }

  predicate OfWatcher(e: Event) {
    e.WatchTop? || e.WatchError? || e.WatchTimer? || e.WatchShutdown? || e.WatchStore? || e.WatchRetry?
  }

  function Step(s: State, e: Event): Option<State> {
    if e.ClientDisconnects? then Some(s.(disconnected := true))
    else if OfWatcher(e) then StepWatcher(s, e)
    else StepThread(s, e, e.t)
  }

  predicate HoldsLock(p: Pc) { p.Recheck? || p.Announce? || p.Dial? || p.Unlocking? }

  predicate Dialing(p: Pc) { p.Dial? }

  ghost predicate LockExclusive(s: State) {
    forall t :: t in s.pc ==> (HoldsLock(s.pc[t]) <==> s.lock == Some(t))
  }

  /** A goroutine dials only while the machine is not connected, and nobody else can connect it meanwhile. */
  ghost predicate DialsOnlyDown(s: State) {
    forall t :: t in s.pc && (s.pc[t].Announce? || s.pc[t].Dial?) ==> !s.conn.Connected?
  }

  /** The watcher is inside connect() exactly while it is calling it. */
  ghost predicate WatcherPc(s: State) {
    WATCHER in s.pc && (s.pc[WATCHER].Outside? <==> !s.watcher.Calling?)
  }

  /** What connect() told the watcher still holds when it looks at the answer. */
  ghost predicate WatcherTold(s: State) {
    WATCHER in s.pc && (s.pc[WATCHER] == Unlocking(true) || s.pc[WATCHER] == Finished(true)) ==> s.conn.Connected?
  }

  /** A connect() that began after the client disconnected turns round at once. */
  ghost predicate LateTurnsBack(s: State) {
    && (s.late != {} ==> s.disconnected)
    && forall t :: t in s.late && t in s.pc ==> s.pc[t].CheckClient? || s.pc[t] == Finished(false)
  }

  ghost predicate Inv(s: State) {
    LockExclusive(s) && DialsOnlyDown(s) && WatcherPc(s) && WatcherTold(s) && LateTurnsBack(s)
  }

  lemma StepLockExclusive(s: State, e: Event)
    requires LockExclusive(s) && WatcherPc(s) && Step(s, e).Some?
    ensures LockExclusive(Step(s, e).value)
  {
    if !e.ClientDisconnects? {
      if OfWatcher(e) { WatcherKeepsLock(s, e); } else { ThreadKeepsLock(s, e); }
    }
  }

  /** The watcher loop itself never touches the lock; it only enters connect(). */
  lemma WatcherKeepsLock(s: State, e: Event)
    requires LockExclusive(s) && StepWatcher(s, e).Some?
    ensures LockExclusive(StepWatcher(s, e).value)
  {
  }

  /** A goroutine inside connect() moves alone, and the lock follows it. */
  lemma ThreadKeepsLock(s: State, e: Event)
    requires LockExclusive(s) && !OfWatcher(e) && !e.ClientDisconnects? && StepThread(s, e, e.t).Some?
    ensures LockExclusive(StepThread(s, e, e.t).value)
  {
    var n := StepThread(s, e, e.t).value;
    assert n.pc == s.pc[e.t := n.pc[e.t]];
    assert HoldsLock(n.pc[e.t]) <==> n.lock == Some(e.t);
  }

  lemma StepWatcherPc(s: State, e: Event)
    requires WatcherPc(s) && Step(s, e).Some?
    ensures WatcherPc(Step(s, e).value)
  {
  }

  lemma StepDialsOnlyDown(s: State, e: Event)
    requires LockExclusive(s) && DialsOnlyDown(s) && Step(s, e).Some?
    ensures DialsOnlyDown(Step(s, e).value)
  {
  }

  lemma StepWatcherTold(s: State, e: Event)
    requires Inv(s) && Step(s, e).Some?
    ensures WatcherTold(Step(s, e).value)
  {
  }

  lemma StepLateTurnsBack(s: State, e: Event)
    requires WatcherPc(s) && LateTurnsBack(s) && Step(s, e).Some?
    ensures LateTurnsBack(Step(s, e).value)
  {
  }

  lemma {:induction false} ExecInv(s: State, es: seq<Event>)
    requires Inv(s) && Exec(Step, s, es).Some?
    ensures Inv(Exec(Step, s, es).value)
    decreases |es|
  {
    if es != [] {
      StepLockExclusive(s, es[0]);
      StepWatcherPc(s, es[0]);
      StepDialsOnlyDown(s, es[0]);
      StepWatcherTold(s, es[0]);
      StepLateTurnsBack(s, es[0]);
      ExecInv(Step(s, es[0]).value, es[1..]);
    }
  }

  lemma Reachable(threads: set<nat>, es: seq<Event>)
    requires Exec(Step, Init(threads), es).Some?
    ensures Inv(Exec(Step, Init(threads), es).value)
  {
    ExecInv(Init(threads), es);
  }

  /** At most one dial is in progress, it is made under the lock, and never while connected. */
  lemma OneDial(threads: set<nat>, es: seq<Event>, t: nat, u: nat)
    requires Exec(Step, Init(threads), es).Some?
    ensures var s := Exec(Step, Init(threads), es).value;
      t in s.pc && u in s.pc && s.pc[t].Dial? && s.pc[u].Dial? ==> t == u && s.lock == Some(t) && !s.conn.Connected?
  {
    Reachable(threads, es);
  }

  /** The retry loop of the watcher is left only connected or after the client disconnected. */
  lemma RetryEndsConnectedOrGone(threads: set<nat>, es: seq<Event>, e: Event)
    requires Exec(Step, Init(threads), es).Some?
    requires var s := Exec(Step, Init(threads), es).value;
      && Step(s, e).Some?
      && (s.watcher.RetryCheck? || s.watcher == Calling(true) || s.watcher.StoreReset?)
      && (Step(s, e).value.watcher.Top? || Step(s, e).value.watcher.Selecting? || Step(s, e).value.watcher.Stopped?)
    ensures Step(Exec(Step, Init(threads), es).value, e).value.conn.Connected?
      || Step(Exec(Step, Init(threads), es).value, e).value.disconnected
  {
    Reachable(threads, es);
  }

  /** A connect() that starts after the client disconnected never reaches the lock, let alone a dial. */
  lemma LateNeverDials(threads: set<nat>, es: seq<Event>, t: nat)
    requires Exec(Step, Init(threads), es).Some?
    ensures var s := Exec(Step, Init(threads), es).value;
      t in s.late && t in s.pc ==> !s.pc[t].WantLock? && !HoldsLock(s.pc[t]) && s.pc[t] != Finished(true)
  {
    Reachable(threads, es);
  }

  // The reset after a failed attempt.

  /** Nobody but the watcher is inside connect(). */
  predicate Alone(s: State) {
    forall t :: t in s.pc && t != WATCHER ==> s.pc[t].Outside?
  }

  predicate Won(p: Pc) { p == Unlocking(true) || p == Finished(true) }

  /** Between losing the connection and a successful attempt of its own, a lone watcher is not connected. */
  predicate RetryingIsDown(s: State) {
    && Alone(s)
    && (s.watcher.RetryCheck? || s.watcher.StoreReset? ==> !s.conn.Connected?)
    && (s.watcher == Calling(true) && WATCHER in s.pc && !Won(s.pc[WATCHER]) ==> !s.conn.Connected?)
  }

  lemma {:induction false} AloneRetryingIsDown(s: State, es: seq<Event>)
    requires Inv(s) && RetryingIsDown(s) && Exec(Step, s, es).Some?
    requires forall i :: 0 <= i < |es| ==> !es[i].Call?
    ensures RetryingIsDown(Exec(Step, s, es).value)
    decreases |es|
  {
    if es != [] {
      StepLockExclusive(s, es[0]);
      StepWatcherPc(s, es[0]);
      StepDialsOnlyDown(s, es[0]);
      StepWatcherTold(s, es[0]);
      StepLateTurnsBack(s, es[0]);
      StepRetryingIsDown(s, es[0]);
      AloneRetryingIsDown(Step(s, es[0]).value, es[1..]);
    }
  }

  lemma StepRetryingIsDown(s: State, e: Event)
    requires Inv(s) && RetryingIsDown(s) && !e.Call? && Step(s, e).Some?
    ensures RetryingIsDown(Step(s, e).value)
  {
  }

  /**
   The program's runs: Connect calls connect() before it starts the watcher, and afterwards only the watcher does. From
   the moment the watcher starts, with everybody else out of connect(), its reset never overwrites a live connection.
   */
  lemma ResetIsHarmless(threads: set<nat>, first: seq<Event>, later: seq<Event>)
    requires Exec(Step, Init(threads), first).Some?
    requires var s := Exec(Step, Init(threads), first).value; Alone(s) && s.watcher.Top?
    requires Exec(Step, Exec(Step, Init(threads), first).value, later).Some?
    requires forall i :: 0 <= i < |later| ==> !later[i].Call?
    ensures var s := Exec(Step, Exec(Step, Init(threads), first).value, later).value;
      s.watcher.StoreReset? ==> !s.conn.Connected?
  {
    Reachable(threads, first);
    AloneRetryingIsDown(Exec(Step, Init(threads), first).value, later);
  }

  /** No run of these goroutines lets the watcher's reset overwrite a live connection. */
  ghost predicate ResetSafe(threads: set<nat>) {
    forall es: seq<Event> :: Exec(Step, Init(threads), es).Some? ==> !Overwrites(Exec(Step, Init(threads), es).value)
  }

  predicate Overwrites(s: State) { s.watcher.StoreReset? && s.conn.Connected? }

  /**
   A generalisation that the program does not need today: if other goroutines could call connect() at any time, the
   reset would be harmless in every run if and only if there were none.
   */
  lemma ResetSafeIffNoOtherCaller(threads: set<nat>)
    ensures ResetSafe(threads) <==> threads <= {WATCHER}
  {
    if threads <= {WATCHER} {
      forall es: seq<Event> | Exec(Step, Init(threads), es).Some?
        ensures !Overwrites(Exec(Step, Init(threads), es).value)
      {
        Reachable(threads, []);
        assert Init(threads).pc.Keys == {WATCHER};
        NobodyElseCalls(Init(threads), es);
        AloneRetryingIsDown(Init(threads), es);
      }
    } else {
      var t :| t in threads && t != WATCHER;
      var es := AnotherCallerConnects(threads, t);
      assert Overwrites(Exec(Step, Init(threads), es).value);
    }
  }

  lemma {:induction false} NobodyElseCalls(s: State, es: seq<Event>)
    requires s.pc.Keys == {WATCHER} && Exec(Step, s, es).Some?
    ensures forall i :: 0 <= i < |es| ==> !es[i].Call?
    decreases |es|
  {
    if es != [] {
      var s1 := Step(s, es[0]).value;
      assert s1.pc.Keys == {WATCHER};
      NobodyElseCalls(s1, es[1..]);
      assert forall i :: 1 <= i < |es| ==> es[i] == es[1..][i - 1];
    }
  }

  /** The state with goroutine t at p, whatever it was at. */
  predicate At(s: State, n: State, t: nat, p: Pc, conn: ConnState, lock: Option<nat>) {
    n == s.(pc := s.pc[t := p], conn := conn, lock := lock)
  }

  /** Goroutine t gets the lock and finds the machine down ... */
  lemma RunToAnnounce(start: State, es: seq<Event>, t: nat) returns (longer: seq<Event>)
    requires Exec(Step, start, es).Some?
    requires var s := Exec(Step, start, es).value;
      && t in s.pc && s.pc[t].CheckClient? && !s.disconnected && s.lock.None?
      && (s.conn.Disconnected? || s.conn.Closed?)
    ensures Exec(Step, start, longer).Some?
    ensures var s := Exec(Step, start, es).value;
      At(s, Exec(Step, start, longer).value, t, Announce, s.conn, Some(t))
  {
    var s := Exec(Step, start, es).value;
    longer := es;
    ExecMore(Step, start, longer, LoadClient(t)); longer := longer + [LoadClient(t)];
    ExecMore(Step, start, longer, LoadState(t)); longer := longer + [LoadState(t)];
    ExecMore(Step, start, longer, Lock(t)); longer := longer + [Lock(t)];
    ExecMore(Step, start, longer, LoadAgain(t)); longer := longer + [LoadAgain(t)];
    assert s.pc[t := CheckState][t := WantLock][t := Recheck][t := Announce] == s.pc[t := Announce];
  }

  /** ... and dials. */
  lemma RunDial(start: State, es: seq<Event>, t: nat, ok: bool) returns (longer: seq<Event>)
    requires Exec(Step, start, es).Some?
    requires t in Exec(Step, start, es).value.pc && Exec(Step, start, es).value.pc[t].Announce?
    ensures Exec(Step, start, longer).Some?
    ensures var s := Exec(Step, start, es).value;
      At(s, Exec(Step, start, longer).value, t, Finished(ok), if ok then Connected else Closed, None)
  {
    var s := Exec(Step, start, es).value;
    longer := es;
    ExecMore(Step, start, longer, StoreConnecting(t)); longer := longer + [StoreConnecting(t)];
    ExecMore(Step, start, longer, DialReturns(t, ok)); longer := longer + [DialReturns(t, ok)];
    ExecMore(Step, start, longer, Unlock(t)); longer := longer + [Unlock(t)];
    assert s.pc[t := Dial][t := Unlocking(ok)][t := Finished(ok)] == s.pc[t := Finished(ok)];
  }

  /** The watcher has lost the connection and starts its first attempt ... */
  lemma WatcherRetries(threads: set<nat>) returns (es: seq<Event>)
    ensures Exec(Step, Init(threads), es)
         == Some(Init(threads).(pc := Init(threads).pc[WATCHER := CheckClient], watcher := Calling(true)))
  {
    var s := Init(threads);
    es := [];
    ExecMore(Step, s, es, WatchTop); es := es + [WatchTop];
    ExecMore(Step, s, es, WatchError); es := es + [WatchError];
    ExecMore(Step, s, es, WatchStore); es := es + [WatchStore];
    ExecMore(Step, s, es, WatchRetry); es := es + [WatchRetry];
  }

  /** ... which fails. */
  lemma WatcherFails(threads: set<nat>) returns (es: seq<Event>)
    ensures Exec(Step, Init(threads), es) == Some(Init(threads).(conn := Closed, watcher := StoreReset))
  {
    var s := Init(threads);
    es := WatcherRetries(threads);
    es := RunToAnnounce(s, es, WATCHER);
    es := RunDial(s, es, WATCHER, false);
    assert Exec(Step, s, es).value.pc == s.pc[WATCHER := Finished(false)];
    ExecMore(Step, s, es, Return(WATCHER)); es := es + [Return(WATCHER)];
    assert Exec(Step, s, es).value.pc == s.pc;
    assert Exec(Step, s, es).value.late == {};
  }

  /** ... whereupon another caller connects before the watcher's reset. */
  lemma AnotherCallerConnects(threads: set<nat>, t: nat) returns (es: seq<Event>)
    requires t in threads && t != WATCHER
    ensures Exec(Step, Init(threads), es).Some? && Overwrites(Exec(Step, Init(threads), es).value)
  {
    var s := Init(threads);
    es := WatcherFails(threads);
    ExecMore(Step, s, es, Call(t)); es := es + [Call(t)];
    es := RunToAnnounce(s, es, t);
    es := RunDial(s, es, t, true);
  }
}
