/**
 The counting latch of internal/util/blocking_latch.go: a counter under a mutex
 and one condition variable. Goroutines interleave at lock, check, wait, signal
 and unlock; `max` is constant and only Increment and Decrement are called.
 */
module BlockingLatch {
  import opened Counting
  import opened Runs
  import opened Wrappers

  datatype Pc =
    | Idle
    | IncLock        // Increment, about to lock
    | IncCheck       // Increment, holds the lock at the top of its loop
    | IncSleep       // Increment, found no slot and no cancellation, about to Wait (holds the lock)
    | Waiting        // inside notMax.Wait, not signalled
    | Woken          // signalled, about to take the lock again
    | DecLock        // Decrement, about to lock
    | DecCount       // Decrement, holds the lock
    | DecSignal      // Decrement, counted down, about to Signal
    | Leaving        // holds the lock, about to unlock

  datatype Event =
    | Increment(t: nat)
    | Decrement(t: nat)
    | Lock(t: nat)
    | Check(t: nat)
    | Sleep(t: nat)
    | CountDown(t: nat)
    | Signal(t: nat, w: nat)    // wakes goroutine w if anyone waits
    | Unlock(t: nat)
    | Cancel
    | Broadcast                 // the context's AfterFunc, not under the lock

  datatype State = State(
    max: nat,
    count: int,
    holder: Option<nat>,
    pc: map<nat, Pc>,
    granted: nat,               // successful Increments without a Decrement yet
    cancelled: bool)

  function Init(max: nat, threads: set<nat>): State {
    State(max, 0, None, map t | t in threads :: Idle, 0, false)
  }

  function Goto(s: State, t: nat, p: Pc): State { s.(pc := s.pc[t := p]) }

  ghost predicate SomeoneWaits(s: State) { exists t :: t in s.pc && s.pc[t].Waiting? }

  function WakeAll(pc: map<nat, Pc>): map<nat, Pc> {
    map t | t in pc :: if pc[t].Waiting? then Woken else pc[t]
  }

  /** One atomic action of the goroutine in state `p`, or None when it cannot take it. */
  ghost function Step(s: State, e: Event): Option<State> {
    if e.Cancel? then Some(s.(cancelled := true))
    else if e.Broadcast? then if s.cancelled then Some(s.(pc := WakeAll(s.pc))) else None
    else if e.t !in s.pc then None
    else
      var p := s.pc[e.t];
      match e
      case Increment(t) => if p.Idle? then Some(Goto(s, t, IncLock)) else None
      case Decrement(t) =>
        if p.Idle? && s.granted > 0 then Some(Goto(s.(granted := s.granted - 1), t, DecLock)) else None
      case Lock(t) =>
        if s.holder.Some? then None
        else if p.IncLock? || p.Woken? then Some(Goto(s.(holder := Some(t)), t, IncCheck))
        else if p.DecLock? then Some(Goto(s.(holder := Some(t)), t, DecCount))
        else None
      case Check(t) =>
        if !p.IncCheck? then None
        else if s.count < s.max then Some(Goto(s.(count := s.count + 1, granted := s.granted + 1), t, Leaving))
        else if s.cancelled then Some(Goto(s, t, Leaving))
        else Some(Goto(s, t, IncSleep))
      case Sleep(t) => if p.IncSleep? then Some(Goto(s.(holder := None), t, Waiting)) else None
      case CountDown(t) => if p.DecCount? then Some(Goto(s.(count := s.count - 1), t, DecSignal)) else None
      case Signal(t, w) =>
        if !p.DecSignal? then None
        else if !SomeoneWaits(s) then Some(Goto(s, t, Leaving))
        else if w in s.pc && s.pc[w].Waiting? then Some(Goto(Goto(s, w, Woken), t, Leaving))
        else None
      case Unlock(t) => if p.Leaving? then Some(Goto(s.(holder := None), t, Idle)) else None
  }

  predicate HoldsLock(p: Pc) { p.IncCheck? || p.IncSleep? || p.DecCount? || p.DecSignal? || p.Leaving? }

  /** A Decrement that has begun but not yet counted down. */
  predicate CountingDown(p: Pc) { p.DecLock? || p.DecCount? }

  /** On its way to a free slot, or about to send somebody there. */
  predicate Arriving(p: Pc) { p.Woken? || p.IncCheck? || p.DecSignal? }

  predicate IsWoken(p: Pc) { p.Woken? }

  ghost predicate LockExclusive(s: State) {
    forall t :: t in s.pc ==> (HoldsLock(s.pc[t]) <==> s.holder == Some(t))
  }

  ghost predicate Tokens(s: State) {
    s.count == s.granted + Count(s.pc, CountingDown) && s.count <= s.max
  }

  /** No wakeup is lost: with a waiter asleep, every free slot has somebody coming for it. */
  ghost predicate NoLostWakeup(s: State) {
    SomeoneWaits(s) ==> s.max - s.count <= Count(s.pc, Arriving)
  }

  /** Who goes to sleep saw a full latch, and the lock has been held ever since. */
  ghost predicate SleepsOnFull(s: State) {
    forall t :: t in s.pc && s.pc[t].IncSleep? ==> s.count >= s.max
  }

  ghost predicate Inv(s: State) { LockExclusive(s) && Tokens(s) && SleepsOnFull(s) && NoLostWakeup(s) }

  lemma InitInv(max: nat, threads: set<nat>)
    ensures Inv(Init(max, threads))
  {
    CountZero(Init(max, threads).pc, CountingDown);
  }

  lemma {:induction false} WakeAllCounts(pc: map<nat, Pc>)
    ensures Count(WakeAll(pc), CountingDown) == Count(pc, CountingDown)
  {
    assert Where(WakeAll(pc), CountingDown) == Where(pc, CountingDown);
  }

  lemma StepLockExclusive(s: State, e: Event)
    requires LockExclusive(s) && Step(s, e).Some?
    ensures LockExclusive(Step(s, e).value)
  {
  }

  lemma StepTokens(s: State, e: Event)
    requires Tokens(s) && Step(s, e).Some?
    ensures Tokens(Step(s, e).value)
  {
    var n := Step(s, e).value;
    if e.Broadcast? {
      WakeAllCounts(s.pc);
    } else if e.Signal? && SomeoneWaits(s) {
      CountMove(s.pc, e.w, Woken, CountingDown);
      CountMove(s.pc[e.w := Woken], e.t, Leaving, CountingDown);
    } else if !e.Cancel? {
      CountMove(s.pc, e.t, n.pc[e.t], CountingDown);
      assert n.pc == s.pc[e.t := n.pc[e.t]];
    }
  }

  lemma StepSleepsOnFull(s: State, e: Event)
    requires LockExclusive(s) && SleepsOnFull(s) && Step(s, e).Some?
    ensures SleepsOnFull(Step(s, e).value)
  {
    if e.CountDown? || e.Check? {
      assert forall t :: t in s.pc && t != e.t ==> !HoldsLock(s.pc[t]);
    }
  }

  lemma StepNoLostWakeup(s: State, e: Event)
    requires Inv(s) && Step(s, e).Some?
    ensures NoLostWakeup(Step(s, e).value)
  {
    var n := Step(s, e).value;
    if e.Broadcast? || e.Cancel? {
    } else if e.Signal? && SomeoneWaits(s) {
      CountMove(s.pc, e.w, Woken, Arriving);
      CountMove(s.pc[e.w := Woken], e.t, Leaving, Arriving);
    } else {
      CountMove(s.pc, e.t, n.pc[e.t], Arriving);
      assert n.pc == s.pc[e.t := n.pc[e.t]];
      if u :| u in n.pc && n.pc[u].Waiting? && u != e.t {
        assert s.pc[u].Waiting?;
      }
    }
  }

  lemma {:induction false} ExecInv(s: State, es: seq<Event>)
    requires Inv(s) && Exec(Step, s, es).Some?
    ensures Inv(Exec(Step, s, es).value) && Exec(Step, s, es).value.max == s.max
    decreases |es|
  {
    if es != [] {
      StepLockExclusive(s, es[0]);
      StepTokens(s, es[0]);
      StepSleepsOnFull(s, es[0]);
      StepNoLostWakeup(s, es[0]);
      ExecInv(Step(s, es[0]).value, es[1..]);
    }
  }

  lemma ArrivingIsWoken(s: State)
    requires LockExclusive(s) && s.holder.None?
    ensures Count(s.pc, Arriving) == Count(s.pc, IsWoken)
  {
    assert Where(s.pc, Arriving) == Where(s.pc, IsWoken);
  }

  /**
   In every interleaving the count stays between 0 and max, the mutex excludes, and whenever the
   lock is free and a waiter sleeps, the free slots do not outnumber the waiters already signalled.
   */
  lemma LatchIsSafe(max: nat, threads: set<nat>, es: seq<Event>)
    requires Exec(Step, Init(max, threads), es).Some?
    ensures var s := Exec(Step, Init(max, threads), es).value;
      && 0 <= s.count <= max
      && (forall t, u :: t in s.pc && u in s.pc && HoldsLock(s.pc[t]) && HoldsLock(s.pc[u]) ==> t == u)
      && (SomeoneWaits(s) ==> max - s.count <= Count(s.pc, Arriving))
      && (SomeoneWaits(s) && s.holder.None? ==> max - s.count <= Count(s.pc, IsWoken))
  {
    InitInv(max, threads);
    ExecInv(Init(max, threads), es);
    var s := Exec(Step, Init(max, threads), es).value;
    if s.holder.None? {
      ArrivingIsWoken(s);
    }
  }

  /** A goroutine sleeps while everybody else is outside the latch: then the latch is really full. */
  lemma SleepersMeanFull(max: nat, threads: set<nat>, es: seq<Event>)
    requires Exec(Step, Init(max, threads), es).Some?
    requires var s := Exec(Step, Init(max, threads), es).value;
      SomeoneWaits(s) && forall t :: t in s.pc ==> s.pc[t].Waiting? || s.pc[t].Idle?
    ensures Exec(Step, Init(max, threads), es).value.count == max
    ensures Exec(Step, Init(max, threads), es).value.granted == max
  {
    LatchIsSafe(max, threads, es);
    InitInv(max, threads);
    ExecInv(Init(max, threads), es);
    var s := Exec(Step, Init(max, threads), es).value;
    CountZero(s.pc, Arriving);
    CountZero(s.pc, CountingDown);
  }

  // Cancellation.

  /** After the broadcast only this goroutine can still be asleep or go to sleep. */
  ghost predicate OnlySleeper(s: State, sleepers: set<nat>) {
    && s.cancelled
    && forall t :: t in s.pc && (s.pc[t].IncSleep? || s.pc[t].Waiting?) ==> t in sleepers
  }

  lemma {:induction false} ExecOnlySleeper(s: State, es: seq<Event>, sleepers: set<nat>)
    requires OnlySleeper(s, sleepers) && Exec(Step, s, es).Some?
    ensures OnlySleeper(Exec(Step, s, es).value, sleepers)
    decreases |es|
  {
    if es != [] {
      ExecOnlySleeper(Step(s, es[0]).value, es[1..], sleepers);
    }
  }

  /** Goroutine t is asleep after some continuation of the run. */
  ghost predicate CanSleepOn(s: State, t: nat) {
    exists later: seq<Event> :: Exec(Step, s, later).Some? && AsleepIn(Exec(Step, s, later).value, t)
  }

  predicate AsleepIn(s: State, t: nat) { t in s.pc && s.pc[t].Waiting? }

  /**
   The broadcast of a cancellation is not made under the lock. A goroutine can be asleep after it, at once or later, if
   and only if the broadcast found it between its check and its wait, and that is one goroutine at most.
   */
  lemma CancellationMissedIff(max: nat, threads: set<nat>, es: seq<Event>, t: nat)
    requires Exec(Step, Init(max, threads), es).Some? && Step(Exec(Step, Init(max, threads), es).value, Broadcast).Some?
    ensures var s := Exec(Step, Init(max, threads), es).value;
      CanSleepOn(Step(s, Broadcast).value, t) <==> (t in s.pc && s.pc[t].IncSleep?)
    ensures var s := Exec(Step, Init(max, threads), es).value;
      forall u :: CanSleepOn(Step(s, Broadcast).value, t) && CanSleepOn(Step(s, Broadcast).value, u) ==> t == u
  {
    InitInv(max, threads);
    ExecInv(Init(max, threads), es);
    var s := Exec(Step, Init(max, threads), es).value;
    MissedIff(s, t);
    forall u | CanSleepOn(Step(s, Broadcast).value, t) && CanSleepOn(Step(s, Broadcast).value, u) ensures t == u {
      MissedIff(s, u);
      assert s.holder == Some(t) && s.holder == Some(u);
    }
  }

  lemma MissedIff(s: State, t: nat)
    requires Step(s, Broadcast).Some?
    ensures CanSleepOn(Step(s, Broadcast).value, t) <==> (t in s.pc && s.pc[t].IncSleep?)
  {
    var n := Step(s, Broadcast).value;
    var sleepers := set u | u in s.pc && s.pc[u].IncSleep?;
    if t in sleepers {
      ExecMore(Step, n, [], Sleep(t));
      assert [] + [Sleep(t)] == [Sleep(t)];
      assert AsleepIn(Exec(Step, n, [Sleep(t)]).value, t);
    }
    if later: seq<Event> :| Exec(Step, n, later).Some? && AsleepIn(Exec(Step, n, later).value, t) {
      ExecOnlySleeper(n, later, sleepers);
    }
  }

  /** Goroutine t takes k slots one after the other. */
  lemma {:induction false} Fill(max: nat, threads: set<nat>, t: nat, k: nat) returns (es: seq<Event>)
    requires k <= max && t in threads
    ensures Exec(Step, Init(max, threads), es) == Some(Init(max, threads).(count := k, granted := k))
  {
    if k == 0 {
      es := [];
    } else {
      es := Fill(max, threads, t, k - 1);
      es := Enter(max, threads, t, k - 1, es);
      var s := Init(max, threads);
      ExecMore(Step, s, es, Check(t)); es := es + [Check(t)];
      assert Exec(Step, s, es).value.pc == s.pc[t := Leaving];
      ExecMore(Step, s, es, Unlock(t)); es := es + [Unlock(t)];
      assert Exec(Step, s, es).value.pc == s.pc;
    }
  }

  /** Goroutine t calls Increment and gets the lock. */
  lemma Enter(max: nat, threads: set<nat>, t: nat, k: nat, before: seq<Event>) returns (es: seq<Event>)
    requires t in threads && Exec(Step, Init(max, threads), before) == Some(Init(max, threads).(count := k, granted := k))
    ensures var s := Init(max, threads).(count := k, granted := k);
      Exec(Step, Init(max, threads), es) == Some(s.(holder := Some(t), pc := s.pc[t := IncCheck]))
  {
    var s := Init(max, threads);
    es := before;
    ExecMore(Step, s, es, Increment(t)); es := es + [Increment(t)];
    ExecMore(Step, s, es, Lock(t)); es := es + [Lock(t)];
    assert Exec(Step, s, es).value.pc == s.pc[t := IncCheck];
  }

  /** It happens for every maximum: the goroutine sleeps on although everybody else is outside. */
  lemma CancellationCanBeMissed(max: nat, threads: set<nat>, t: nat) returns (es: seq<Event>)
    requires t in threads
    ensures Exec(Step, Init(max, threads), es)
         == Some(Init(max, threads).(count := max, granted := max, pc := Init(max, threads).pc[t := Waiting], cancelled := true))
    ensures Broadcast in es
  {
    var s := Init(max, threads);
    es := Fill(max, threads, t, max);
    es := Enter(max, threads, t, max, es);
    ExecMore(Step, s, es, Check(t)); es := es + [Check(t)];
    assert Exec(Step, s, es).value.pc == s.pc[t := IncSleep];
    es := BroadcastTooEarly(s, es, t);
    assert s.pc[t := IncSleep][t := Waiting] == s.pc[t := Waiting];
  }

  lemma BroadcastTooEarly(start: State, before: seq<Event>, t: nat) returns (es: seq<Event>)
    requires Exec(Step, start, before).Some?
    requires var s := Exec(Step, start, before).value; t in s.pc && s.pc[t].IncSleep? && forall u :: u in s.pc ==> !s.pc[u].Waiting?
    ensures var s := Exec(Step, start, before).value;
      Exec(Step, start, es) == Some(s.(pc := s.pc[t := Waiting], cancelled := true, holder := None))
    ensures Broadcast in es
  {
    var s := Exec(Step, start, before).value;
    es := before;
    ExecMore(Step, start, es, Cancel); es := es + [Cancel];
    ExecMore(Step, start, es, Broadcast); es := es + [Broadcast];
    assert WakeAll(s.pc) == s.pc;
    ExecMore(Step, start, es, Sleep(t)); es := es + [Sleep(t)];
  }
}
