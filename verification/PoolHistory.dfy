/** What the callers of a BlockingPool get, told from the events of a run. */
module PoolHistory {
  import opened BlockingPool
  import opened Runs
  import opened Wrappers

  // New objects.

  /** Goroutine t called Get at position i, and not again since. */
  predicate LastGet(es: seq<Event>, t: nat, i: nat) {
    i < |es| && es[i] == Get(t) && Get(t) !in es[i + 1..]
  }

  /** The Get at position i found nothing idle, or the caller retired a stale object since. */
  ghost predicate MayAllocate(s: State, es: seq<Event>, t: nat, i: nat)
    requires i < |es|
  {
    || Retire(t) in es[i + 1..]
    || (Exec(Step, s, es[..i]).Some? && Exec(Step, s, es[..i]).value.pool == [])
  }

  predicate Allocates(p: Pc) { p.GetLoad? || p.GetCas? || p.GetNew? || p.GetWait? }

  ghost predicate Excused(s: State, es: seq<Event>, t: nat, p: Pc) {
    Allocates(p) || p.GetValidate? || p.GetRetire? ==>
      exists i :: LastGet(es, t, i) && (Allocates(p) ==> MayAllocate(s, es, t, i))
  }

  lemma LaterGetIsLast(es: seq<Event>, t: nat, i: nat, e: Event)
    requires LastGet(es, t, i) && e != Get(t)
    ensures LastGet(es + [e], t, i) && (es + [e])[..i] == es[..i]
    ensures (es + [e])[i + 1..] == es[i + 1..] + [e]
  {
  }

  lemma StepExcused(s: State, es: seq<Event>, e: Event, t: nat)
    requires Exec(Step, s, es).Some? && Step(Exec(Step, s, es).value, e).Some? && t in Exec(Step, s, es).value.pc
    requires Excused(s, es, t, Exec(Step, s, es).value.pc[t])
    ensures Excused(s, es + [e], t, Step(Exec(Step, s, es).value, e).value.pc[t])
  {
    var p, q := Exec(Step, s, es).value.pc[t], Step(Exec(Step, s, es).value, e).value.pc[t];
    if e == Get(t) {
      assert (es + [e])[..|es|] == es && (es + [e])[|es| + 1..] == [];
      assert LastGet(es + [e], t, |es|);
    } else if i :| LastGet(es, t, i) && (Allocates(p) ==> MayAllocate(s, es, t, i)) {
      LaterGetIsLast(es, t, i, e);
      assert e == Retire(t) ==> Retire(t) in (es + [e])[i + 1..];
      assert Allocates(q) ==> Allocates(p) || e == Retire(t);
    }
  }

  lemma {:induction false} ExecExcused(s: State, es: seq<Event>, t: nat)
    requires Exec(Step, s, es).Some? && t in s.pc && s.pc[t].Idle?
    ensures t in Exec(Step, s, es).value.pc && Excused(s, es, t, Exec(Step, s, es).value.pc[t])
    decreases |es|
  {
    if es != [] {
      var before, e := es[..|es| - 1], es[|es| - 1];
      assert es == before + [e];
      ExecSplit(Step, s, before, [e]);
      ExecExcused(s, before, t);
      StepExcused(s, before, e, t);
    }
  }

  /**
   In every run, whatever callers do: a Get constructs a new object only if it found nothing idle when it was called,
   or it has retired a stale object since.
   */
  lemma AllocatesOnlyInNeed(limit: nat, threads: set<nat>, es: seq<Event>, t: nat, ok: bool)
    requires Exec(Step, Init(limit, threads), es).Some?
    requires Step(Exec(Step, Init(limit, threads), es).value, New(t, ok)).Some?
    ensures exists i :: LastGet(es, t, i) && MayAllocate(Init(limit, threads), es, t, i)
  {
    SameGoroutines(Init(limit, threads), es);
    ExecExcused(Init(limit, threads), es, t);
  }

  lemma {:induction false} SameGoroutines(s: State, es: seq<Event>)
    requires Exec(Step, s, es).Some?
    ensures Exec(Step, s, es).value.pc.Keys == s.pc.Keys
    decreases |es|
  {
    if es != [] {
      assert Step(s, es[0]).value.pc.Keys == s.pc.Keys;
      SameGoroutines(Step(s, es[0]).value, es[1..]);
    }
  }

  // Idle objects.

  /** What goes into the channel at an event, and what comes out of it. */
  function Into(s: State, e: Event): seq<Item> {
    if e.Send? && e.t in s.pc && s.pc[e.t].PutSend? then [s.pc[e.t].item] else []
  }

  function OutOf(s: State, e: Event): seq<Item> {
    if (e.Get? || e.Receive?) && Step(s, e).Some? && Step(s, e).value.pc[e.t].GetValidate?
    then [Step(s, e).value.pc[e.t].item]
    else []
  }

  function Returned(s: State, es: seq<Event>): seq<Item>
    decreases |es|
  {
    if es == [] || Step(s, es[0]).None? then [] else Into(s, es[0]) + Returned(Step(s, es[0]).value, es[1..])
  }

  function Taken(s: State, es: seq<Event>): seq<Item>
    decreases |es|
  {
    if es == [] || Step(s, es[0]).None? then [] else OutOf(s, es[0]) + Taken(Step(s, es[0]).value, es[1..])
  }

  lemma StepInOrder(s: State, e: Event)
    requires Step(s, e).Some?
    ensures s.pool + Into(s, e) == OutOf(s, e) + Step(s, e).value.pool
  {
  }

  /** Joining two stretches of a run. */
  lemma Join(a: seq<Item>, i: seq<Item>, o: seq<Item>, b: seq<Item>, in2: seq<Item>, out2: seq<Item>, c: seq<Item>)
    requires a + i == o + b && b + in2 == out2 + c
    ensures a + (i + in2) == (o + out2) + c
  {
    assert a + (i + in2) == (a + i) + in2;
    assert (o + b) + in2 == o + (b + in2);
    assert o + (out2 + c) == (o + out2) + c;
  }

  lemma {:induction false} ExecInOrder(s: State, es: seq<Event>)
    requires Exec(Step, s, es).Some?
    ensures s.pool + Returned(s, es) == Taken(s, es) + Exec(Step, s, es).value.pool
    decreases |es|
  {
    if es != [] {
      var n, end := Step(s, es[0]).value, Exec(Step, s, es).value;
      StepInOrder(s, es[0]);
      ExecInOrder(n, es[1..]);
      Join(s.pool, Into(s, es[0]), OutOf(s, es[0]), n.pool, Returned(n, es[1..]), Taken(n, es[1..]), end.pool);
    }
  }

  /** In every run idle objects are handed out in the order in which they were returned, and none is skipped. */
  lemma IdleFirstInFirstOut(limit: nat, threads: set<nat>, es: seq<Event>)
    requires Exec(Step, Init(limit, threads), es).Some?
    ensures Returned(Init(limit, threads), es)
         == Taken(Init(limit, threads), es) + Exec(Step, Init(limit, threads), es).value.pool
  {
    ExecInOrder(Init(limit, threads), es);
    assert [] + Returned(Init(limit, threads), es) == Returned(Init(limit, threads), es);
  }

  /** Goroutine t returns a valid object to a pool with room ... */
  lemma RunPut(s: State, t: nat, x: Item)
    requires t in s.pc && s.pc[t].Idle? && x in s.out && |s.pool| < s.limit
    ensures Exec(Step, s, [Put(t, x), Validate(t, true), Send(t)]) == Some(s.(out := s.out - {x}, pool := s.pool + [x]))
  {
    var run := [Put(t, x)];
    assert run[1..] == [];
    ExecMore(Step, s, run, Validate(t, true)); run := run + [Validate(t, true)];
    assert Exec(Step, s, run).value.pc == s.pc[t := PutSend(x)];
    ExecMore(Step, s, run, Send(t)); run := run + [Send(t)];
    assert s.pc[t := PutSend(x)][t := Idle] == s.pc;
  }

  /** ... and gets the object that is idle longest. */
  lemma RunGet(s: State, t: nat)
    requires t in s.pc && s.pc[t].Idle? && s.pool != []
    ensures Exec(Step, s, [Get(t), Validate(t, true)]) == Some(s.(out := s.out + {s.pool[0]}, pool := s.pool[1..]))
  {
    var run := [Get(t)];
    assert run[1..] == [];
    ExecMore(Step, s, run, Validate(t, true));
    assert s.pc[t := GetValidate(s.pool[0])][t := Idle] == s.pc;
  }

  /** A caller that returns a valid object to a pool with nothing idle, and asks again, gets that very object. */
  lemma PutThenGet(limit: nat, threads: set<nat>, es: seq<Event>, t: nat, x: Item)
    requires Exec(Step, Init(limit, threads), es).Some? && Disciplined(es)
    requires var s := Exec(Step, Init(limit, threads), es).value;
      t in s.pc && s.pc[t].Idle? && x in s.out && s.pool == []
    ensures var s := Exec(Step, Init(limit, threads), es).value;
      Exec(Step, s, [Put(t, x), Validate(t, true), Send(t)] + [Get(t), Validate(t, true)]) == Some(s)
  {
    InitInv(limit, threads);
    ExecInv(Init(limit, threads), es);
    var s := Exec(Step, Init(limit, threads), es).value;
    assert |s.out| >= 1 by { assert s.out == (s.out - {x}) + {x}; }
    RunPut(s, t, x);
    var put := s.(out := s.out - {x}, pool := [x]);
    RunGet(put, t);
    assert put.(out := put.out + {x}, pool := put.pool[1..]) == s;
    ExecJoin(Step, s, [Put(t, x), Validate(t, true), Send(t)], [Get(t), Validate(t, true)]);
  }

  // Stale objects.

  lemma {:induction false} ExecExclusive(s: State, es: seq<Event>)
    requires Exclusive(s) && Exec(Step, s, es).Some?
    ensures Exclusive(Exec(Step, s, es).value)
    decreases |es|
  {
    if es != [] {
      StepPoolDistinct(s, es[0]);
      StepHandsApart(s, es[0]);
      StepHandsDistinct(s, es[0]);
      ExecExclusive(Step(s, es[0]).value, es[1..]);
    }
  }

  /** Object x was constructed, and nobody has it any more. */
  ghost predicate Gone(s: State, x: Item) {
    && x < s.nextItem && x !in s.pool && x !in s.out
    && forall t :: t in s.pc && HoldsItem(s.pc[t]) ==> s.pc[t].item != x
  }

  lemma {:induction false} GoneForGood(s: State, x: Item, es: seq<Event>)
    requires Gone(s, x) && Exec(Step, s, es).Some?
    ensures Gone(Exec(Step, s, es).value, x)
    decreases |es|
  {
    if es != [] {
      StepGone(s, x, es[0]);
      GoneForGood(Step(s, es[0]).value, x, es[1..]);
    }
  }

  lemma StepGone(s: State, x: Item, e: Event)
    requires Gone(s, x) && Step(s, e).Some?
    ensures Gone(Step(s, e).value, x)
  {
    if !e.Cancel? {
      StepItemSource(s, e);
    }
  }

  /** In every run, foreign Puts included: an object that failed a validation, in Get or in Put, never comes back. */
  lemma StaleNeverReturns(limit: nat, threads: set<nat>, es: seq<Event>, t: nat, later: seq<Event>)
    requires Exec(Step, Init(limit, threads), es).Some?
    requires var s := Exec(Step, Init(limit, threads), es).value;
      && t in s.pc && (s.pc[t].GetValidate? || s.pc[t].PutValidate?)
      && Exec(Step, s, [Validate(t, false)] + later).Some?
    ensures var s := Exec(Step, Init(limit, threads), es).value;
      Gone(Exec(Step, s, [Validate(t, false)] + later).value, s.pc[t].item)
  {
    ExecExclusive(Init(limit, threads), es);
    var s := Exec(Step, Init(limit, threads), es).value;
    var run := [Validate(t, false)] + later;
    assert run[0] == Validate(t, false) && run[1..] == later;
    assert Gone(Step(s, run[0]).value, s.pc[t].item);
    GoneForGood(Step(s, run[0]).value, s.pc[t].item, later);
  }

  // Slots that are kept, and cancellation.

  function Keeps(e: Event): nat { if (e.New? && !e.ok) || e.SendCancelled? then 1 else 0 }

  function KeptBy(es: seq<Event>): nat {
    if es == [] then 0 else Keeps(es[0]) + KeptBy(es[1..])
  }

  predicate NeedsCancel(e: Event) { e.GiveUp? || e.SendCancelled? }

  lemma {:induction false} ExecKept(s: State, es: seq<Event>)
    requires Exec(Step, s, es).Some?
    ensures Exec(Step, s, es).value.kept == s.kept + KeptBy(es)
    ensures Exec(Step, s, es).value.cancelled <==> s.cancelled || Cancel in es
    ensures !s.cancelled && Cancel !in es ==> forall i :: 0 <= i < |es| ==> !NeedsCancel(es[i])
    decreases |es|
  {
    if es != [] {
      ExecKept(Step(s, es[0]).value, es[1..]);
      assert es == [es[0]] + es[1..];
    }
  }

  /**
   Slots are kept for nothing exactly by constructions that returned nil and by returns that a cancellation cut short;
   without a cancellation there are none of the latter, and no Get gives up.
   */
  lemma KeptSlotsHaveReasons(limit: nat, threads: set<nat>, es: seq<Event>)
    requires Exec(Step, Init(limit, threads), es).Some?
    ensures Exec(Step, Init(limit, threads), es).value.kept == KeptBy(es)
    ensures Cancel !in es ==> forall i :: 0 <= i < |es| ==> !es[i].GiveUp? && !es[i].SendCancelled?
  {
    ExecKept(Init(limit, threads), es);
    assert forall i :: 0 <= i < |es| && (es[i].GiveUp? || es[i].SendCancelled?) ==> NeedsCancel(es[i]);
  }
}
