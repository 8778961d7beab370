/**
 The bounded object pool of internal/util/blocking_pool.go, interleaved at the
 level of atomic load, compare-and-swap, channel operation and validation.
 Every goroutine is a program counter; an event moves one of them.
 */
module BlockingPool {
  import opened Counting
  import opened Runs
  import opened Wrappers

  type Item = nat

  datatype Pc =
    | Idle
    | GetValidate(item: Item)   // received from the channel, about to call Validate
    | GetRetire                 // the item was stale, about to count.Add(-1)
    | GetLoad                   // at the top of the allocation loop
    | GetCas(seen: int)         // loaded `seen` below the limit
    | GetNew                    // reserved a slot, about to call New
    | GetWait                   // pool at its limit, blocked in the second select
    | PutValidate(item: Item)
    | PutRetire                 // validation failed, about to count.Add(-1)
    | PutSend(item: Item)       // about to send to the channel

  datatype Event =
    | Get(t: nat)               // call Get, first select
    | Validate(t: nat, ok: bool)
    | Retire(t: nat)
    | Load(t: nat)
    | Cas(t: nat)
    | New(t: nat, ok: bool)     // ok == false: the constructor returned nil
    | Receive(t: nat)
    | GiveUp(t: nat)            // a blocked Get sees the cancelled context
    | Put(t: nat, item: Item)   // return an item that Get handed out
    | PutForeign(t: nat)        // return something this pool never handed out
    | Send(t: nat)
    | SendCancelled(t: nat)
    | SendFull(t: nat)          // the "pool is full" branch
    | Cancel

  datatype State = State(
    limit: nat,
    count: int,
    pool: seq<Item>,            // the buffered channel
    pc: map<nat, Pc>,
    out: set<Item>,             // handed out by Get and not yet passed to Put
    kept: nat,                  // slots kept by nil constructions and cancelled puts
    nextItem: Item,                // the next object New will allocate
    cancelled: bool)

  function Init(limit: nat, threads: set<nat>): State {
    State(limit, 0, [], map t | t in threads :: Idle, {}, 0, 0, false)
  }

  function Goto(s: State, t: nat, p: Pc): State { s.(pc := s.pc[t := p]) }

  /** One atomic action; None when the goroutine is not there or the channel does not allow it. */
  function Step(s: State, e: Event): Option<State> {
    if e.Cancel? then Some(s.(cancelled := true))
    else if e.t !in s.pc then None
    else
      var p := s.pc[e.t];
      match e
      case Get(t) =>
        if !p.Idle? then None
        else if s.pool == [] then Some(Goto(s, t, GetLoad))
        else Some(Goto(s.(pool := s.pool[1..]), t, GetValidate(s.pool[0])))
      case Validate(t, ok) =>
        if p.GetValidate? then
          if ok then Some(Goto(s.(out := s.out + {p.item}), t, Idle)) else Some(Goto(s, t, GetRetire))
        else if p.PutValidate? then Some(Goto(s, t, if ok then PutSend(p.item) else PutRetire))
        else None
      case Retire(t) =>
        if p.GetRetire? then Some(Goto(s.(count := s.count - 1), t, GetLoad))
        else if p.PutRetire? then Some(Goto(s.(count := s.count - 1), t, Idle))
        else None
      case Load(t) =>
        if !p.GetLoad? then None
        else Some(Goto(s, t, if s.count < s.limit then GetCas(s.count) else GetWait))
      case Cas(t) =>
        if !p.GetCas? then None
        else if s.count == p.seen then Some(Goto(s.(count := p.seen + 1), t, GetNew))
        else Some(Goto(s, t, GetLoad))
      case New(t, ok) =>
        if !p.GetNew? then None
        else if ok then Some(Goto(s.(out := s.out + {s.nextItem}, nextItem := s.nextItem + 1), t, Idle))
        else Some(Goto(s.(kept := s.kept + 1), t, Idle))
      case Receive(t) =>
        if !p.GetWait? || s.pool == [] then None
        else Some(Goto(s.(pool := s.pool[1..]), t, GetValidate(s.pool[0])))
      case GiveUp(t) => if p.GetWait? && s.cancelled then Some(Goto(s, t, Idle)) else None
      case Put(t, x) =>
        if p.Idle? && x in s.out then Some(Goto(s.(out := s.out - {x}), t, PutValidate(x))) else None
      case PutForeign(t) =>
        if p.Idle? then Some(Goto(s.(nextItem := s.nextItem + 1), t, PutValidate(s.nextItem))) else None
      case Send(t) =>
        if p.PutSend? && |s.pool| < s.limit then Some(Goto(s.(pool := s.pool + [p.item]), t, Idle)) else None
      case SendCancelled(t) =>
        if p.PutSend? && s.cancelled then Some(Goto(s.(kept := s.kept + 1), t, Idle)) else None
      case SendFull(t) =>
        if p.PutSend? && |s.pool| >= s.limit then Some(Goto(s, t, Idle)) else None
  }

  /** Callers only put back what they got. */
  predicate Disciplined(es: seq<Event>) {
    forall i :: 0 <= i < |es| ==> !es[i].PutForeign?
  }

  /** The goroutine accounts for one unit of `count` that is neither idle nor checked out. */
  predicate InTransit(p: Pc) {
    p.GetValidate? || p.GetRetire? || p.GetNew? || p.PutValidate? || p.PutRetire? || p.PutSend?
  }

  predicate Holds(p: Pc, x: Item) {
    (p.GetValidate? || p.PutValidate? || p.PutSend?) && p.item == x
  }

  predicate HoldsItem(p: Pc) { p.GetValidate? || p.PutValidate? || p.PutSend? }

  /** Slots in use: idle items, checked-out items, slots in transit, slots kept for nothing. */
  ghost function Slots(s: State): int {
    |s.pool| + |s.out| + Count(s.pc, InTransit) + s.kept
  }

  ghost predicate CountExact(s: State) { s.count == Slots(s) && s.count <= s.limit }

  /** A reservation is only attempted from a count below the limit. */
  ghost predicate SeenBelowLimit(s: State) {
    forall t :: t in s.pc && s.pc[t].GetCas? ==> s.pc[t].seen < s.limit
  }

  ghost predicate Accounted(s: State) { CountExact(s) && SeenBelowLimit(s) }

  ghost predicate Distinct(pool: seq<Item>, out: set<Item>, bound: Item) {
    && (forall i :: 0 <= i < |pool| ==> pool[i] < bound && pool[i] !in out)
    && (forall i, j :: 0 <= i < j < |pool| ==> pool[i] != pool[j])
    && (forall x :: x in out ==> x < bound)
  }

  ghost predicate PoolDistinct(s: State) { Distinct(s.pool, s.out, s.nextItem) }

  ghost predicate HandsApart(s: State) {
    forall t :: t in s.pc && HoldsItem(s.pc[t]) ==>
      s.pc[t].item < s.nextItem && s.pc[t].item !in s.out && s.pc[t].item !in s.pool
  }

  ghost predicate HandsDistinct(s: State) {
    forall t, u :: t in s.pc && u in s.pc && t != u && HoldsItem(s.pc[t]) && HoldsItem(s.pc[u]) ==>
      s.pc[t].item != s.pc[u].item
  }

  /** Every live object has exactly one owner: the channel, a caller, or one goroutine inside Get or Put. */
  ghost predicate Exclusive(s: State) { PoolDistinct(s) && HandsApart(s) && HandsDistinct(s) }

  ghost predicate Inv(s: State) { Accounted(s) && Exclusive(s) }

  lemma InitInv(limit: nat, threads: set<nat>)
    ensures Inv(Init(limit, threads))
  {
    CountZero(Init(limit, threads).pc, InTransit);
  }

  /** Idle items, checked-out items and kept slots, minus the counter: what the moving goroutine must make up for. */
  function Balance(s: State): int { |s.pool| + |s.out| + s.kept - s.count }

  /** What a step adds to `count` it adds to the slots, goroutine included. */
  lemma StepBalance(s: State, e: Event)
    requires Step(s, e).Some? && !e.PutForeign? && !e.Cancel? && !e.SendFull?
    requires s.nextItem !in s.out && (HoldsItem(s.pc[e.t]) ==> s.pc[e.t].item !in s.out)
    ensures var n := Step(s, e).value;
      && n.pc == s.pc[e.t := n.pc[e.t]]
      && Balance(n) + One(InTransit(n.pc[e.t])) == Balance(s) + One(InTransit(s.pc[e.t]))
  {
    if e.Get? || e.Receive? || e.Load? || e.Cas? || e.GiveUp? {
      BalanceOfGet(s, e);
    } else if e.New? || e.Validate? {
      BalanceOfItem(s, e);
    } else if e.Put? {
      BalanceOfPut(s, e);
    } else {
      BalanceOfReturn(s, e);
    }
  }

  lemma BalanceOfGet(s: State, e: Event)
    requires Step(s, e).Some? && (e.Get? || e.Receive? || e.Load? || e.Cas? || e.GiveUp?)
    ensures var n := Step(s, e).value;
      && n.pc == s.pc[e.t := n.pc[e.t]]
      && Balance(n) + One(InTransit(n.pc[e.t])) == Balance(s) + One(InTransit(s.pc[e.t]))
  {
  }

  lemma BalanceOfItem(s: State, e: Event)
    requires Step(s, e).Some? && (e.New? || e.Validate?)
    requires s.nextItem !in s.out && (HoldsItem(s.pc[e.t]) ==> s.pc[e.t].item !in s.out)
    ensures var n := Step(s, e).value;
      && n.pc == s.pc[e.t := n.pc[e.t]]
      && Balance(n) + One(InTransit(n.pc[e.t])) == Balance(s) + One(InTransit(s.pc[e.t]))
  {
  }

  lemma BalanceOfPut(s: State, e: Event)
    requires Step(s, e).Some? && e.Put?
    ensures var n := Step(s, e).value;
      && n.pc == s.pc[e.t := n.pc[e.t]]
      && Balance(n) + One(InTransit(n.pc[e.t])) == Balance(s) + One(InTransit(s.pc[e.t]))
  {
    assert s.out == (s.out - {e.item}) + {e.item};
  }

  lemma BalanceOfReturn(s: State, e: Event)
    requires Step(s, e).Some? && (e.Retire? || e.Send? || e.SendCancelled?)
    ensures var n := Step(s, e).value;
      && n.pc == s.pc[e.t := n.pc[e.t]]
      && Balance(n) + One(InTransit(n.pc[e.t])) == Balance(s) + One(InTransit(s.pc[e.t]))
  {
  }

  /** An item on its way into the channel is counted, so the channel has room for it. */
  lemma PutFindsRoom(s: State, t: nat)
    requires CountExact(s) && t in s.pc && s.pc[t].PutSend?
    ensures |s.pool| < s.limit
  {
    CountMove(s.pc, t, Idle, InTransit);
  }

  lemma StepCountExact(s: State, e: Event)
    requires CountExact(s) && SeenBelowLimit(s) && PoolDistinct(s) && HandsApart(s)
    requires Step(s, e).Some? && !e.PutForeign?
    ensures CountExact(Step(s, e).value)
  {
    if e.SendFull? {
      PutFindsRoom(s, e.t);
    } else if !e.Cancel? {
      StepBalance(s, e);
      CountMove(s.pc, e.t, Step(s, e).value.pc[e.t], InTransit);
      StepWithinLimit(s, e);
    }
  }

  lemma StepWithinLimit(s: State, e: Event)
    requires SeenBelowLimit(s) && s.count <= s.limit && Step(s, e).Some?
    ensures Step(s, e).value.count <= s.limit == Step(s, e).value.limit
    ensures SeenBelowLimit(Step(s, e).value)
  {
  }

  lemma SendKeepsDistinct(pool: seq<Item>, out: set<Item>, bound: Item, x: Item)
    requires Distinct(pool, out, bound) && x < bound && x !in out && x !in pool
    ensures Distinct(pool + [x], out, bound)
  {
  }

  lemma StepPoolDistinct(s: State, e: Event)
    requires PoolDistinct(s) && HandsApart(s) && Step(s, e).Some?
    ensures PoolDistinct(Step(s, e).value)
  {
    var n := Step(s, e).value;
    if e.Send? {
      SendKeepsDistinct(s.pool, s.out, s.nextItem, s.pc[e.t].item);
    } else if e.Get? || e.Receive? {
      assert n.out == s.out && n.nextItem == s.nextItem;
    } else {
      assert n.pool == s.pool;
    }
  }

  lemma StepHandsApart(s: State, e: Event)
    requires PoolDistinct(s) && HandsApart(s) && HandsDistinct(s) && Step(s, e).Some?
    ensures HandsApart(Step(s, e).value)
  {
    var n := Step(s, e).value;
    forall t | t in n.pc && HoldsItem(n.pc[t])
      ensures n.pc[t].item < n.nextItem && n.pc[t].item !in n.out && n.pc[t].item !in n.pool
    {
      if !e.Cancel? && t != e.t {
        assert n.pc[t] == s.pc[t];
      }
    }
  }

  /** Where an item in a goroutine's hands can come from. */
  ghost predicate Available(s: State, t: nat, x: Item)
    requires t in s.pc
  {
    || (HoldsItem(s.pc[t]) && s.pc[t].item == x)
    || x in s.pool || x in s.out || x == s.nextItem
  }

  lemma StepItemSource(s: State, e: Event)
    requires Step(s, e).Some? && !e.Cancel?
    ensures var q := Step(s, e).value.pc[e.t]; HoldsItem(q) ==> Available(s, e.t, q.item)
    ensures Step(s, e).value.pc == s.pc[e.t := Step(s, e).value.pc[e.t]]
  {
  }

  lemma MoveKeepsHandsDistinct(s: State, t: nat, q: Pc)
    requires HandsApart(s) && HandsDistinct(s) && t in s.pc
    requires HoldsItem(q) ==> Available(s, t, q.item)
    ensures HandsDistinct(s.(pc := s.pc[t := q]))
  {
  }

  lemma StepHandsDistinct(s: State, e: Event)
    requires HandsApart(s) && HandsDistinct(s) && Step(s, e).Some?
    ensures HandsDistinct(Step(s, e).value)
  {
    if !e.Cancel? {
      StepItemSource(s, e);
      MoveKeepsHandsDistinct(s, e.t, Step(s, e).value.pc[e.t]);
    }
  }

  lemma StepInv(s: State, e: Event)
    requires Inv(s) && Step(s, e).Some? && !e.PutForeign?
    ensures Inv(Step(s, e).value) && Step(s, e).value.limit == s.limit
  {
    StepCountExact(s, e);
    StepWithinLimit(s, e);
    StepPoolDistinct(s, e);
    StepHandsApart(s, e);
    StepHandsDistinct(s, e);
  }

  lemma {:induction false} ExecInv(s: State, es: seq<Event>)
    requires Inv(s) && Exec(Step, s, es).Some? && Disciplined(es)
    ensures Inv(Exec(Step, s, es).value) && Exec(Step, s, es).value.limit == s.limit
    decreases |es|
  {
    if es != [] {
      assert !es[0].PutForeign?;
      StepInv(s, es[0]);
      ExecInv(Step(s, es[0]).value, es[1..]);
    }
  }

  /** Objects that exist and are usable: idle, checked out, or in a goroutine's hands. */
  ghost function Live(s: State): int { |s.pool| + |s.out| + Count(s.pc, HoldsItem) }

  lemma {:induction false} HoldersInTransit(m: map<nat, Pc>)
    ensures Count(m, HoldsItem) <= Count(m, InTransit)
  {
    var a, b := Where(m, HoldsItem), Where(m, InTransit);
    assert a <= b;
    assert b == a + (b - a);
  }

  /**
   In every interleaving of disciplined callers the counter is exact and within the limit,
   no more than `limit` objects are live, and each has one owner.
   */
  lemma PoolIsBounded(limit: nat, threads: set<nat>, es: seq<Event>)
    requires Exec(Step, Init(limit, threads), es).Some? && Disciplined(es)
    ensures var s := Exec(Step, Init(limit, threads), es).value;
      && 0 <= s.count <= limit
      && s.count == |s.pool| + |s.out| + Count(s.pc, InTransit) + s.kept
      && Live(s) <= limit
      && Exclusive(s)
  {
    InitInv(limit, threads);
    ExecInv(Init(limit, threads), es);
    HoldersInTransit(Exec(Step, Init(limit, threads), es).value.pc);
  }

  /** ... and the "pool is full" branch of Put is never taken: a returned item always finds room. */
  lemma FullBranchUnreachable(limit: nat, threads: set<nat>, es: seq<Event>, t: nat)
    requires Exec(Step, Init(limit, threads), es).Some? && Disciplined(es)
    ensures var s := Exec(Step, Init(limit, threads), es).value;
      && Step(s, SendFull(t)).None?
      && (t in s.pc && s.pc[t].PutSend? ==> Step(s, Send(t)).Some?)
  {
    InitInv(limit, threads);
    ExecInv(Init(limit, threads), es);
    var s := Exec(Step, Init(limit, threads), es).value;
    if t in s.pc && s.pc[t].PutSend? {
      PutFindsRoom(s, t);
    }
  }

  /** The objects 0 to k - 1. */
  function FirstItems(k: nat): set<Item> {
    if k == 0 then {} else FirstItems(k - 1) + {k - 1}
  }

  lemma {:induction false} FirstItemsAre(k: nat)
    ensures |FirstItems(k)| == k && forall x: Item :: x in FirstItems(k) <==> x < k
  {
    if k > 0 {
      FirstItemsAre(k - 1);
    }
  }

  /** The pool after goroutine t has got k objects one after the other and kept them. */
  function Drained(limit: nat, threads: set<nat>, k: nat): State {
    Init(limit, threads).(count := k, out := FirstItems(k), nextItem := k)
  }

  lemma {:induction false} GetMany(limit: nat, threads: set<nat>, t: nat, k: nat) returns (es: seq<Event>)
    requires k <= limit && t in threads
    ensures Disciplined(es) && Exec(Step, Init(limit, threads), es) == Some(Drained(limit, threads, k))
    ensures forall i :: 0 <= i < |es| ==> !es[i].Retire?
  {
    if k == 0 {
      es := [];
    } else {
      es := GetMany(limit, threads, t, k - 1);
      es := GetOne(limit, threads, t, k - 1, es);
    }
  }

  lemma GetOne(limit: nat, threads: set<nat>, t: nat, k: nat, before: seq<Event>) returns (es: seq<Event>)
    requires k < limit && t in threads && Disciplined(before) && forall i :: 0 <= i < |before| ==> !before[i].Retire?
    requires Exec(Step, Init(limit, threads), before) == Some(Drained(limit, threads, k))
    ensures Disciplined(es) && Exec(Step, Init(limit, threads), es) == Some(Drained(limit, threads, k + 1))
    ensures forall i :: 0 <= i < |es| ==> !es[i].Retire?
  {
    var s := Init(limit, threads);
    es := ReserveOne(limit, threads, t, k, before);
    ExecMore(Step, s, es, New(t, true)); es := es + [New(t, true)];
    assert Exec(Step, s, es).value.pc == s.pc;
  }

  lemma ReserveOne(limit: nat, threads: set<nat>, t: nat, k: nat, before: seq<Event>) returns (es: seq<Event>)
    requires k < limit && t in threads && Disciplined(before) && forall i :: 0 <= i < |before| ==> !before[i].Retire?
    requires Exec(Step, Init(limit, threads), before) == Some(Drained(limit, threads, k))
    ensures Disciplined(es) && forall i :: 0 <= i < |es| ==> !es[i].Retire?
    ensures AlwaysValid(before) ==> AlwaysValid(es)
    ensures var d := Drained(limit, threads, k);
      Exec(Step, Init(limit, threads), es) == Some(d.(count := k + 1, pc := d.pc[t := GetNew]))
  {
    var s := Init(limit, threads);
    es := before;
    ExecMore(Step, s, es, Get(t)); es := es + [Get(t)];
    ExecMore(Step, s, es, Load(t)); es := es + [Load(t)];
    assert Exec(Step, s, es).value.pc == s.pc[t := GetCas(k)];
    ExecMore(Step, s, es, Cas(t)); es := es + [Cas(t)];
    assert Exec(Step, s, es).value.pc == s.pc[t := GetNew];
  }

  /** Both results need the discipline: whatever the limit, one foreign Put leaves more live objects than it allows. */
  lemma ForeignPutBreaksTheLimit(limit: nat, threads: set<nat>, t: nat) returns (es: seq<Event>)
    requires t in threads
    ensures Exec(Step, Init(limit, threads), es).Some? && Live(Exec(Step, Init(limit, threads), es).value) > limit
    ensures |es| > 0 && es[|es| - 1] == PutForeign(t) && Disciplined(es[..|es| - 1])
  {
    var s := Init(limit, threads);
    var drain := GetMany(limit, threads, t, limit);
    ExecMore(Step, s, drain, PutForeign(t)); es := drain + [PutForeign(t)];
    assert es[..|es| - 1] == drain;
    var end := Exec(Step, s, es).value;
    FirstItemsAre(limit);
    assert t in Where(end.pc, HoldsItem);
  }

  // Progress.

  /** A goroutine is blocked although a slot is free and nobody else is inside the pool. */
  ghost predicate Stranded(s: State, t: nat) {
    && t in s.pc && s.pc[t].GetWait? && s.pool == [] && s.count < s.limit
    && forall u :: u in s.pc && u != t ==> s.pc[u].Idle?
  }

  /** A Put gives up the slot of an object that failed validation. */
  predicate RetiresPut(s: State, e: Event) { e.Retire? && e.t in s.pc && s.pc[e.t].PutRetire? }

  /** Some Put of the run does. */
  ghost predicate HasRetiringPut(s: State, es: seq<Event>)
    decreases |es|
  {
    es != [] && (RetiresPut(s, es[0]) || (Step(s, es[0]).Some? && HasRetiringPut(Step(s, es[0]).value, es[1..])))
  }

  predicate Seeks(p: Pc) { p.GetLoad? || p.GetCas? }

  /** With a Get blocked, every free slot has a Get on its way to it. */
  ghost predicate FreeSlotsSought(s: State) {
    (exists t :: t in s.pc && s.pc[t].GetWait?) ==> s.limit - s.count <= Count(s.pc, Seeks)
  }

  lemma StepSeeks(s: State, e: Event)
    requires FreeSlotsSought(s) && Step(s, e).Some? && !RetiresPut(s, e)
    ensures FreeSlotsSought(Step(s, e).value)
  {
    var n := Step(s, e).value;
    if !e.Cancel? {
      StepMoves(s, e);
      CountMove(s.pc, e.t, n.pc[e.t], Seeks);
      if t :| t in n.pc && n.pc[t].GetWait? && t != e.t {
        assert s.pc[t].GetWait?;
      }
    }
  }

  /** What a step does to the counter and to the mover, as far as free slots go. */
  lemma StepMoves(s: State, e: Event)
    requires Step(s, e).Some? && !e.Cancel? && !RetiresPut(s, e)
    ensures var n := Step(s, e).value;
      && n.limit == s.limit && n.pc == s.pc[e.t := n.pc[e.t]]
      && (n.pc[e.t].GetWait? ==> n.count == s.count && s.count >= s.limit)
      && n.count + One(Seeks(n.pc[e.t])) >= s.count + One(Seeks(s.pc[e.t])) - One(n.pc[e.t].GetWait?)
  {
  }

  lemma {:induction false} ExecSeeks(s: State, es: seq<Event>)
    requires FreeSlotsSought(s) && Exec(Step, s, es).Some? && !HasRetiringPut(s, es)
    ensures FreeSlotsSought(Exec(Step, s, es).value)
    decreases |es|
  {
    if es != [] {
      StepSeeks(s, es[0]);
      ExecSeeks(Step(s, es[0]).value, es[1..]);
    }
  }

  /** In every run in which no Put retires its object, foreign Puts included, no Get is left blocked beside a free slot. */
  lemma OnlyARetiringPutStrands(limit: nat, threads: set<nat>, es: seq<Event>, t: nat)
    requires Exec(Step, Init(limit, threads), es).Some? && !HasRetiringPut(Init(limit, threads), es)
    ensures !Stranded(Exec(Step, Init(limit, threads), es).value, t)
  {
    ExecSeeks(Init(limit, threads), es);
    var s := Exec(Step, Init(limit, threads), es).value;
    if Stranded(s, t) {
      CountZero(s.pc, Seeks);
    }
  }

  /** A goroutine that is alone is not blocked beside a free slot. */
  ghost predicate LoneWaitsOnFull(s: State) {
    forall t :: s.pc.Keys == {t} && s.pc[t].GetWait? ==> s.count >= s.limit
  }

  lemma {:induction false} ExecLone(s: State, es: seq<Event>)
    requires LoneWaitsOnFull(s) && Exec(Step, s, es).Some?
    ensures LoneWaitsOnFull(Exec(Step, s, es).value) && Exec(Step, s, es).value.pc.Keys == s.pc.Keys
    decreases |es|
  {
    if es != [] {
      var s1 := Step(s, es[0]).value;
      assert s1.pc.Keys == s.pc.Keys;
      ExecLone(s1, es[1..]);
    }
  }

  /** A Put that retires a stale object frees a slot but wakes nobody: goroutine u has drained the pool, t waits. */
  lemma RetiringPutStrandsAGet(limit: nat, threads: set<nat>, t: nat, u: nat) returns (es: seq<Event>)
    requires limit > 0 && t in threads && u in threads && t != u
    ensures Disciplined(es) && Exec(Step, Init(limit, threads), es).Some?
    ensures Stranded(Exec(Step, Init(limit, threads), es).value, t)
  {
    var s := Init(limit, threads);
    es := GetMany(limit, threads, u, limit);
    ExecMore(Step, s, es, Get(t)); es := es + [Get(t)];
    ExecMore(Step, s, es, Load(t)); es := es + [Load(t)];
    assert Exec(Step, s, es).value == Drained(limit, threads, limit).(pc := s.pc[t := GetWait]);
    FirstItemsAre(limit);
    ExecMore(Step, s, es, Put(u, 0)); es := es + [Put(u, 0)];
    ExecMore(Step, s, es, Validate(u, false)); es := es + [Validate(u, false)];
    assert Exec(Step, s, es).value.pc == s.pc[t := GetWait][u := PutRetire];
    ExecMore(Step, s, es, Retire(u)); es := es + [Retire(u)];
    assert Exec(Step, s, es).value.pc == s.pc[t := GetWait];
  }

  lemma AnotherOne(threads: set<nat>, t: nat) returns (u: nat)
    requires t in threads && threads != {t}
    ensures u in threads && u != t
  {
    assert threads == (threads - {t}) + {t};
    u :| u in threads - {t};
  }

  /** Every validation succeeds, as in a pool without a Validate function. */
  predicate AlwaysValid(es: seq<Event>) {
    forall i :: 0 <= i < |es| && es[i].Validate? ==> es[i].ok
  }

  lemma {:induction false} ValidNeverRetires(s: State, es: seq<Event>)
    requires Exec(Step, s, es).Some? && AlwaysValid(es) && forall t :: t in s.pc ==> !s.pc[t].PutRetire?
    ensures !HasRetiringPut(s, es)
    decreases |es|
  {
    if es != [] {
      var s1 := Step(s, es[0]).value;
      assert es[0].Validate? ==> es[0].ok;
      assert forall i :: 0 <= i < |es[1..]| ==> es[1..][i] == es[i + 1];
      ValidNeverRetires(s1, es[1..]);
    }
  }

  /** Some run of disciplined callers of a pool, with a Validate function or without, strands a Get. */
  ghost predicate CanStrand(limit: nat, threads: set<nat>, validates: bool) {
    exists es: seq<Event>, t: nat :: Disciplined(es) && (validates || AlwaysValid(es)) && Strands(limit, threads, es, t)
  }

  ghost predicate Strands(limit: nat, threads: set<nat>, es: seq<Event>, t: nat) {
    Exec(Step, Init(limit, threads), es).Some? && Stranded(Exec(Step, Init(limit, threads), es).value, t)
  }

  /** A pool can strand a Get exactly when it validates, has a slot, and two goroutines use it. */
  lemma CanStrandIff(limit: nat, threads: set<nat>, validates: bool)
    ensures CanStrand(limit, threads, validates)
      <==> (validates && limit > 0 && exists t, u :: t in threads && u in threads && t != u)
  {
    if t, u :| validates && limit > 0 && t in threads && u in threads && t != u {
      var es := RetiringPutStrandsAGet(limit, threads, t, u);
      assert Strands(limit, threads, es, t);
    }
    if es: seq<Event>, t: nat :| Disciplined(es) && (validates || AlwaysValid(es)) && Strands(limit, threads, es, t) {
      StrandsOnlyIf(limit, threads, es, t);
    }
  }

  lemma StrandsOnlyIf(limit: nat, threads: set<nat>, es: seq<Event>, t: nat)
    requires Disciplined(es) && Strands(limit, threads, es, t)
    ensures !AlwaysValid(es) && limit > 0 && exists t, u :: t in threads && u in threads && t != u
  {
    var s := Init(limit, threads);
    InitInv(limit, threads);
    ExecInv(s, es);
    ExecLone(s, es);
    var end := Exec(Step, s, es).value;
    PoolIsBounded(limit, threads, es);
    assert t in threads && end.limit == limit && end.pc.Keys == threads != {t};
    var u := AnotherOne(threads, t);
    if AlwaysValid(es) {
      ValidNeverRetires(s, es);
      OnlyARetiringPutStrands(limit, threads, es, t);
    }
  }

  // Slots kept by constructions that returned nil, and by returns that the cancellation cut short.

  predicate InsideGet(p: Pc) { p.GetLoad? || p.GetCas? || p.GetWait? }

  /** Every slot is kept: no object exists, and whoever is inside Get is looking for one. */
  ghost predicate UsedUp(s: State) {
    && s.pool == [] && s.out == {} && s.count >= s.limit && !s.cancelled && SeenBelowLimit(s)
    && forall t :: t in s.pc ==> s.pc[t].Idle? || InsideGet(s.pc[t])
  }

  lemma {:induction false} UsedUpForGood(s: State, es: seq<Event>)
    requires UsedUp(s) && Exec(Step, s, es).Some? && Disciplined(es) && Cancel !in es
    ensures UsedUp(Exec(Step, s, es).value) && Exec(Step, s, es).value.pc.Keys == s.pc.Keys
    ensures forall t :: t in s.pc && (InsideGet(s.pc[t]) || Get(t) in es) ==> InsideGet(Exec(Step, s, es).value.pc[t])
    decreases |es|
  {
    if es != [] {
      var s1 := Step(s, es[0]).value;
      assert es[0] in es && !es[0].PutForeign?;
      assert es == [es[0]] + es[1..] && s1.pc.Keys == s.pc.Keys;
      UsedUpForGood(s1, es[1..]);
    }
  }

  /**
   In every run of disciplined callers: once all slots are kept, by constructions that returned nil for instance, no Get
   that is under way or starts later ever returns, and no object ever comes out, until the pool is cancelled.
   */
  lemma KeptSlotsBlockForGood(limit: nat, threads: set<nat>, es: seq<Event>, later: seq<Event>)
    requires Exec(Step, Init(limit, threads), es).Some? && Disciplined(es)
    requires var s := Exec(Step, Init(limit, threads), es).value;
      s.kept == limit && !s.cancelled && Exec(Step, s, later).Some? && Disciplined(later) && Cancel !in later
    ensures var s := Exec(Step, Init(limit, threads), es).value;
      var end := Exec(Step, s, later).value;
      && end.out == {} && end.pool == []
      && forall t :: t in s.pc && (InsideGet(s.pc[t]) || Get(t) in later) ==> t in end.pc && InsideGet(end.pc[t])
  {
    InitInv(limit, threads);
    ExecInv(Init(limit, threads), es);
    var s := Exec(Step, Init(limit, threads), es).value;
    assert |s.pool| == 0 && |s.out| == 0 && Count(s.pc, InTransit) == 0;
    CountZero(s.pc, InTransit);
    assert UsedUp(s);
    UsedUpForGood(s, later);
  }

  /** In a pool of one, as for a named publisher, a single nil construction does it: the goroutine that tries again waits. */
  lemma OneNilConstructionBlocks(threads: set<nat>, t: nat) returns (es: seq<Event>)
    requires t in threads
    ensures Disciplined(es) && AlwaysValid(es) && Exec(Step, Init(1, threads), es).Some?
    ensures var s := Exec(Step, Init(1, threads), es).value; s.kept == 1 && !s.cancelled && t in s.pc && s.pc[t].GetWait?
  {
    var s := Init(1, threads);
    es := [];
    assert Drained(1, threads, 0) == s;
    es := ReserveOne(1, threads, t, 0, es);
    ExecMore(Step, s, es, New(t, false)); es := es + [New(t, false)];
    assert Exec(Step, s, es).value.pc == s.pc;
    ExecMore(Step, s, es, Get(t)); es := es + [Get(t)];
    ExecMore(Step, s, es, Load(t)); es := es + [Load(t)];
  }
}
