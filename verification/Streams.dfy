/**
 One stream consumer over its sessions: where a session starts (toStreamOffset and
 NewConsumer in internal/provider/connectors/amqp091), the prefetch latch around
 the message handler, and the offset an ack stores (streamSubscribe in amqp091.go).
 Sessions of one consumer name follow one another; an ack belongs to the session
 that delivered its message.
 */
module Streams {
  import opened Runs
  import opened Text
  import opened Topology
  import opened Wrappers

  // Where a session starts.

  datatype OffsetSpec = First | Last | Next | At(offset: int)

  function ToLower(s: string): string {
    seq(|s|, i requires 0 <= i < |s| => if 'A' <= s[i] <= 'Z' then (s[i] as int + 32) as char else s[i])
  }

  function ToStreamOffset(offset: string, lastOffset: int): Option<OffsetSpec> {
    var word := ToLower(offset);
    if word == "first" then Some(First)
    else if word == "continue" then Some(At(lastOffset + 1))
    else if word == "last" then Some(Last)
    else if word == "next" || word == "" then Some(Next)
    else match Atoi(offset)
      case Some(n) => Some(At(n))
      case None => None
  }

  /** The stored offset as NewConsumer sees it: -1 when there is none. */
  function LastOffset(stored: Option<int>): int { if stored.Some? then stored.value else -1 }

  /** A consumer promoted to active one asks for the stored offset again. */
  function Promoted(stored: Option<int>): OffsetSpec {
    if stored.Some? then At(stored.value + 1) else First
  }

  /** Which message comes first; where "last" begins is the broker's choice. */
  function Position(spec: OffsetSpec, length: nat, last: nat): int {
    match spec
    case First => 0
    case Last => last
    case Next => length
    case At(n) => n
  }

  /** A promoted consumer and one that asks to continue, in any case of letters, start right after the stored offset. */
  lemma ResumeAfterStored(word: string, stored: Option<int>, length: nat, last: nat)
    requires ToLower(word) == "continue"
    ensures ToStreamOffset(word, LastOffset(stored)).Some?
    ensures Position(ToStreamOffset(word, LastOffset(stored)).value, length, last) == LastOffset(stored) + 1
    ensures Position(Promoted(stored), length, last) == LastOffset(stored) + 1
  {
    assert |ToLower(word)| == 8;
  }

  /** A number starts with a digit or a sign, so no word is one. */
  lemma NumbersAreNoWords(s: string)
    requires Atoi(s).Some?
    ensures var word := ToLower(s); word != "first" && word != "continue" && word != "last" && word != "next" && word != ""
  {
    var digits := if s[0] == '-' || s[0] == '+' then s[1..] else s;
    assert digits[0] in "0123456789";
    assert ToLower(s)[0] == s[0];
  }

  /**
   Where a session starts, for every offset option, in any case of letters: "first" at the first message, "last" where
   the broker places it, "next" and the empty option after the messages there are, "continue" after the stored offset,
   a number at that offset; anything else is refused.
   */
  lemma WhereASessionStarts(offset: string, stored: Option<int>, length: nat, last: nat)
    ensures var word, spec := ToLower(offset), ToStreamOffset(offset, LastOffset(stored));
      && (spec.Some? <==> word in {"first", "last", "next", "", "continue"} || Atoi(offset).Some?)
      && (word == "first" ==> Position(spec.value, length, last) == 0)
      && (word == "last" ==> Position(spec.value, length, last) == last)
      && (word == "next" || word == "" ==> Position(spec.value, length, last) == length)
      && (word == "continue" ==> Position(spec.value, length, last) == if stored.Some? then stored.value + 1 else 0)
      && (Atoi(offset).Some? ==> Position(spec.value, length, last) == Atoi(offset).value)
  {
    if Atoi(offset).Some? {
      NumbersAreNoWords(offset);
    }
  }

  const DEFAULT_EXPIRES := "300000"

  lemma DefaultExpiresIsFiveMinutes()
    ensures Atoi(DEFAULT_EXPIRES) == Some(FIVE_MINUTES)
  {
    assert Itoa(30) == Itoa(3) + ['0'];
    assert Itoa(300) == Itoa(30) + ['0'];
    assert Itoa(3_000) == Itoa(300) + ['0'];
    assert Itoa(30_000) == Itoa(3_000) + ['0'];
    assert Itoa(300_000) == Itoa(30_000) + ['0'];
    assert Itoa(3) == "3";
    assert Itoa(300_000) == DEFAULT_EXPIRES;
    AtoiItoa(300_000);
  }

  /** SetSourceDefaults in internal/server/server.go. */
  method SetSourceDefaults(src: Source, prefetchCount: int) returns (source: Source, prefetch: int)
    ensures prefetch >= 1 && (prefetchCount >= 1 ==> prefetch == prefetchCount)
    ensures source == src.(options := source.options)
    ensures forall o :: o in src.options ==> o in source.options && source.options[o] == src.options[o]
    ensures src.autoDelete && "Expires" !in src.options ==> Number(source.options, "Expires") == Some(FIVE_MINUTES)
    ensures forall o :: o in source.options && o !in src.options ==> o == "Expires" && src.autoDelete
  {
    source, prefetch := src, prefetchCount;
    if prefetch < 1 {
      prefetch := 1;
    }
    if src.autoDelete {
      if "Expires" !in src.options {
        DefaultExpiresIsFiveMinutes();
        source := src.(options := src.options["Expires" := DEFAULT_EXPIRES]);
      }
    }
  }

  // The machine.

  /** What happened so far, for stating properties. */
  datatype History = History(
    used: set<string>,                // uuids generated
    admitted: nat,                    // messages this session let through
    released: nat,                    // messages this session acked or nacked
    kept: nat,                        // slots of this session that a retry or a reconnect kept
    settled: set<int>,                // messages this session acked or nacked
    dropped: set<int>,                // messages of this session that a retry or a reconnect forgot
    begin: int,                       // where this session began
    acked: set<int>,                  // acked, and the offset was stored
    before: set<int>,                 // acked in an earlier session
    resuming: bool)                   // every session so far began after the offset stored by then

  datatype State = State(
    length: nat,                      // messages in the stream
    stored: Option<int>,              // offset stored for the consumer name
    running: bool,
    next: int,                        // next message the broker sends
    current: int,                     // the consumer's offset
    pending: Option<int>,             // the handler waits at the latch with this message
    prefetch: int,                    // latch maximum
    count: int,                       // latch count
    active: map<string, int>,         // activeMessages
    h: History)

  datatype Event =
    | Append
    | Begin(offset: string, promoted: bool, last: nat, prefetchCount: int)
    | End
    | Arrive                          // the library advances the consumer and calls the handler
    | Admit(uuid: string)             // latch.Increment returns
    | Ack(uuid: string, ok: bool)     // ok: StoreOffset succeeds
    | Nack(uuid: string)
    | Retry(uuid: string)
    | Reconnected

  function Start(): State {
    State(0, None, false, 0, 0, None, 1, 0, map[], History({}, 0, 0, 0, {}, {}, 0, {}, {}, true))
  }

  function StartOf(s: State, offset: string, promoted: bool): Option<OffsetSpec> {
    var spec := ToStreamOffset(offset, LastOffset(s.stored));
    if spec.Some? && promoted then Some(Promoted(s.stored)) else spec
  }

  /** A session with a latch of its own. */
  function Begun(s: State, position: int, prefetchCount: int): State {
    State(s.length, s.stored, true, position, s.current, None, if prefetchCount < 1 then 1 else prefetchCount, 0, map[],
          History(s.h.used, 0, 0, 0, {}, {}, position, s.h.acked, s.h.acked, s.h.resuming && position > LastOffset(s.stored)))
  }

  function Step(s: State, e: Event): Option<State> {
    match e
    case Append => Some(s.(length := s.length + 1))
    case Begin(offset, promoted, last, prefetchCount) =>
      var spec := StartOf(s, offset, promoted);
      if s.running || spec.None? || Position(spec.value, s.length, last) < 0 then None
      else
        Some(Begun(s, Position(spec.value, s.length, last), prefetchCount))
    case End => if s.running then Some(s.(running := false, pending := None, active := map[])) else None
    case Arrive =>
      if s.running && s.pending.None? && s.next < s.length
      then Some(s.(pending := Some(s.next), current := s.next, next := s.next + 1)) else None
    case Admit(u) =>
      if s.running && s.pending.Some? && s.count < s.prefetch && u !in s.h.used
      then Some(s.(pending := None, count := s.count + 1, active := s.active[u := s.pending.value],
                   h := s.h.(admitted := s.h.admitted + 1, used := s.h.used + {u})))
      else None
    case Ack(u, ok) =>
      if u !in s.active then None
      else
        var s1 := Released(s, u);
        Some(if ok then s1.(stored := Some(s.current), h := s1.h.(acked := s.h.acked + {s.active[u]})) else s1)
    case Nack(u) => if u in s.active then Some(Released(s, u)) else None
    case Retry(u) =>
      if u !in s.active then None
      else
        Some(s.(active := s.active - {u}, h := s.h.(kept := s.h.kept + 1, dropped := s.h.dropped + {s.active[u]})))
    case Reconnected =>
      Some(s.(active := map[],
              h := s.h.(kept := s.h.kept + |s.active|, dropped := s.h.dropped + set u | u in s.active :: s.active[u])))
  }

  /** A message is settled and its slot is free again. */
  function Released(s: State, u: string): State
    requires u in s.active
  {
    s.(count := s.count - 1, active := s.active - {u},
       h := s.h.(released := s.h.released + 1, settled := s.h.settled + {s.active[u]}))
  }

  /** The consumer as the source has it: the message handler, the closures of a delivered message, the broker's stored offset. */
  class Subscription {
    var length: nat
    var stored: Option<int>
    var running: bool
    var next: int
    var current: int
    var pending: Option<int>
    var latchMax: int
    var latchCount: int
    var activeMessages: map<string, int>

    ghost var h: History

    ghost function Abstract(): State
      reads this
    {
      State(length, stored, running, next, current, pending, latchMax, latchCount, activeMessages, h)
    }

    constructor ()
      ensures Abstract() == Start()
    {
      length, stored, running, next, current, pending := 0, None, false, 0, 0, None;
      latchMax, latchCount, activeMessages := 1, 0, map[];
      h := History({}, 0, 0, 0, {}, {}, 0, {}, {}, true);
    }

    /** NewConsumer: query the stored offset, translate the option, and let a promotion decide again. */
    method NewConsumer(offset: string, promoted: bool, last: nat, prefetchCount: int) returns (ok: bool)
      requires !running
      modifies this
      ensures ok ==> Step(old(Abstract()), Begin(offset, promoted, last, prefetchCount)) == Some(Abstract())
      ensures !ok ==> Abstract() == old(Abstract()) && Step(old(Abstract()), Begin(offset, promoted, last, prefetchCount)).None?
    {
      var lastOffset := -1;
      if stored.Some? {
        lastOffset := stored.value;
      }
      var sOffset := ToStreamOffset(offset, lastOffset);
      if sOffset.None? {
        return false;
      }
      var spec := sOffset.value;
      if promoted {
        spec := if stored.None? then First else At(stored.value + 1);
      }
      var position := Position(spec, length, last);
      if position < 0 {
        return false;
      }
      StartAt(position, prefetchCount);
      ok := true;
    }

    method StartAt(position: int, prefetchCount: int)
      modifies this
      ensures Abstract() == Begun(old(Abstract()), position, prefetchCount)
    {
      latchMax := prefetchCount;
      if latchMax < 1 {
        latchMax := 1;
      }
      latchCount, running, next, pending, activeMessages := 0, true, position, None, map[];
      h := History(h.used, 0, 0, 0, {}, {}, position, h.acked, h.acked, h.resuming && position > LastOffset(stored));
    }

    /** The consumer's offset moves before the handler blocks at the latch. */
    method Receive()
      requires running && pending.None? && next < length
      modifies this
      ensures Step(old(Abstract()), Arrive) == Some(Abstract())
    {
      current := next;
      next := next + 1;
      pending := Some(current);
    }

    /** Increment has found room; the message becomes active and goes to the client. */
    method Deliver(messageUUID: string)
      requires running && pending.Some? && latchCount < latchMax && messageUUID !in h.used
      modifies this
      ensures Step(old(Abstract()), Admit(messageUUID)) == Some(Abstract())
    {
      latchCount := latchCount + 1;
      activeMessages := activeMessages[messageUUID := pending.value];
      h := h.(admitted := h.admitted + 1, used := h.used + {messageUUID});
      pending := None;
    }

    method AckMessage(messageUUID: string, ok: bool)
      requires messageUUID in activeMessages
      modifies this
      ensures Step(old(Abstract()), Ack(messageUUID, ok)) == Some(Abstract())
    {
      latchCount := latchCount - 1;
      h := h.(released := h.released + 1, settled := h.settled + {activeMessages[messageUUID]});
      var consumerOffset := current;
      if ok {
        stored := Some(consumerOffset);
        h := h.(acked := h.acked + {activeMessages[messageUUID]});
      }
      activeMessages := activeMessages - {messageUUID};
    }

    method NackMessage(messageUUID: string)
      requires messageUUID in activeMessages
      modifies this
      ensures Step(old(Abstract()), Nack(messageUUID)) == Some(Abstract())
    {
      latchCount := latchCount - 1;
      h := h.(released := h.released + 1, settled := h.settled + {activeMessages[messageUUID]});
      activeMessages := activeMessages - {messageUUID};
    }

    /** Provider.Retry does nothing for a stream message but forget it. */
    method RetryMessage(messageUUID: string)
      requires messageUUID in activeMessages
      modifies this
      ensures Step(old(Abstract()), Retry(messageUUID)) == Some(Abstract())
    {
      h := h.(kept := h.kept + 1, dropped := h.dropped + {activeMessages[messageUUID]});
      activeMessages := activeMessages - {messageUUID};
    }
  }

  // The latch.

  predicate LatchOk(s: State) {
    && s.prefetch >= 1 && (forall u :: u in s.active ==> u in s.h.used)
    && (s.running ==> s.count == s.h.admitted - s.h.released == |s.active| + s.h.kept && s.count <= s.prefetch)
    && (!s.running ==> s.active == map[] && s.pending.None?)
  }

  // Offsets.

  predicate OffsetsOk(s: State) {
    && (s.running ==> 0 <= s.h.begin <= s.next)
    && (forall u :: u in s.active ==> s.h.begin <= s.active[u] <= s.current < s.next)
    && (s.pending.Some? ==> s.h.begin <= s.pending.value == s.current < s.next)
  }

  /** Every ack that stored an offset is covered by the stored offset; the session is past everything acked before it. */
  predicate Covered(s: State) {
    && (s.h.resuming ==> forall m :: m in s.h.acked ==> m <= LastOffset(s.stored))
    && (s.h.resuming && s.running ==>
          LastOffset(s.stored) < s.next && (s.active != map[] || s.pending.Some? ==> LastOffset(s.stored) <= s.current)
          && forall m :: m in s.h.before ==> m < s.h.begin)
  }

  /** The session's messages are apart: with the client, at the latch, settled, or forgotten. */
  predicate Apart(s: State) { Distinct(s) && Open(s) }

  predicate Distinct(s: State) {
    && (forall u, v :: u in s.active && v in s.active && u != v ==> s.active[u] != s.active[v])
    && (forall u :: u in s.active ==> s.pending != Some(s.active[u]))
  }

  predicate Open(s: State) {
    && (forall u :: u in s.active ==> s.active[u] !in s.h.settled && s.active[u] !in s.h.dropped)
    && (s.pending.Some? ==> s.pending.value !in s.h.settled && s.pending.value !in s.h.dropped)
    && (forall m :: m in s.h.dropped ==> m !in s.h.settled)
  }

  predicate Within(s: State) {
    && (forall m :: m in s.h.settled ==> s.h.begin <= m < s.next)
    && (forall m :: m in s.h.dropped ==> s.h.begin <= m < s.next)
    && (s.h.kept == 0 ==> s.h.dropped == {}) && (s.h.kept > 0 ==> exists m :: m in s.h.dropped)
    && (s.active != map[] || s.pending.Some? ==> s.current == s.next - 1)
  }

  /** Where message m of the session is. */
  predicate Placed(s: State, m: int) {
    m in s.h.settled || m in s.h.dropped || s.pending == Some(m) || exists u :: u in s.active && s.active[u] == m
  }

  /** And there is no other place for them. */
  predicate AllPlaced(s: State) {
    s.running ==> forall m :: s.h.begin <= m < s.next ==> Placed(s, m)
  }

  predicate Inv(s: State) { LatchOk(s) && OffsetsOk(s) && Covered(s) && Apart(s) && Within(s) && AllPlaced(s) }

  lemma BeginKeeps(s: State, e: Event)
    requires Inv(s) && e.Begin? && Step(s, e).Some?
    ensures Inv(Step(s, e).value)
  {
  }

  lemma OneLess(m: map<string, int>, u: string)
    requires u in m
    ensures |m - {u}| == |m| - 1 && |m| >= 1
  {
    assert m.Keys == (m - {u}).Keys + {u};
  }

  lemma OneMore(m: map<string, int>, u: string, v: int)
    requires u !in m
    ensures |m[u := v]| == |m| + 1
  {
    assert m[u := v].Keys == m.Keys + {u};
  }

  lemma StepKeepsLatch(s: State, e: Event)
    requires LatchOk(s) && Step(s, e).Some? && !e.Begin?
    ensures LatchOk(Step(s, e).value)
  {
    match e
    case Admit(u) => OneMore(s.active, u, s.pending.value);
    case Ack(u, _) => OneLess(s.active, u);
    case Nack(u) => OneLess(s.active, u);
    case Retry(u) => OneLess(s.active, u);
    case _ =>
  }

  lemma StepKeepsOffsets(s: State, e: Event)
    requires Inv(s) && Step(s, e).Some? && !e.Begin?
    ensures OffsetsOk(Step(s, e).value) && Covered(Step(s, e).value)
  {
  }

  lemma StepKeepsApart(s: State, e: Event)
    requires OffsetsOk(s) && Apart(s) && Within(s) && Step(s, e).Some? && !e.Begin?
    ensures Apart(Step(s, e).value)
  {
    StepKeepsDistinct(s, e);
    StepKeepsOpen(s, e);
  }

  lemma StepKeepsDistinct(s: State, e: Event)
    requires OffsetsOk(s) && Distinct(s) && Step(s, e).Some? && !e.Begin?
    ensures Distinct(Step(s, e).value)
  {
  }

  lemma ReleaseKeepsOpen(s: State, u: string)
    requires Apart(s) && u in s.active
    ensures Open(Released(s, u))
  {
  }

  lemma ForgettingKeepsOpen(s: State, e: Event)
    requires Apart(s) && Step(s, e).Some? && (e.Retry? || e.Reconnected?)
    ensures Open(Step(s, e).value)
  {
  }

  lemma StepKeepsOpen(s: State, e: Event)
    requires Apart(s) && Within(s) && Step(s, e).Some? && !e.Begin?
    ensures Open(Step(s, e).value)
  {
    match e
    case Ack(u, _) => ReleaseKeepsOpen(s, u);
    case Nack(u) => ReleaseKeepsOpen(s, u);
    case Retry(_) => ForgettingKeepsOpen(s, e);
    case Reconnected => ForgettingKeepsOpen(s, e);
    case _ =>
  }

  lemma StepKeepsWithin(s: State, e: Event)
    requires LatchOk(s) && OffsetsOk(s) && Within(s) && Step(s, e).Some? && !e.Begin?
    ensures Within(Step(s, e).value)
  {
    var n := Step(s, e).value;
    forall m | m in n.h.settled || m in n.h.dropped ensures n.h.begin <= m < n.next {
      assert m in s.h.settled || m in s.h.dropped || exists u :: u in s.active && s.active[u] == m;
    }
    if e.Reconnected? && s.active != map[] {
      var u :| u in s.active;
      assert s.active[u] in n.h.dropped;
      OneLess(s.active, u);
    }
  }

  lemma StepKeepsPlaced(s: State, e: Event)
    requires LatchOk(s) && AllPlaced(s) && Step(s, e).Some? && !e.Begin?
    ensures AllPlaced(Step(s, e).value)
  {
    var n := Step(s, e).value;
    if n.running {
      forall m | n.h.begin <= m < n.next ensures Placed(n, m) {
        if m < s.next {
          PlacedStays(s, e, m);
        }
      }
    }
  }

  lemma PlacedStays(s: State, e: Event, m: int)
    requires LatchOk(s) && Placed(s, m) && Step(s, e).Some? && !e.Begin? && Step(s, e).value.running
    ensures Placed(Step(s, e).value, m)
  {
    var n := Step(s, e).value;
    if u :| u in s.active && s.active[u] == m {
      if u in n.active {
        assert n.active[u] == m;
      } else {
        assert m in n.h.settled || m in n.h.dropped;
      }
    } else if e.Admit? && s.pending == Some(m) {
      assert n.active[e.uuid] == m;
    }
  }

  lemma {:induction false} RunKeeps(s: State, es: seq<Event>)
    requires Inv(s) && Exec(Step, s, es).Some?
    ensures Inv(Exec(Step, s, es).value)
    decreases |es|
  {
    if es != [] {
      if es[0].Begin? {
        BeginKeeps(s, es[0]);
      } else {
        StepKeepsLatch(s, es[0]);
        StepKeepsOffsets(s, es[0]);
        StepKeepsApart(s, es[0]);
        StepKeepsWithin(s, es[0]);
        StepKeepsPlaced(s, es[0]);
      }
      RunKeeps(Step(s, es[0]).value, es[1..]);
    }
  }

  // Theorems.

  /**
   The latch counts the messages admitted and neither acked nor nacked, which are those the client still has and
   those whose slot a retry or a reconnect kept. It never underflows and never exceeds the prefetch.
   */
  lemma LatchIsExact(es: seq<Event>, s: State)
    requires Exec(Step, Start(), es) == Some(s) && s.running
    ensures s.count == s.h.admitted - s.h.released == |s.active| + s.h.kept
    ensures 0 <= s.count <= s.prefetch && s.prefetch >= 1 && |s.active| <= s.prefetch
  {
    RunKeeps(Start(), es);
  }

  /** Once retries and reconnects have kept every slot, the session admits nothing more until the next one begins. */
  lemma KeptSlotsStall(es: seq<Event>, s: State, later: seq<Event>)
    requires Exec(Step, Start(), es) == Some(s) && s.running && s.h.kept == s.prefetch
    requires Exec(Step, s, later).Some? && forall i :: 0 <= i < |later| ==> !later[i].Begin?
    ensures Exec(Step, s, later).value.h.admitted == s.h.admitted
  {
    RunKeeps(Start(), es);
    StalledFrom(s, later);
  }

  lemma {:induction false} StalledFrom(s: State, es: seq<Event>)
    requires LatchOk(s) && s.running && s.h.kept == s.prefetch
    requires Exec(Step, s, es).Some? && forall i :: 0 <= i < |es| ==> !es[i].Begin?
    ensures Exec(Step, s, es).value.h.admitted == s.h.admitted
    decreases |es|
  {
    if es != [] {
      var s1 := Step(s, es[0]).value;
      StepKeepsLatch(s, es[0]);
      if s1.running {
        assert s.active == map[];
        StalledFrom(s1, es[1..]);
      } else {
        StoppedAdmitsNothing(s1, es[1..]);
      }
    }
  }

  lemma {:induction false} StoppedAdmitsNothing(s: State, es: seq<Event>)
    requires LatchOk(s) && !s.running && Exec(Step, s, es).Some? && forall i :: 0 <= i < |es| ==> !es[i].Begin?
    ensures Exec(Step, s, es).value.h.admitted == s.h.admitted
    decreases |es|
  {
    if es != [] {
      StepKeepsLatch(s, es[0]);
      StoppedAdmitsNothing(Step(s, es[0]).value, es[1..]);
    }
  }

  /** A session that asks to continue, and one that starts by promotion, resumes after the stored offset. */
  lemma ContinueResumes(s: State, e: Event)
    requires e.Begin? && (e.promoted || ToLower(e.offset) == "continue") && Step(s, e).Some?
    ensures Step(s, e).value.next == LastOffset(s.stored) + 1 && Step(s, e).value.h.resuming == s.h.resuming
  {
    if !e.promoted {
      ResumeAfterStored(e.offset, s.stored, s.length, e.last);
    }
  }

  /** Over sessions that resume, the stored offset never decreases. */
  lemma StoredNeverDecreases(es: seq<Event>, s: State, e: Event)
    requires Exec(Step, Start(), es) == Some(s) && Step(s, e).Some? && s.h.resuming
    ensures LastOffset(s.stored) <= LastOffset(Step(s, e).value.stored)
  {
    RunKeeps(Start(), es);
  }

  /** Over sessions that resume, no message whose ack stored an offset is delivered in a later session. */
  lemma AckedIsNotRedelivered(es: seq<Event>, s: State)
    requires Exec(Step, Start(), es) == Some(s) && s.h.resuming && s.running
    ensures forall m :: m in s.h.before ==> s.pending != Some(m)
    ensures forall m, u :: m in s.h.before && u in s.active ==> s.active[u] != m
  {
    RunKeeps(Start(), es);
  }

  /**
   An ack stores the consumer's offset, not the message's. The stored offset then covers only messages of the session
   that the client acked or nacked if and only if nothing waited at the latch, nothing else was with the client, and no
   retry or reconnect had made it forget a message.
   */
  lemma AckPassesNothingIff(es: seq<Event>, s: State, u: string)
    requires Exec(Step, Start(), es) == Some(s) && u in s.active
    ensures Step(s, Ack(u, true)).Some?
    ensures var s1 := Step(s, Ack(u, true)).value;
      (forall m :: s1.h.begin <= m <= LastOffset(s1.stored) ==> m in s1.h.settled)
      <==> (s.pending.None? && s.active.Keys == {u} && s.h.kept == 0)
  {
    RunKeeps(Start(), es);
    if s.pending.None? && s.active.Keys == {u} && s.h.kept == 0 {
      LoneAckCoversSettled(s, u);
    } else {
      var m := SomethingUnsettled(s, u);
    }
  }

  lemma LoneAckCoversSettled(s: State, u: string)
    requires Inv(s) && s.pending.None? && s.active.Keys == {u} && s.h.kept == 0
    ensures var s1 := Step(s, Ack(u, true)).value;
      forall m :: s1.h.begin <= m <= LastOffset(s1.stored) ==> m in s1.h.settled
  {
    var s1 := Step(s, Ack(u, true)).value;
    forall m | s1.h.begin <= m <= LastOffset(s1.stored) ensures m in s1.h.settled {
      assert Placed(s, m);
    }
  }

  /** What the ack passes over: the message at the latch, one that was forgotten, or another one with the client. */
  lemma SomethingUnsettled(s: State, u: string) returns (m: int)
    requires Inv(s) && u in s.active && (s.pending.Some? || s.active.Keys != {u} || s.h.kept != 0)
    ensures var s1 := Step(s, Ack(u, true)).value;
      s1.h.begin <= m <= LastOffset(s1.stored) && m !in s1.h.settled
  {
    if s.pending.Some? {
      m := s.pending.value;
    } else if s.h.kept != 0 {
      m :| m in s.h.dropped;
    } else {
      assert s.active.Keys == (s.active.Keys - {u}) + {u};
      var v :| v in s.active.Keys - {u};
      m := s.active[v];
    }
  }

  /** Message m is behind: covered by the stored offset, and neither with the client nor at the latch. */
  predicate Behind(s: State, m: int) {
    && m <= LastOffset(s.stored) && (s.running ==> m < s.next)
    && s.pending != Some(m) && forall u :: u in s.active ==> s.active[u] != m
  }

  lemma StepStaysBehind(s: State, e: Event, m: int)
    requires Inv(s) && Behind(s, m) && Step(s, e).Some? && Step(s, e).value.h.resuming
    ensures Behind(Step(s, e).value, m)
  {
  }

  /** A message that the stored offset covers is never received again, in this session or any later one that resumes. */
  lemma {:induction false} NeverReceivedAgain(s: State, es: seq<Event>, m: int)
    requires Inv(s) && Behind(s, m) && Exec(Step, s, es).Some? && Exec(Step, s, es).value.h.resuming
    ensures Behind(Exec(Step, s, es).value, m)
    decreases |es|
  {
    if es != [] {
      var s1 := Step(s, es[0]).value;
      ResumingStays(s1, es[1..]);
      StepStaysBehind(s, es[0], m);
      RunKeeps(s, [es[0]]);
      assert [es[0]][1..] == [] && Exec(Step, s, [es[0]]) == Some(s1);
      NeverReceivedAgain(s1, es[1..], m);
    }
  }

  lemma {:induction false} ResumingStays(s: State, es: seq<Event>)
    requires Exec(Step, s, es).Some? && Exec(Step, s, es).value.h.resuming
    ensures s.h.resuming
    decreases |es|
  {
    if es != [] {
      ResumingStays(Step(s, es[0]).value, es[1..]);
    }
  }

  /**
   A delayed nack of a stream message only forgets it. Once a later ack of the session has stored its offset, the message
   is never received again, whatever happens, as long as sessions resume.
   */
  lemma RetriedIsNeverReceivedAgain(es: seq<Event>, s: State, m: int, u: string, later: seq<Event>)
    requires Exec(Step, Start(), es) == Some(s) && m in s.h.dropped && u in s.active
    requires Exec(Step, Step(s, Ack(u, true)).value, later).Some?
    requires Exec(Step, Step(s, Ack(u, true)).value, later).value.h.resuming
    ensures var end := Exec(Step, Step(s, Ack(u, true)).value, later).value;
      end.pending != Some(m) && forall v :: v in end.active ==> end.active[v] != m
  {
    RunKeeps(Start(), es);
    var s1 := Step(s, Ack(u, true)).value;
    ExecMore(Step, Start(), es, Ack(u, true));
    RunKeeps(Start(), es + [Ack(u, true)]);
    assert Behind(s1, m);
    NeverReceivedAgain(s1, later, m);
  }

  /** Three messages, and a session that continues from the start. */
  lemma ThreeMessages(prefetch: int) returns (es: seq<Event>, s: State)
    requires prefetch >= 1
    ensures Exec(Step, Start(), es) == Some(s)
    ensures s == State(3, None, true, 0, 0, None, prefetch, 0, map[], History({}, 0, 0, 0, {}, {}, 0, {}, {}, true))
  {
    es := [];
    s := Start();
    es, s := Extend(es, s, Append);
    es, s := Extend(es, s, Append);
    es, s := Extend(es, s, Append);
    assert ToLower("continue") == "continue";
    ResumeAfterStored("continue", None, 3, 0);
    es, s := Extend(es, s, Begin("continue", false, 0, prefetch));
  }

  /** The next session after one that has stored the offset 1. */
  lemma ContinueAtTwo(before: seq<Event>, s: State, prefetch: int) returns (es: seq<Event>, s1: State)
    requires Exec(Step, Start(), before) == Some(s) && s.running && s.stored == Some(1) && s.h.resuming
    ensures Exec(Step, Start(), es) == Some(s1) && s1.running && s1.h.begin == s1.next == 2 && s1.h.resuming
    ensures s1.h.acked == s.h.acked && s1.length == s.length
  {
    es, s1 := Extend(before, s, End);
    assert ToLower("continue") == "continue";
    ResumeAfterStored("continue", s1.stored, s1.length, 0);
    es, s1 := Extend(es, s1, Begin("continue", false, 0, prefetch));
  }

  /**
   Even with a prefetch of one: the second message waits at the latch, the ack of the first passes over it, and the
   next session starts after it.
   */
  lemma AckSkipsABlockedMessage() returns (es: seq<Event>, s: State)
    ensures Exec(Step, Start(), es) == Some(s) && s.h.resuming && s.running
    ensures s.h.acked == {0} && s.length == 3 && s.h.begin == s.next == 2
  {
    es, s := ThreeMessages(1);
    es, s := Extend(es, s, Arrive);
    es, s := Extend(es, s, Admit("a"));
    es, s := Extend(es, s, Arrive);
    es, s := Extend(es, s, Ack("a", true));
    es, s := ContinueAtTwo(es, s, 1);
  }

  lemma TwoAdmitted() returns (es: seq<Event>, s: State)
    ensures Exec(Step, Start(), es) == Some(s)
    ensures s == State(3, None, true, 2, 1, None, 2, 2, map["a" := 0, "b" := 1],
                       History({"a", "b"}, 2, 0, 0, {}, {}, 0, {}, {}, true))
  {
    es, s := ThreeMessages(2);
    es, s := Extend(es, s, Arrive);
    es, s := Extend(es, s, Admit("a"));
    assert s.active == map["a" := 0] && s.h.used == {"a"};
    es, s := Extend(es, s, Arrive);
    es, s := Extend(es, s, Admit("b"));
    assert s.active == map["a" := 0, "b" := 1] && s.h.used == {"a", "b"};
  }

  /** With a prefetch of two: the client nacks the first message with a delay and acks the second; the first is gone. */
  lemma RetrySkipsAMessage() returns (es: seq<Event>, s: State, end: seq<Event>, s1: State)
    ensures Exec(Step, Start(), es) == Some(s) && s.h.dropped == {0} && s.h.settled == s.h.acked == {1}
    ensures s.active == map[] && s.pending.None? && s.stored == Some(1)
    ensures Exec(Step, Start(), end) == Some(s1) && s1.h.resuming && s1.running && s1.h.begin == s1.next == 2
  {
    es, s := TwoAdmitted();
    es, s := Extend(es, s, Retry("a"));
    assert s.active == map["b" := 1] && s.h.dropped == {0};
    es, s := Extend(es, s, Ack("b", true));
    assert s.active == map[];
    end, s1 := ContinueAtTwo(es, s, 2);
  }

  lemma Extend(es: seq<Event>, s: State, e: Event) returns (es1: seq<Event>, s1: State)
    requires Exec(Step, Start(), es) == Some(s) && Step(s, e).Some?
    ensures es1 == es + [e] && s1 == Step(s, e).value && Exec(Step, Start(), es1) == Some(s1)
  {
    ExecMore(Step, Start(), es, e);
    es1, s1 := es + [e], Step(s, e).value;
  }

  // One session, told from its events.

  /** The message that an event hands over to the client. */
  function Hands(s: State, e: Event): seq<int> { if e.Admit? && s.pending.Some? then [s.pending.value] else [] }

  function HandedOver(s: State, es: seq<Event>): seq<int>
    decreases |es|
  {
    if es == [] || Step(s, es[0]).None? then [] else Hands(s, es[0]) + HandedOver(Step(s, es[0]).value, es[1..])
  }

  /** How often the client settled a message, and how many messages reached the consumer. */
  function Settlements(es: seq<Event>): nat {
    if es == [] then 0 else (if es[0].Ack? || es[0].Nack? then 1 else 0) + Settlements(es[1..])
  }

  function Arrivals(es: seq<Event>): nat {
    if es == [] then 0 else (if es[0].Arrive? then 1 else 0) + Arrivals(es[1..])
  }

  predicate NoBegin(es: seq<Event>) { forall i :: 0 <= i < |es| ==> !es[i].Begin? }

  /** The next message to be handed over. */
  function Coming(s: State): int { if s.pending.Some? then s.pending.value else s.next }

  predicate OneAtATime(s: State) { s.pending.Some? ==> s.next == s.pending.value + 1 }

  lemma StepHands(s: State, e: Event)
    requires OneAtATime(s) && Step(s, e).Some? && !e.Begin?
    ensures var n := Step(s, e).value;
      && OneAtATime(n) && (n.running ==> s.running)
      && (Hands(s, e) != [] ==> Hands(s, e) == [Coming(s)])
      && (n.running ==> Coming(n) == Coming(s) + |Hands(s, e)|)
      && (n.running ==> n.next == s.next + if e.Arrive? then 1 else 0)
      && (n.running && s.current == s.next - 1 ==> n.current == n.next - 1)
      && n.h.admitted == s.h.admitted + |Hands(s, e)|
      && n.h.released == s.h.released + if e.Ack? || e.Nack? then 1 else 0
  {
  }

  lemma {:induction false} StoppedHandsNothing(s: State, es: seq<Event>)
    requires !s.running && NoBegin(es) && Exec(Step, s, es).Some?
    ensures HandedOver(s, es) == [] && !Exec(Step, s, es).value.running
    decreases |es|
  {
    if es != [] {
      assert !es[0].Begin?;
      StoppedHandsNothing(Step(s, es[0]).value, es[1..]);
    }
  }

  lemma {:induction false} ExecHands(s: State, es: seq<Event>)
    requires s.running && OneAtATime(s) && NoBegin(es) && Exec(Step, s, es).Some?
    ensures forall k :: 0 <= k < |HandedOver(s, es)| ==> HandedOver(s, es)[k] == Coming(s) + k
    ensures var end := Exec(Step, s, es).value;
      end.running ==>
        && end.next == s.next + Arrivals(es)
        && end.h.admitted == s.h.admitted + |HandedOver(s, es)| && end.h.released == s.h.released + Settlements(es)
    decreases |es|
  {
    if es != [] {
      var n := Step(s, es[0]).value;
      assert !es[0].Begin?;
      StepHands(s, es[0]);
      if n.running {
        ExecHands(n, es[1..]);
      } else {
        StoppedHandsNothing(n, es[1..]);
      }
    }
  }

  /**
   In every session the client is handed the messages from the session's position on, in order, none twice and none left
   out; and the latch counts what was handed over minus what was acked or nacked.
   */
  lemma SessionInOrder(es: seq<Event>, s: State, begin: Event, n: State, later: seq<Event>, end: State)
    requires Exec(Step, Start(), es) == Some(s) && begin.Begin? && Step(s, begin) == Some(n)
    requires NoBegin(later) && Exec(Step, n, later) == Some(end)
    ensures var handed := HandedOver(n, later);
      && (forall k :: 0 <= k < |handed| ==> handed[k] == n.next + k)
      && (end.running ==> end.next == n.next + Arrivals(later) && end.count == |handed| - Settlements(later))
  {
    RunKeeps(Start(), es);
    BeginKeeps(s, begin);
    ExecHands(n, later);
    RunKeeps(n, later);
  }

  lemma StepStores(s: State, e: Event, n: State)
    requires Step(s, e) == Some(n)
    ensures n.stored == if e.Ack? && e.ok then Some(s.current) else s.stored
    ensures e.Ack? ==> s.active != map[]
  {
  }

  /** The run has just begun a session. */
  ghost predicate JustBegun(es: seq<Event>, n: State) {
    Exec(Step, Start(), es) == Some(n) && es != [] && es[|es| - 1].Begin?
  }

  lemma BeginIsEmpty(es: seq<Event>, n: State)
    requires JustBegun(es, n)
    ensures Inv(n) && n.running && n.active == map[] && n.pending.None?
  {
    var before, e := es[..|es| - 1], es[|es| - 1];
    assert es == before + [e];
    ExecSplit(Step, Start(), before, [e]);
    RunKeeps(Start(), before);
    BeginKeeps(Exec(Step, Start(), before).value, e);
  }

  /** Where the consumer is while a message of the session is with the client. */
  lemma LatestIsCurrent(n: State, later: seq<Event>, end: State)
    requires Inv(n) && n.running && n.active == map[] && n.pending.None?
    requires NoBegin(later) && Exec(Step, n, later) == Some(end) && end.active != map[]
    ensures end.current == n.next + Arrivals(later) - 1
  {
    RunKeeps(n, later);
    ExecHands(n, later);
    CurrentIsLatest(n, later);
  }

  /** The stored offset moves only with an ack that the broker takes, to the latest message that reached the consumer. */
  lemma OnlyAcksStore(es: seq<Event>, n: State, later: seq<Event>, end: State, e: Event, after: State)
    requires JustBegun(es, n) && NoBegin(later) && Exec(Step, n, later) == Some(end) && Step(end, e) == Some(after)
    ensures after.stored == if e.Ack? && e.ok then Some(n.next + Arrivals(later) - 1) else end.stored
  {
    StepStores(end, e, after);
    if e.Ack? {
      BeginIsEmpty(es, n);
      LatestIsCurrent(n, later, end);
    }
  }

  /** Once a message has arrived in a session, the consumer's offset is that of the latest one. */
  lemma {:induction false} CurrentIsLatest(s: State, es: seq<Event>)
    requires s.running && OneAtATime(s) && NoBegin(es) && Exec(Step, s, es).Some?
    requires (s.active == map[] && s.pending.None?) || s.current == s.next - 1
    ensures var end := Exec(Step, s, es).value;
      (end.active == map[] && end.pending.None?) || end.current == end.next - 1
    decreases |es|
  {
    if es != [] {
      var n := Step(s, es[0]).value;
      assert !es[0].Begin?;
      StepHands(s, es[0]);
      if n.running {
        CurrentIsLatest(n, es[1..]);
      } else {
        StoppedStays(n, es[1..]);
      }
    }
  }

  lemma {:induction false} StoppedStays(s: State, es: seq<Event>)
    requires !s.running && s.active == map[] && s.pending.None? && NoBegin(es) && Exec(Step, s, es).Some?
    ensures var end := Exec(Step, s, es).value; end.active == map[] && end.pending.None?
    decreases |es|
  {
    if es != [] {
      assert !es[0].Begin?;
      StoppedStays(Step(s, es[0]).value, es[1..]);
    }
  }

  // The histories, told from the events.

  /** The message that an event settles, and the one whose ack it stores. */
  function Settles(s: State, e: Event): set<int> {
    if (e.Ack? || e.Nack?) && e.uuid in s.active then {s.active[e.uuid]} else {}
  }

  function Stores(s: State, e: Event): set<int> { if e.Ack? && e.ok then Settles(s, e) else {} }

  /** How many messages an event makes the client forget. */
  function Forgets(s: State, e: Event): nat {
    if e.Retry? && e.uuid in s.active then 1 else if e.Reconnected? then |s.active| else 0
  }

  function SettledIn(s: State, es: seq<Event>): set<int>
    decreases |es|
  {
    if es == [] || Step(s, es[0]).None? then {} else Settles(s, es[0]) + SettledIn(Step(s, es[0]).value, es[1..])
  }

  function AckedIn(s: State, es: seq<Event>): set<int>
    decreases |es|
  {
    if es == [] || Step(s, es[0]).None? then {} else Stores(s, es[0]) + AckedIn(Step(s, es[0]).value, es[1..])
  }

  function ForgottenIn(s: State, es: seq<Event>): nat
    decreases |es|
  {
    if es == [] || Step(s, es[0]).None? then 0 else Forgets(s, es[0]) + ForgottenIn(Step(s, es[0]).value, es[1..])
  }

  /** The session asks to continue, or starts by promotion. */
  predicate Resumes(e: Event) { e.Begin? ==> e.promoted || ToLower(e.offset) == "continue" }

  lemma StepAcks(s: State, e: Event)
    requires Step(s, e).Some?
    ensures Step(s, e).value.h.acked == s.h.acked + Stores(s, e)
  {
  }

  lemma BeginHistory(s: State, e: Event)
    requires Step(s, e).Some? && e.Begin?
    ensures var n := Step(s, e).value; n.h.settled == {} && n.h.kept == 0 && n.h.begin == n.next
  {
  }

  lemma StepSettles(s: State, e: Event)
    requires Step(s, e).Some? && !e.Begin?
    ensures Step(s, e).value.h.settled == s.h.settled + Settles(s, e)
  {
  }

  lemma StepForgets(s: State, e: Event)
    requires Step(s, e).Some? && !e.Begin?
    ensures var n := Step(s, e).value;
      n.h.kept == s.h.kept + Forgets(s, e) && n.h.begin == s.h.begin && n.h.resuming == s.h.resuming
  {
  }

  lemma {:induction false} ExecAcked(s: State, es: seq<Event>)
    requires Exec(Step, s, es).Some?
    ensures Exec(Step, s, es).value.h.acked == s.h.acked + AckedIn(s, es)
    decreases |es|
  {
    if es != [] {
      StepAcks(s, es[0]);
      ExecAcked(Step(s, es[0]).value, es[1..]);
    }
  }

  lemma {:induction false} ExecSettled(s: State, es: seq<Event>)
    requires NoBegin(es) && Exec(Step, s, es).Some?
    ensures Exec(Step, s, es).value.h.settled == s.h.settled + SettledIn(s, es)
    decreases |es|
  {
    if es != [] {
      assert !es[0].Begin?;
      StepSettles(s, es[0]);
      ExecSettled(Step(s, es[0]).value, es[1..]);
    }
  }

  lemma {:induction false} ExecForgotten(s: State, es: seq<Event>)
    requires NoBegin(es) && Exec(Step, s, es).Some?
    ensures var end := Exec(Step, s, es).value;
      end.h.kept == s.h.kept + ForgottenIn(s, es) && end.h.begin == s.h.begin
    decreases |es|
  {
    if es != [] {
      assert !es[0].Begin?;
      StepForgets(s, es[0]);
      ExecForgotten(Step(s, es[0]).value, es[1..]);
    }
  }

  lemma {:induction false} ExecResumes(s: State, es: seq<Event>)
    requires Exec(Step, s, es).Some? && forall i :: 0 <= i < |es| ==> Resumes(es[i])
    ensures Exec(Step, s, es).value.h.resuming == s.h.resuming
    decreases |es|
  {
    if es != [] {
      assert Resumes(es[0]);
      if es[0].Begin? {
        ContinueResumes(s, es[0]);
      } else {
        StepForgets(s, es[0]);
      }
      ExecResumes(Step(s, es[0]).value, es[1..]);
    }
  }

  /** In every session, the histories that the results on acks speak of are what the events of the session say. */
  lemma SessionHistories(s: State, begin: Event, n: State, later: seq<Event>, end: State)
    requires begin.Begin? && Step(s, begin) == Some(n) && NoBegin(later) && Exec(Step, n, later) == Some(end)
    ensures end.h.begin == n.next && end.h.settled == SettledIn(n, later) && end.h.kept == ForgottenIn(n, later)
  {
    BeginHistory(s, begin);
    ExecSettled(n, later);
    ExecForgotten(n, later);
    assert {} + SettledIn(n, later) == SettledIn(n, later);
  }

  /** Over sessions that all resume, a message whose ack was stored is never handed over in a later session. */
  lemma AckedIsNeverHandedAgain(es: seq<Event>, s: State, begin: Event, n: State, later: seq<Event>, m: int)
    requires Exec(Step, Start(), es) == Some(s) && forall i :: 0 <= i < |es| ==> Resumes(es[i])
    requires begin.Begin? && Resumes(begin) && Step(s, begin) == Some(n)
    requires NoBegin(later) && Exec(Step, n, later).Some? && m in AckedIn(Start(), es)
    ensures m !in HandedOver(n, later)
  {
    ExecAcked(Start(), es);
    ExecResumes(Start(), es);
    RunKeeps(Start(), es);
    ContinueResumes(s, begin);
    ExecHands(n, later);
  }
}
