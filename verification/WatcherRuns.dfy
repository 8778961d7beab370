/** What the connection watcher does over a run, told from the events before. */
module WatcherRuns {
  import opened Reconnect
  import opened Runs
  import opened Wrappers

  /** The latest event of the watcher loop. */
  function LastWatch(es: seq<Event>): Option<Event> {
    if es == [] then None
    else if OfWatcher(es[|es| - 1]) then Some(es[|es| - 1])
    else LastWatch(es[..|es| - 1])
  }

  predicate Chooses(e: Event) { e.WatchTop? || e.WatchError? || e.WatchTimer? || e.WatchShutdown? }

  /** The latest turn of its outer loop, or what came out of the select. */
  function Cause(es: seq<Event>): Option<Event> {
    if es == [] then None
    else if Chooses(es[|es| - 1]) then Some(es[|es| - 1])
    else Cause(es[..|es| - 1])
  }

  /** Where the watcher is, by what it did last. */
  ghost predicate Follows(s: State, last: Option<Event>, cause: Option<Event>) {
    match s.watcher
    case Top =>
      || last == None || last == Some(WatchTimer(false))
      || (cause == Some(WatchTimer(true)) && last == Some(WatchStore))
      || (cause == Some(WatchError) && last == Some(WatchRetry))
    case Selecting => last == Some(WatchTop)
    case StoreDown(retry) => last == cause == Some(if retry then WatchError else WatchTimer(true))
    case RetryCheck => cause == Some(WatchError) && last == Some(WatchStore)
    case Calling(retry) =>
      if retry then cause == Some(WatchError) && last == Some(WatchRetry)
      else cause == Some(WatchTimer(true)) && last == Some(WatchStore)
    case StoreReset => cause == Some(WatchError) && last == Some(WatchRetry)
    case Stopped => last == Some(WatchTop) || last == Some(WatchShutdown)
  }

  lemma StepFollows(s: State, es: seq<Event>, e: Event)
    requires WatcherPc(s) && Follows(s, LastWatch(es), Cause(es)) && Step(s, e).Some?
    ensures Follows(Step(s, e).value, LastWatch(es + [e]), Cause(es + [e]))
  {
    assert (es + [e])[..|es|] == es;
  }

  lemma {:induction false} ExecFollows(s: State, es: seq<Event>)
    requires Inv(s) && Follows(s, None, None) && Exec(Step, s, es).Some?
    ensures Follows(Exec(Step, s, es).value, LastWatch(es), Cause(es))
    decreases |es|
  {
    if es != [] {
      var before, e := es[..|es| - 1], es[|es| - 1];
      assert es == before + [e];
      ExecSplit(Step, s, before, [e]);
      ExecFollows(s, before);
      ExecInv(s, before);
      StepFollows(Exec(Step, s, before).value, before, e);
    }
  }

  /**
   The order of the watcher's events in every run, with any callers: it selects after a turn of its loop; it gives up
   the connection after an error, after a failed attempt of the retry loop, or when the timer found it closed; it
   retries after errors only; and it comes back to the top of its loop after a timer that found the connection alive,
   after the one attempt a closed one is given, or out of the retry loop.
   */
  lemma WatcherOrder(threads: set<nat>, es: seq<Event>, e: Event)
    requires Exec(Step, Init(threads), es + [e]).Some? && OfWatcher(e)
    ensures var last, cause := LastWatch(es), Cause(es);
      && (e.WatchTop? ==>
            || last == None || last == Some(WatchTimer(false))
            || (cause == Some(WatchTimer(true)) && last == Some(WatchStore))
            || (cause == Some(WatchError) && last == Some(WatchRetry)))
      && (e.WatchError? || e.WatchTimer? || e.WatchShutdown? ==> last == Some(WatchTop))
      && (e.WatchStore? ==>
            || last == Some(WatchError) || last == Some(WatchTimer(true))
            || (cause == Some(WatchError) && last == Some(WatchRetry)))
      && (e.WatchRetry? ==> cause == Some(WatchError) && last == Some(WatchStore))
  {
    ExecSplit(Step, Init(threads), es, [e]);
    Reachable(threads, []);
    ExecFollows(Init(threads), es);
  }

  /** In the program's runs a live connection is given up only after an error, or when the timer found it closed. */
  lemma GivenUpOnlyWhenTold(threads: set<nat>, first: seq<Event>, later: seq<Event>, e: Event)
    requires Exec(Step, Init(threads), first).Some?
    requires var s := Exec(Step, Init(threads), first).value; Alone(s) && s.watcher.Top?
    requires Exec(Step, Exec(Step, Init(threads), first).value, later + [e]).Some?
    requires forall i :: 0 <= i < |later| ==> !later[i].Call?
    requires Exec(Step, Exec(Step, Init(threads), first).value, later).Some?
    requires Exec(Step, Exec(Step, Init(threads), first).value, later).value.conn.Connected?
    requires !Exec(Step, Exec(Step, Init(threads), first).value, later + [e]).value.conn.Connected?
    ensures e == WatchStore && (LastWatch(later) == Some(WatchError) || LastWatch(later) == Some(WatchTimer(true)))
  {
    var start := Exec(Step, Init(threads), first).value;
    Reachable(threads, first);
    ExecSplit(Step, start, later, [e]);
    ExecInv(start, later);
    AloneRetryingIsDown(start, later);
    ExecFollows(start, later);
  }

  /** The watcher has just entered connect() with the connection given up. */
  predicate BeginsAttempt(s: Option<State>) {
    && s.Some? && s.value.conn.Disconnected?
    && WATCHER in s.value.pc && s.value.pc[WATCHER].CheckClient? && s.value.watcher.Calling?
  }

  /** The next event of the watcher can only be e. */
  ghost predicate OnlyNext(s: State, e: Event) {
    forall d :: OfWatcher(d) ==> (Step(s, d).Some? <==> d == e)
  }

  lemma TimerLeadsToConnect(s: State)
    requires WatcherPc(s) && s.watcher == StoreDown(false)
    ensures OnlyNext(s, WatchStore) && BeginsAttempt(Step(s, WatchStore))
  {
  }

  lemma ErrorLeadsToConnect(s: State)
    requires WatcherPc(s) && s.watcher == StoreDown(true)
    ensures OnlyNext(s, WatchStore) && OnlyNext(Step(s, WatchStore).value, WatchRetry)
    ensures BeginsAttempt(Step(Step(s, WatchStore).value, WatchRetry)) <==> !s.disconnected
  {
  }

  /**
   In every run, an error or a timer that found the connection closed is acted upon next: the connection is given up,
   and the watcher enters connect(), in the case of an error unless the client has disconnected.
   */
  lemma LossLeadsToConnect(threads: set<nat>, es: seq<Event>)
    requires Exec(Step, Init(threads), es).Some?
    requires LastWatch(es) == Some(WatchError) || LastWatch(es) == Some(WatchTimer(true))
    ensures var s := Exec(Step, Init(threads), es).value;
      && OnlyNext(s, WatchStore)
      && (LastWatch(es) == Some(WatchTimer(true)) ==> BeginsAttempt(Step(s, WatchStore)))
      && (LastWatch(es) == Some(WatchError) ==>
            && OnlyNext(Step(s, WatchStore).value, WatchRetry)
            && (BeginsAttempt(Step(Step(s, WatchStore).value, WatchRetry)) <==> !s.disconnected))
  {
    Reachable(threads, []);
    Reachable(threads, es);
    ExecFollows(Init(threads), es);
    LastIsCause(es);
    var s := Exec(Step, Init(threads), es).value;
    if LastWatch(es) == Some(WatchError) {
      assert s.watcher == StoreDown(true);
      ErrorLeadsToConnect(s);
    } else {
      assert s.watcher == StoreDown(false);
      TimerLeadsToConnect(s);
    }
  }

  // What connect() answers.

  predicate Answers(p: Pc, ok: bool) { p == Unlocking(ok) || p == Finished(ok) }

  /**
   In every run, with any callers: connect() decides to answer true only while connected, and false only when the
   client has disconnected or an attempt has failed.
   */
  lemma AnswersTruly(threads: set<nat>, es: seq<Event>, e: Event, t: nat, ok: bool)
    requires Exec(Step, Init(threads), es).Some? && Step(Exec(Step, Init(threads), es).value, e).Some?
    requires t in Exec(Step, Init(threads), es).value.pc
    requires !Answers(Exec(Step, Init(threads), es).value.pc[t], ok)
    requires Answers(Step(Exec(Step, Init(threads), es).value, e).value.pc[t], ok)
    ensures var n := Step(Exec(Step, Init(threads), es).value, e).value;
      if ok then n.conn.Connected? else n.disconnected || n.conn.Closed?
  {
  }

  /**
   A caller that comes while another one dials waits, polls, answers with the outcome of that dial and makes none of its
   own.
   */
  lemma OneDialServesTwo(s: State, t: nat, u: nat, ok: bool)
    requires t in s.pc && u in s.pc && t != u && s.pc[t].Announce? && s.pc[u].CheckState?
    ensures Exec(Step, s, [StoreConnecting(t), LoadState(u), PollState(u, false)] + [DialReturns(t, ok), PollState(u, false)])
      == Some(s.(conn := if ok then Connected else Closed, pc := s.pc[t := Unlocking(ok)][u := Finished(ok)]))
  {
    RunWait(s, t, u);
    var waiting := s.(conn := Connecting, pc := s.pc[t := Dial][u := WaitConnecting]);
    var run := [DialReturns(t, ok)];
    assert run[1..] == [];
    ExecMore(Step, waiting, run, PollState(u, false));
    assert waiting.pc[t := Unlocking(ok)][u := Finished(ok)] == s.pc[t := Unlocking(ok)][u := Finished(ok)];
    ExecJoin(Step, s, [StoreConnecting(t), LoadState(u), PollState(u, false)], [DialReturns(t, ok), PollState(u, false)]);
  }

  lemma RunWait(s: State, t: nat, u: nat)
    requires t in s.pc && u in s.pc && t != u && s.pc[t].Announce? && s.pc[u].CheckState?
    ensures Exec(Step, s, [StoreConnecting(t), LoadState(u), PollState(u, false)])
      == Some(s.(conn := Connecting, pc := s.pc[t := Dial][u := WaitConnecting]))
  {
    var run := [StoreConnecting(t)];
    assert run[1..] == [];
    ExecMore(Step, s, run, LoadState(u)); run := run + [LoadState(u)];
    assert Exec(Step, s, run).value.pc == s.pc[t := Dial][u := WaitConnecting];
    ExecMore(Step, s, run, PollState(u, false)); run := run + [PollState(u, false)];
    assert run == [StoreConnecting(t), LoadState(u), PollState(u, false)];
  }

  /** How the latest dial since the watcher's latest event went. */
  function DialSince(es: seq<Event>): Option<bool> {
    if es == [] || OfWatcher(es[|es| - 1]) then None
    else if es[|es| - 1].DialReturns? then Some(es[|es| - 1].ok)
    else DialSince(es[..|es| - 1])
  }

  /** How far the attempt of a lone watcher has got. */
  ghost predicate Attempt(s: State, dial: Option<bool>) {
    && Alone(s) && WATCHER in s.pc
    && (s.watcher.RetryCheck? ==> s.conn.Disconnected?)
    && (s.watcher.Calling? ==>
          match s.pc[WATCHER]
          case Outside => false
          case WaitConnecting => false
          case Unlocking(ok) => Outcome(s, ok, dial)
          case Finished(ok) => Outcome(s, ok, dial)
          case Dial => dial.None?
          case _ => s.conn.Disconnected? && dial.None?)
  }

  predicate Outcome(s: State, ok: bool, dial: Option<bool>) {
    || (dial == Some(ok) && s.conn == if ok then Connected else Closed)
    || (s.disconnected && !ok && dial.None? && s.conn.Disconnected?)
  }

  lemma StepAttempt(s: State, es: seq<Event>, e: Event)
    requires WatcherPc(s) && Attempt(s, DialSince(es)) && Step(s, e).Some? && !e.Call?
    ensures Attempt(Step(s, e).value, DialSince(es + [e]))
  {
    assert (es + [e])[..|es|] == es;
    if OfWatcher(e) {
      WatcherKeepsAttempt(s, DialSince(es), e);
    } else {
      ThreadKeepsAttempt(s, DialSince(es), e);
    }
  }

  lemma WatcherKeepsAttempt(s: State, dial: Option<bool>, e: Event)
    requires WatcherPc(s) && Attempt(s, dial) && Step(s, e).Some? && OfWatcher(e)
    ensures Attempt(Step(s, e).value, None)
  {
  }

  lemma ThreadKeepsAttempt(s: State, dial: Option<bool>, e: Event)
    requires WatcherPc(s) && Attempt(s, dial) && Step(s, e).Some? && !OfWatcher(e) && !e.Call?
    ensures Attempt(Step(s, e).value, if e.DialReturns? then Some(e.ok) else dial)
  {
  }

  lemma {:induction false} ExecAttempt(s: State, es: seq<Event>)
    requires Inv(s) && Attempt(s, None) && Exec(Step, s, es).Some?
    requires forall i :: 0 <= i < |es| ==> !es[i].Call?
    ensures Attempt(Exec(Step, s, es).value, DialSince(es))
    decreases |es|
  {
    if es != [] {
      var before, e := es[..|es| - 1], es[|es| - 1];
      assert es == before + [e];
      ExecSplit(Step, s, before, [e]);
      ExecAttempt(s, before);
      ExecInv(s, before);
      StepAttempt(Exec(Step, s, before).value, before, e);
    }
  }

  /**
   In the program's runs, an attempt of the watcher that has its answer dialled once it began, and answers with the
   outcome of that dial, unless the client disconnected: then it may answer false without a dial.
   */
  lemma AttemptsDial(threads: set<nat>, first: seq<Event>, later: seq<Event>, ok: bool)
    requires Exec(Step, Init(threads), first).Some?
    requires var s := Exec(Step, Init(threads), first).value; Alone(s) && s.watcher.Top?
    requires Exec(Step, Exec(Step, Init(threads), first).value, later).Some?
    requires forall i :: 0 <= i < |later| ==> !later[i].Call?
    requires var s := Exec(Step, Exec(Step, Init(threads), first).value, later).value;
      WATCHER in s.pc && s.watcher.Calling? && s.pc[WATCHER] == Finished(ok)
    ensures var s := Exec(Step, Exec(Step, Init(threads), first).value, later).value;
      && (DialSince(later) == Some(ok) || (s.disconnected && !ok && DialSince(later).None?))
      && (ok <==> s.conn.Connected?)
  {
    var start := Exec(Step, Init(threads), first).value;
    Reachable(threads, first);
    ExecAttempt(start, later);
    ExecInv(start, later);
  }

  // The end.

  /** A disconnect is never forgotten, and nothing else is taken for one. */
  lemma {:induction false} DisconnectIsRemembered(s: State, es: seq<Event>)
    requires Exec(Step, s, es).Some?
    ensures Exec(Step, s, es).value.disconnected <==> s.disconnected || ClientDisconnects in es
    decreases |es|
  {
    if es != [] {
      DisconnectIsRemembered(Step(s, es[0]).value, es[1..]);
      assert es == [es[0]] + es[1..];
    }
  }

  /** Once the watcher has been told to shut down, or comes to the top of its loop after a disconnect, it does nothing more. */
  lemma StopsForGood(threads: set<nat>, es: seq<Event>, e: Event, later: seq<Event>)
    requires Exec(Step, Init(threads), es).Some?
    requires e == WatchShutdown || (e == WatchTop && ClientDisconnects in es)
    requires Exec(Step, Exec(Step, Init(threads), es).value, [e] + later).Some?
    ensures forall i :: 0 <= i < |later| ==> !OfWatcher(later[i])
  {
    Reachable(threads, es);
    DisconnectIsRemembered(Init(threads), es);
    StopsNow(Exec(Step, Init(threads), es).value, e, later);
  }

  lemma StopsNow(s: State, e: Event, later: seq<Event>)
    requires WatcherPc(s) && (e == WatchShutdown || (e == WatchTop && s.disconnected))
    requires Exec(Step, s, [e] + later).Some?
    ensures forall i :: 0 <= i < |later| ==> !OfWatcher(later[i])
  {
    assert ([e] + later)[0] == e && ([e] + later)[1..] == later;
    StepWatcherPc(s, e);
    NothingMore(Step(s, e).value, later);
  }

  lemma {:induction false} NothingMore(s: State, es: seq<Event>)
    requires s.watcher.Stopped? && WatcherPc(s) && Exec(Step, s, es).Some?
    ensures forall i :: 0 <= i < |es| ==> !OfWatcher(es[i])
    decreases |es|
  {
    if es != [] {
      NothingMore(Step(s, es[0]).value, es[1..]);
      assert forall i :: 1 <= i < |es| ==> es[i] == es[1..][i - 1];
    }
  }

  lemma {:induction false} LastIsCause(es: seq<Event>)
    requires LastWatch(es).Some? && Chooses(LastWatch(es).value)
    ensures Cause(es) == LastWatch(es)
  {
    if !OfWatcher(es[|es| - 1]) {
      LastIsCause(es[..|es| - 1]);
    }
  }
}
