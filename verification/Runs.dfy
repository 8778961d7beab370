/**
 Runs of a state machine. A machine is a partial step function: `step(s, e)` is None when
 event `e` cannot happen in state `s`.
 */
module Runs {
  import opened Wrappers

  /** The state after the events `es`, or None when one of them cannot happen. */
  function Exec<S, E>(step: (S, E) -> Option<S>, s: S, es: seq<E>): Option<S>
    decreases |es|
  {
    if es == [] then Some(s)
    else match step(s, es[0])
      case None => None
      case Some(next) => Exec(step, next, es[1..])
  }

  /** Running one more event. */
  lemma {:induction false} ExecMore<S, E>(step: (S, E) -> Option<S>, s: S, es: seq<E>, e: E)
    requires Exec(step, s, es).Some?
    ensures Exec(step, s, es + [e]) == step(Exec(step, s, es).value, e)
    decreases |es|
  {
    if es == [] {
      assert [e][1..] == [];
      assert es + [e] == [e];
    } else {
      assert (es + [e])[1..] == es[1..] + [e];
      ExecMore(step, step(s, es[0]).value, es[1..], e);
    }
  }

  /** Running one list of events after another. */
  lemma {:induction false} ExecJoin<S, E>(step: (S, E) -> Option<S>, s: S, first: seq<E>, later: seq<E>)
    requires Exec(step, s, first).Some?
    ensures Exec(step, s, first + later) == Exec(step, Exec(step, s, first).value, later)
    decreases |first|
  {
    if first == [] {
      assert first + later == later;
    } else {
      assert (first + later)[1..] == first[1..] + later;
      ExecJoin(step, step(s, first[0]).value, first[1..], later);
    }
  }

  /** A list of events that can happen can be cut anywhere. */
  lemma {:induction false} ExecSplit<S, E>(step: (S, E) -> Option<S>, s: S, first: seq<E>, later: seq<E>)
    requires Exec(step, s, first + later).Some?
    ensures Exec(step, s, first).Some? && Exec(step, Exec(step, s, first).value, later) == Exec(step, s, first + later)
    decreases |first|
  {
    if first == [] {
      assert first + later == later;
    } else {
      assert (first + later)[1..] == first[1..] + later;
      ExecSplit(step, step(s, first[0]).value, first[1..], later);
    }
  }
}
