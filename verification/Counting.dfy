/** Counting the goroutines of a state machine that are at a given kind of program point. */
module Counting {

  /** How many keys of `m` hold a value that satisfies `p`. */
  ghost function Count<T>(m: map<nat, T>, p: T -> bool): nat {
    |Where(m, p)|
  }

  ghost function Where<T>(m: map<nat, T>, p: T -> bool): set<nat> {
    set k | k in m && p(m[k])
  }

  ghost function One(b: bool): nat { if b then 1 else 0 }

  /** Moving one goroutine changes the count by what it was and what it becomes. */
  lemma CountMove<T>(m: map<nat, T>, k: nat, v: T, p: T -> bool)
    requires k in m
    ensures Count(m[k := v], p) == Count(m, p) - One(p(m[k])) + One(p(v))
    ensures p(m[k]) ==> Count(m, p) >= 1
  {
    var before, after := Where(m, p), Where(m[k := v], p);
    assert after == (if p(v) then before + {k} else before - {k});
    if p(m[k]) {
      assert k in before;
      assert before == (before - {k}) + {k};
    }
  }

  lemma CountZero<T>(m: map<nat, T>, p: T -> bool)
    ensures Count(m, p) == 0 <==> forall k :: k in m ==> !p(m[k])
  {
    if k :| k in m && p(m[k]) {
      assert k in Where(m, p);
    } else {
      assert Where(m, p) == {};
    }
  }
}
