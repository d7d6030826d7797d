/** Finite executions of a transition system given by its guard and its effect. */
module Runs {

  ghost predicate Path<S(!new), A(!new)>(enabled: (S, A) -> bool, next: (S, A) -> S, s: S, acts: seq<A>, s': S)
    decreases |acts|
  {
    if acts == [] then s' == s
    else enabled(s, acts[0]) && Path(enabled, next, next(s, acts[0]), acts[1..], s')
  }

  lemma PathOne<S(!new), A(!new)>(enabled: (S, A) -> bool, next: (S, A) -> S, s: S, a: A)
    requires enabled(s, a)
    ensures Path(enabled, next, s, [a], next(s, a))
  {
    assert Path(enabled, next, next(s, a), [], next(s, a));
  }

  lemma {:induction false} PathTrans<S(!new), A(!new)>(enabled: (S, A) -> bool, next: (S, A) -> S,
                                                       s: S, a: seq<A>, s1: S, b: seq<A>, s2: S)
    requires Path(enabled, next, s, a, s1) && Path(enabled, next, s1, b, s2)
    ensures Path(enabled, next, s, a + b, s2)
    decreases |a|
  {
    if a == [] {
      assert a + b == b;
    } else {
      PathTrans(enabled, next, next(s, a[0]), a[1..], s1, b, s2);
      assert (a + b)[0] == a[0] && (a + b)[1..] == a[1..] + b;
    }
  }

  lemma PathThen<S(!new), A(!new)>(enabled: (S, A) -> bool, next: (S, A) -> S, s: S, acts: seq<A>, s1: S, a: A)
    requires Path(enabled, next, s, acts, s1) && enabled(s1, a)
    ensures Path(enabled, next, s, acts + [a], next(s1, a))
  {
    PathOne(enabled, next, s1, a);
    PathTrans(enabled, next, s, acts, s1, [a], next(s1, a));
  }
}
