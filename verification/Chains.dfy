/** Steps of any machine, one after the other. */
module Chains {

  ghost predicate Chain<S(!new), E>(step: (S, E, S) -> bool, s: S, es: seq<E>, s': S)
    decreases |es|
  {
    if es == [] then s' == s
    else exists s1 :: step(s, es[0], s1) && Chain(step, s1, es[1..], s')
  }

  lemma One<S(!new), E>(step: (S, E, S) -> bool, s: S, e: E, s': S)
    requires step(s, e, s')
    ensures Chain(step, s, [e], s')
  {
    assert Chain(step, s', [e][1..], s');
  }

  lemma {:induction false} Append<S(!new), E>(step: (S, E, S) -> bool, s: S, es: seq<E>, s1: S, es1: seq<E>, s2: S)
    requires Chain(step, s, es, s1) && Chain(step, s1, es1, s2)
    ensures Chain(step, s, es + es1, s2)
    decreases |es|
  {
    if es == [] {
      assert es + es1 == es1;
    } else {
      var t :| step(s, es[0], t) && Chain(step, t, es[1..], s1);
      Append(step, t, es[1..], s1, es1, s2);
      assert (es + es1)[1..] == es[1..] + es1;
    }
  }

  /** What every step carries from a count to the next one holds at the end, and of every event on the way. */
  lemma {:induction false} Along<S(!new), E(!new)>(step: (S, E, S) -> bool, P: (S, nat) -> bool, Q: E -> bool,
                                                   s: S, es: seq<E>, s': S, n: nat, last: nat)
    requires Chain(step, s, es, s') && P(s, n) && n + |es| <= last
    requires forall t, e, t', k: nat :: step(t, e, t') && k < last && P(t, k) ==> Q(e) && P(t', k + 1)
    ensures P(s', n + |es|) && forall i :: 0 <= i < |es| ==> Q(es[i])
    decreases |es|
  {
    if es != [] {
      var t :| step(s, es[0], t) && Chain(step, t, es[1..], s');
      assert Q(es[0]) && P(t, n + 1);
      var rest := es[1..];
      Along(step, P, Q, t, rest, s', n + 1, last);
      forall i | 0 < i < |es|
        ensures Q(es[i])
      {
        assert es[i] == rest[i - 1];
      }
    }
  }
}
