// Runs of a deterministic step function over a sequence of events: the state after each prefix,
// and induction along a run.
module Traces {
  /** The state after all of `es`, taken from the left. */
  function Fold<S, E>(f: (S, E) -> S, s: S, es: seq<E>): S {
    if es == [] then s else f(Fold(f, s, es[..|es| - 1]), es[|es| - 1])
  }

  lemma FoldSnoc<S, E>(f: (S, E) -> S, s: S, es: seq<E>, e: E)
    ensures Fold(f, s, es + [e]) == f(Fold(f, s, es), e)
  {
    assert (es + [e])[..|es|] == es;
  }

  lemma {:induction false} FoldConcat<S, E>(f: (S, E) -> S, s: S, a: seq<E>, b: seq<E>)
    ensures Fold(f, s, a + b) == Fold(f, Fold(f, s, a), b)
  {
    if b == [] {
      assert a + b == a;
    } else {
      var n := |b| - 1;
      FoldConcat(f, s, a, b[..n]);
      assert (a + b)[..|a + b| - 1] == a + b[..n];
    }
  }

  /** What every step keeps, every run keeps. */
  lemma {:induction false} FoldInvariant<S(!new), E(!new)>(f: (S, E) -> S, s: S, es: seq<E>, inv: S -> bool)
    requires inv(s)
    requires forall t, e :: inv(t) ==> inv(f(t, e))
    ensures inv(Fold(f, s, es))
  {
    if es != [] {
      FoldInvariant(f, s, es[..|es| - 1], inv);
    }
  }

  /** How many steps of a run change the key of the state. */
  function KeyChanges<S, E, K(==)>(f: (S, E) -> S, key: S -> K, s: S, es: seq<E>): nat {
    if es == [] then 0 else
    KeyChanges(f, key, s, es[..|es| - 1])
    + (if key(Fold(f, s, es)) == key(Fold(f, s, es[..|es| - 1])) then 0 else 1)
  }

  /** The run `es`, at nondecreasing times up to `now`, leads from `init` to `s` and changes the key `changes` times. */
  ghost predicate RunTo<S, E, K>(f: (S, E) -> S, key: S -> K, time: E -> real, init: S, es: seq<E>,
                                 s: S, now: real, changes: nat) {
    && s == Fold(f, init, es)
    && changes == KeyChanges(f, key, init, es)
    && (forall i, j :: 0 <= i < j < |es| ==> time(es[i]) <= time(es[j]))
    && (es != [] ==> time(es[|es| - 1]) <= now)
  }

  lemma RunToNext<S, E, K>(f: (S, E) -> S, key: S -> K, time: E -> real, init: S, es: seq<E>,
                           s: S, now: real, changes: nat, e: E, s': S)
    requires RunTo(f, key, time, init, es, s, now, changes) && now <= time(e) && s' == f(s, e)
    ensures RunTo(f, key, time, init, es + [e], s', time(e), changes + if key(s') == key(s) then 0 else 1)
  {
    FoldSnoc(f, init, es, e);
    assert (es + [e])[..|es|] == es;
  }
}
