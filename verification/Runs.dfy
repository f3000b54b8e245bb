/**
 Runs of a concurrent system.  A system is a total step function; an execution is a sequence of
 events, one for each committed transaction, external call or crash, in the order in which they
 take effect.  An event that cannot happen in a state leaves the state as it is, so a statement
 about all event sequences is a statement about all interleavings.
 */
module Runs {

  /** The state after the events `es`, taken in order from `s`. */
  function Run<S, E>(step: (S, E) -> S, s: S, es: seq<E>): S
    decreases |es|
  {
    if es == [] then s else step(Run(step, s, es[..|es| - 1]), es[|es| - 1])
  }

  /** Every event of the run is allowed by `ok` in the state in which it happens. */
  ghost predicate Allowed<S, E>(step: (S, E) -> S, ok: (S, E) -> bool, s: S, es: seq<E>)
    decreases |es|
  {
    es == [] ||
    (Allowed(step, ok, s, es[..|es| - 1]) && ok(Run(step, s, es[..|es| - 1]), es[|es| - 1]))
  }

  lemma {:induction false} RunConcat<S, E>(step: (S, E) -> S, s: S, es: seq<E>, fs: seq<E>)
    ensures Run(step, s, es + fs) == Run(step, Run(step, s, es), fs)
    decreases |fs|
  {
    if fs == [] {
      assert es + fs == es;
    } else {
      var n := |fs| - 1;
      RunConcat(step, s, es, fs[..n]);
      assert (es + fs)[..|es + fs| - 1] == es + fs[..n];
    }
  }

  lemma RunOne<S, E>(step: (S, E) -> S, s: S, e: E)
    ensures Run(step, s, [e]) == step(s, e)
  {
    assert [e][..0] == [];
  }

  lemma RunSnoc<S, E>(step: (S, E) -> S, s: S, es: seq<E>, e: E)
    ensures Run(step, s, es + [e]) == step(Run(step, s, es), e)
  {
    RunConcat(step, s, es, [e]);
    RunOne(step, Run(step, s, es), e);
  }

  lemma RunThree<S, E>(step: (S, E) -> S, s: S, a: E, b: E, c: E)
    ensures Run(step, s, [a, b, c]) == step(step(step(s, a), b), c)
  {
    RunOne(step, s, a);
    RunSnoc(step, s, [a], b);
    RunSnoc(step, s, [a] + [b], c);
    assert [a] + [b] + [c] == [a, b, c];
  }

  /** What every allowed step keeps holds after every allowed run. */
  lemma {:induction false} Invariance<S(!new), E(!new)>(
    step: (S, E) -> S, ok: (S, E) -> bool, inv: S -> bool, s: S, es: seq<E>)
    requires inv(s)
    requires forall t, e :: inv(t) && ok(t, e) ==> inv(step(t, e))
    requires Allowed(step, ok, s, es)
    ensures inv(Run(step, s, es))
    decreases |es|
  {
    if es != [] {
      Invariance(step, ok, inv, s, es[..|es| - 1]);
    }
  }

  /** Two systems in step: related states stay related when both take the events of an allowed run. */
  lemma {:induction false} Simulation<S(!new), T(!new), E(!new)>(
    step: (S, E) -> S, ok: (S, E) -> bool, step': (T, E) -> T, related: (S, T) -> bool, s: S, t: T, es: seq<E>)
    requires related(s, t)
    requires forall u, v, e :: related(u, v) && ok(u, e) ==> related(step(u, e), step'(v, e))
    requires Allowed(step, ok, s, es)
    ensures related(Run(step, s, es), Run(step', t, es))
    decreases |es|
  {
    if es != [] {
      Simulation(step, ok, step', related, s, t, es[..|es| - 1]);
    }
  }

  lemma AllowedSnoc<S, E>(step: (S, E) -> S, ok: (S, E) -> bool, s: S, es: seq<E>, e: E)
    requires Allowed(step, ok, s, es) && ok(Run(step, s, es), e)
    ensures Allowed(step, ok, s, es + [e])
  {
    assert (es + [e])[..|es + [e]| - 1] == es;
  }

  lemma AllowedOne<S, E>(step: (S, E) -> S, ok: (S, E) -> bool, s: S, e: E)
    requires ok(s, e)
    ensures Allowed(step, ok, s, [e])
  {
    assert [e][..0] == [];
  }

  /** A run allowed by a rule is allowed by any weaker one. */
  lemma {:induction false} AllowedWeaker<S(!new), E(!new)>(
    step: (S, E) -> S, strict: (S, E) -> bool, loose: (S, E) -> bool, s: S, es: seq<E>)
    requires forall t, e :: strict(t, e) ==> loose(t, e)
    requires Allowed(step, strict, s, es)
    ensures Allowed(step, loose, s, es)
    decreases |es|
  {
    if es != [] {
      AllowedWeaker(step, strict, loose, s, es[..|es| - 1]);
    }
  }

  /** No restriction at all on the events. */
  predicate Any<S, E>(s: S, e: E) { true }

  lemma {:induction false} AnythingAllowed<S, E>(step: (S, E) -> S, s: S, es: seq<E>)
    ensures Allowed(step, Any, s, es)
    decreases |es|
  {
    if es != [] {
      AnythingAllowed(step, s, es[..|es| - 1]);
    }
  }
}

/** Attempt numbers: how many times something happened when each time has a number of its own. */
module Attempts {

  ghost predicate Distinct(s: seq<nat>) {
    forall i, j :: 0 <= i < j < |s| ==> s[i] != s[j]
  }

  /** The attempts other than `a`. */
  ghost function Without(s: seq<nat>, a: nat): (rest: seq<nat>)
    requires Distinct(s)
    ensures Distinct(rest) && |rest| == (if a in s then |s| - 1 else |s|)
    ensures forall b :: b in rest <==> b in s && b != a
  {
    if s == [] then []
    else
      var n := |s| - 1;
      assert s == s[..n] + [s[n]] && s[n] !in s[..n];
      if s[n] == a then s[..n]
      else
        var before := Without(s[..n], a);
        assert s[n] !in before && forall i :: 0 <= i < |before| ==> before[i] in before;
        before + [s[n]]
  }

  /** Attempts numbered from 1, no number used twice and none above `max`: at most `max` of them. */
  lemma {:induction false} DistinctBounded(s: seq<nat>, max: nat)
    requires Distinct(s)
    requires forall a :: a in s ==> 1 <= a <= max
    ensures |s| <= max
    decreases max
  {
    if s == [] {
    } else if max in s {
      DistinctBounded(Without(s, max), max - 1);
    } else {
      assert s[0] in s;
      DistinctBounded(s, max - 1);
    }
  }
}
