/** What the components share: an option type, orders of visiting a set, and runs of a step machine. */
module Common {
  datatype Option<+T> = None | Some(value: T)

  /** No value occurs twice. */
  ghost predicate Distinct<T>(xs: seq<T>) {
    forall i, j :: 0 <= i < j < |xs| ==> xs[i] != xs[j]
  }

  /** `order` visits every element of `todo` exactly once: what a Go `range` over a map does. */
  ghost predicate Visits<T(!new)>(order: seq<T>, todo: set<T>) {
    && Distinct(order)
    && (forall x :: x in order <==> x in todo)
  }

  // ----- runs of a machine whose steps are labelled and deterministic -----

  function Run<S, E>(apply: (S, E) -> S, s: S, steps: seq<E>): S
    decreases |steps|
  {
    if steps == [] then s else Run(apply, apply(s, steps[0]), steps[1..])
  }

  lemma {:induction false} RunAppend<S, E>(apply: (S, E) -> S, s: S, xs: seq<E>, ys: seq<E>)
    ensures Run(apply, s, xs + ys) == Run(apply, Run(apply, s, xs), ys)
    decreases |xs|
  {
    if xs == [] {
      assert xs + ys == ys;
    } else {
      assert (xs + ys)[1..] == xs[1..] + ys;
      RunAppend(apply, apply(s, xs[0]), xs[1..], ys);
    }
  }

  lemma RunOne<S, E>(apply: (S, E) -> S, s: S, step: E)
    ensures Run(apply, s, [step]) == apply(s, step)
  {
    assert [step][1..] == [];
  }

  /** The state after the first `i` steps. */
  function At<S, E>(apply: (S, E) -> S, s: S, steps: seq<E>, i: nat): S
    requires i <= |steps|
  {
    Run(apply, s, steps[..i])
  }

  lemma AtNext<S, E>(apply: (S, E) -> S, s: S, steps: seq<E>, i: nat)
    requires i < |steps|
    ensures At(apply, s, steps, i + 1) == apply(At(apply, s, steps, i), steps[i])
  {
    assert steps[..i + 1] == steps[..i] + [steps[i]];
    RunAppend(apply, s, steps[..i], [steps[i]]);
    RunOne(apply, At(apply, s, steps, i), steps[i]);
  }

  /** A predicate every step keeps holds in every state of every run. */
  lemma {:induction false} RunInvariant<S(!new), E(!new)>(apply: (S, E) -> S, inv: S -> bool, s: S, steps: seq<E>)
    requires inv(s)
    requires forall t, e :: inv(t) ==> inv(apply(t, e))
    ensures inv(Run(apply, s, steps))
    decreases |steps|
  {
    if steps != [] {
      RunInvariant(apply, inv, apply(s, steps[0]), steps[1..]);
    }
  }

  ghost predicate Reaches<S(!new), E(!new)>(apply: (S, E) -> S, s: S, t: S) {
    exists steps :: Run(apply, s, steps) == t
  }

  lemma ReachesSelf<S(!new), E(!new)>(apply: (S, E) -> S, s: S)
    ensures Reaches(apply, s, s)
  {
    assert Run(apply, s, []) == s;
  }

  lemma ReachesTrans<S(!new), E(!new)>(apply: (S, E) -> S, s: S, t: S, u: S)
    requires Reaches(apply, s, t) && Reaches(apply, t, u)
    ensures Reaches(apply, s, u)
  {
    var xs :| Run(apply, s, xs) == t;
    var ys :| Run(apply, t, ys) == u;
    RunAppend(apply, s, xs, ys);
    assert Run(apply, s, xs + ys) == u;
  }

  lemma ReachesNext<S(!new), E(!new)>(apply: (S, E) -> S, s: S, t: S, step: E)
    requires Reaches(apply, s, t)
    ensures Reaches(apply, s, apply(t, step))
  {
    var steps :| Run(apply, s, steps) == t;
    RunAppend(apply, s, steps, [step]);
    RunOne(apply, t, step);
    assert Run(apply, s, steps + [step]) == apply(t, step);
  }
}
