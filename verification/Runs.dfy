/** Runs of an arbitrary deterministic machine, and the induction principle over them. */
module Runs {
  /** The state after the events `es`, in order. */
  function Run<S, E>(step: (S, E) -> S, s: S, es: seq<E>): S {
    if es == [] then s else step(Run(step, s, es[..|es| - 1]), es[|es| - 1])
  }

  lemma RunSnoc<S, E>(step: (S, E) -> S, s: S, es: seq<E>, e: E)
    ensures Run(step, s, es + [e]) == step(Run(step, s, es), e)
  {
    assert (es + [e])[..|es|] == es;
  }

  /** `p` holds before, between and after the events. */
  ghost predicate Throughout<S, E>(step: (S, E) -> S, p: S -> bool, s: S, es: seq<E>) {
    p(Run(step, s, es)) && (es == [] || Throughout(step, p, s, es[..|es| - 1]))
  }

  /** `q` holds of every event in the state in which it occurs. */
  ghost predicate Each<S, E>(step: (S, E) -> S, q: (S, E) -> bool, s: S, es: seq<E>) {
    es == [] || (Each(step, q, s, es[..|es| - 1]) && q(Run(step, s, es[..|es| - 1]), es[|es| - 1]))
  }

  /**
   * If, among the events allowed by `given`, exactly those satisfying `good` preserve `inv`, then
   * `inv` holds throughout a run exactly when every event of it is good.
   */
  lemma {:induction false} InvariantIff<S(!new), E(!new)>(
    step: (S, E) -> S, inv: S -> bool, given: (S, E) -> bool, good: (S, E) -> bool, s: S, es: seq<E>)
    requires inv(s)
    requires forall t, e :: inv(t) && given(t, e) ==> (inv(step(t, e)) <==> good(t, e))
    requires Each(step, given, s, es)
    ensures Throughout(step, inv, s, es) <==> Each(step, good, s, es)
  {
    if es != [] {
      InvariantIff(step, inv, given, good, s, es[..|es| - 1]);
    }
  }

  /** The special case in which every allowed event is good. */
  lemma {:induction false} Invariant<S(!new), E(!new)>(
    step: (S, E) -> S, inv: S -> bool, given: (S, E) -> bool, s: S, es: seq<E>)
    requires inv(s)
    requires forall t, e :: inv(t) && given(t, e) ==> inv(step(t, e))
    requires Each(step, given, s, es)
    ensures inv(Run(step, s, es))
  {
    if es != [] {
      Invariant(step, inv, given, s, es[..|es| - 1]);
    }
  }
}
