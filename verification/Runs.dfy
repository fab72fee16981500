/** Finite runs of a machine whose next state is a partial function of the state and the action. */
module Runs {
  import opened LogTypes

  function RunOf<S, A>(next: (S, A) -> Option<S>, s: S, acts: seq<A>): Option<S> {
    if acts == [] then Some(s)
    else
      match RunOf(next, s, acts[..|acts| - 1])
      case None => None
      case Some(t) => next(t, acts[|acts| - 1])
  }

  lemma {:induction false} RunConcat<S, A>(next: (S, A) -> Option<S>, s: S, acts: seq<A>, t: S, more: seq<A>)
    requires RunOf(next, s, acts) == Some(t)
    ensures RunOf(next, s, acts + more) == RunOf(next, t, more)
  {
    if more == [] {
      assert acts + more == acts;
    } else {
      var n := |more| - 1;
      RunConcat(next, s, acts, t, more[..n]);
      assert (acts + more)[..|acts + more| - 1] == acts + more[..n];
    }
  }

  lemma RunThen<S, A>(next: (S, A) -> Option<S>, s: S, acts: seq<A>, t: S, a: A)
    requires RunOf(next, s, acts) == Some(t)
    ensures RunOf(next, s, acts + [a]) == next(t, a)
  {
    assert (acts + [a])[..|acts|] == acts;
  }

  lemma RunFirst<S, A>(next: (S, A) -> Option<S>, s: S, a: A, t: S, more: seq<A>)
    requires next(s, a) == Some(t)
    ensures RunOf(next, s, [a]) == Some(t)
    ensures RunOf(next, s, [a] + more) == RunOf(next, t, more)
  {
    RunThen(next, s, [], s, a);
    assert [] + [a] == [a];
    RunConcat(next, s, [a], t, more);
  }

  /** How many steps of a run are of one kind. */
  function Times<A>(kind: A -> bool, acts: seq<A>): nat {
    if acts == [] then 0
    else Times(kind, acts[..|acts| - 1]) + if kind(acts[|acts| - 1]) then 1 else 0
  }

  lemma TimesThen<A>(kind: A -> bool, acts: seq<A>, a: A)
    ensures Times(kind, acts + [a]) == Times(kind, acts) + if kind(a) then 1 else 0
  {
    assert (acts + [a])[..|acts|] == acts;
  }

  lemma {:induction false} TimesConcat<A>(kind: A -> bool, acts: seq<A>, more: seq<A>)
    ensures Times(kind, acts + more) == Times(kind, acts) + Times(kind, more)
  {
    if more == [] {
      assert acts + more == acts;
    } else {
      var n := |more| - 1;
      TimesConcat(kind, acts, more[..n]);
      assert (acts + more)[..|acts + more| - 1] == acts + more[..n];
    }
  }

  // ----- a total machine, driven by two sequences of equal length -----

  function FoldOf<S, A, B>(next: (S, A, B) -> S, s: S, xs: seq<A>, ys: seq<B>): S
    requires |xs| == |ys|
  {
    if xs == [] then s
    else
      var n := |xs| - 1;
      next(FoldOf(next, s, xs[..n], ys[..n]), xs[n], ys[n])
  }

  /** The states before, between and after the steps. */
  ghost predicate StatesOf<S, A, B>(next: (S, A, B) -> S, s: S, xs: seq<A>, ys: seq<B>, states: seq<S>)
    requires |xs| == |ys|
  {
    && |states| == |xs| + 1 && states[0] == s
    && forall k | 0 <= k < |xs| :: states[k + 1] == next(states[k], xs[k], ys[k])
  }

  lemma {:induction false} StatesAt<S, A, B>(next: (S, A, B) -> S, s: S, xs: seq<A>, ys: seq<B>, states: seq<S>, k: nat)
    requires k <= |xs| == |ys| && StatesOf(next, s, xs, ys, states)
    ensures states[k] == FoldOf(next, s, xs[..k], ys[..k])
  {
    if k > 0 {
      StatesAt(next, s, xs, ys, states, k - 1);
      assert xs[..k][..k - 1] == xs[..k - 1] && ys[..k][..k - 1] == ys[..k - 1];
      assert states[k - 1 + 1] == next(states[k - 1], xs[k - 1], ys[k - 1]);
    }
  }

  lemma StatesThen<S, A, B>(next: (S, A, B) -> S, s: S, xs: seq<A>, ys: seq<B>, states: seq<S>, x: A, y: B)
    requires |xs| == |ys| && StatesOf(next, s, xs, ys, states)
    ensures StatesOf(next, s, xs + [x], ys + [y], states + [next(states[|xs|], x, y)])
  {
    var more := states + [next(states[|xs|], x, y)];
    forall k | 0 <= k < |xs + [x]| ensures more[k + 1] == next(more[k], (xs + [x])[k], (ys + [y])[k]) {
      if k < |xs| {
        assert states[k + 1] == next(states[k], xs[k], ys[k]);
      }
    }
  }
}
