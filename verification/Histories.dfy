/** Histories: the state before each step and at the end, and what each step did. */
module Histories {

  ghost predicate IsHistory<S(!new), D(!new)>(step: (S, D, S) -> bool, states: seq<S>, done: seq<D>) {
    && |states| == |done| + 1
    && forall k :: 0 <= k < |done| ==> step(states[k], done[k], states[k + 1])
  }

  lemma Extend<S(!new), D(!new)>(step: (S, D, S) -> bool, states: seq<S>, done: seq<D>, s: S, d: D)
    requires IsHistory(step, states, done) && step(states[|done|], d, s)
    ensures IsHistory(step, states + [s], done + [d])
  {
  }

  lemma Prefix<S(!new), D(!new)>(step: (S, D, S) -> bool, states: seq<S>, done: seq<D>, n: nat)
    requires IsHistory(step, states, done) && n <= |done|
    ensures IsHistory(step, states[..n + 1], done[..n])
  {
  }
}
