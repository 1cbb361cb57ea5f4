/** Steps of a transition relation, one after the other. */
module Reachability {

  /** `n` steps of a relation, one after the other. */
  ghost predicate Steps<S(!new)>(step: (S, S) -> bool, s: S, t: S, n: nat)
    decreases n
  {
    if n == 0 then s == t else exists mid :: step(s, mid) && Steps(step, mid, t, n - 1)
  }

  lemma {:induction false} StepsOnward<S(!new)>(step: (S, S) -> bool, s: S, t: S, n: nat, u: S, m: nat)
    requires Steps(step, s, t, n) && Steps(step, t, u, m)
    ensures Steps(step, s, u, n + m)
    decreases n
  {
    if n == 0 {
    } else {
      var mid :| step(s, mid) && Steps(step, mid, t, n - 1);
      StepsOnward(step, mid, t, n - 1, u, m);
    }
  }

  lemma {:induction false} StepFirst<S(!new)>(step: (S, S) -> bool, s: S, mid: S, t: S, n: nat)
    requires step(s, mid) && Steps(step, mid, t, n)
    ensures Steps(step, s, t, n + 1)
  {
  }

  lemma {:induction false} KeptAlong<S(!new)>(step: (S, S) -> bool, inv: S -> bool, s: S, t: S, n: nat)
    requires inv(s) && Steps(step, s, t, n) && forall a, b :: inv(a) && step(a, b) ==> inv(b)
    ensures inv(t)
    decreases n
  {
    if n == 0 {
    } else {
      var mid :| step(s, mid) && Steps(step, mid, t, n - 1);
      KeptAlong(step, inv, mid, t, n - 1);
    }
  }

  // ----- Chains built step by step -----------------------------------------------------------------

  ghost predicate IsChain<S(!new)>(step: (nat, S, S) -> bool, states: seq<S>) {
    states != [] && forall i :: 0 <= i < |states| - 1 ==> step(i, states[i], states[i + 1])
  }

  ghost predicate GoesOn<S(!new)>(step: (nat, S, S) -> bool, good: (nat, S) -> bool, i: nat, s: S) {
    exists s' :: step(i, s, s') && good(i + 1, s')
  }

  /** If every good state has a good next one, there is a chain of any length. */
  lemma {:induction false} ChainExists<S(!new)>(step: (nat, S, S) -> bool, good: (nat, S) -> bool, s: S, n: nat)
    returns (states: seq<S>)
    requires good(0, s) && forall i: nat, a :: i < n && good(i, a) ==> GoesOn(step, good, i, a)
    ensures |states| == n + 1 && states[0] == s && IsChain(step, states) && good(n, states[n])
  {
    if n == 0 {
      states := [s];
    } else {
      var before := ChainExists(step, good, s, n - 1);
      assert GoesOn(step, good, n - 1, before[n - 1]);
      var s' :| step(n - 1, before[n - 1], s') && good(n, s');
      states := before + [s'];
    }
  }
}
