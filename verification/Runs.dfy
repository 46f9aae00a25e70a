/**
 Induction over the runs of a transition system whose step function may refuse a step.
 */
module Runs {
  import opened Wrappers

  /** `run` lists the states, `steps` the steps taken between them. */
  ghost predicate IsRun<S, A>(next: (S, A) -> Option<S>, run: seq<S>, steps: seq<A>) {
    && |run| == |steps| + 1
    && forall k :: 0 <= k < |steps| ==> next(run[k], steps[k]) == Some(run[k + 1])
  }

  /** What every allowed step keeps holds along any stretch of allowed steps. */
  lemma {:induction false} Preserved<S(!new), A(!new)>(
      next: (S, A) -> Option<S>, p: S -> bool, allowed: A -> bool, run: seq<S>, steps: seq<A>, k: nat, n: nat)
    requires IsRun(next, run, steps) && k <= n < |run| && p(run[k])
    requires forall m :: k <= m < n ==> allowed(steps[m])
    requires forall s, a :: p(s) && allowed(a) && next(s, a).Some? ==> p(next(s, a).value)
    ensures p(run[n])
    decreases n - k
  {
    if k < n {
      Preserved(next, p, allowed, run, steps, k, n - 1);
      assert next(run[n - 1], steps[n - 1]) == Some(run[n]);
      assert allowed(steps[n - 1]);
    }
  }

  /** A run that starts where another ends continues it. */
  lemma Joined<S, A>(next: (S, A) -> Option<S>, run: seq<S>, steps: seq<A>, more: seq<S>, moreSteps: seq<A>)
    requires IsRun(next, run, steps) && IsRun(next, more, moreSteps) && run[|run| - 1] == more[0]
    ensures IsRun(next, run + more[1..], steps + moreSteps)
  {
    var whole, taken := run + more[1..], steps + moreSteps;
    forall k | 0 <= k < |taken| ensures next(whole[k], taken[k]) == Some(whole[k + 1]) {
      if k >= |steps| {
        assert whole[k] == more[k - |steps|] && whole[k + 1] == more[k + 1 - |steps|];
        assert taken[k] == moreSteps[k - |steps|];
      }
    }
  }

  /** State `k` of `h` satisfies `inv`, and the next one follows from it by `step`. */
  ghost predicate Link<S>(inv: S -> bool, step: (S, S) -> bool, h: seq<S>, k: nat)
    requires k < |h|
  {
    inv(h[k]) && (k + 1 < |h| ==> step(h[k], h[k + 1]))
  }

  /** Every state of `h` satisfies `inv` and neighbours are related by `step`. */
  ghost predicate Chain<S>(inv: S -> bool, step: (S, S) -> bool, h: seq<S>) {
    forall k: nat :: k < |h| ==> Link(inv, step, h, k)
  }

  lemma ChainAt<S>(inv: S -> bool, step: (S, S) -> bool, h: seq<S>, k: nat)
    requires Chain(inv, step, h) && k < |h|
    ensures inv(h[k]) && (k + 1 < |h| ==> step(h[k], h[k + 1]))
  {
    assert Link(inv, step, h, k);
  }

  lemma ChainGrows<S>(inv: S -> bool, step: (S, S) -> bool, h: seq<S>, s: S)
    requires Chain(inv, step, h) && h != [] && inv(s) && step(h[|h| - 1], s)
    ensures Chain(inv, step, h + [s])
  {
    forall k: nat | k < |h + [s]| ensures Link(inv, step, h + [s], k) {
      if k < |h| { ChainAt(inv, step, h, k); }
    }
  }

  /** What one step keeps while `during` holds, a chain keeps over every stretch of `during`. */
  lemma {:induction false} ChainKeeps<S(!new)>(
      inv: S -> bool, step: (S, S) -> bool, during: S -> bool, p: S -> bool, h: seq<S>, i: nat, j: nat)
    requires Chain(inv, step, h) && i <= j < |h| && p(h[i])
    requires forall k :: i <= k <= j ==> during(h[k])
    requires forall a, b :: inv(a) && inv(b) && step(a, b) && during(a) && during(b) && p(a) ==> p(b)
    ensures p(h[j])
    decreases j
  {
    if i < j {
      ChainKeeps(inv, step, during, p, h, i, j - 1);
      ChainAt(inv, step, h, j - 1);
      ChainAt(inv, step, h, j);
    }
  }
}
