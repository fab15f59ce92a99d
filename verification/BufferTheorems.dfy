/** What holds of every run of Test 2, for any buffer size and any number of values. */
module BufferTheorems {
  import opened Sequences
  import opened BufferModel

  ghost predicate IsPermutation(out: seq<int>, n: nat) {
    |out| == n && Distinct(out) && forall v :: v in out <==> 0 <= v < n
  }

  /** Some value comes out, later a smaller one, later still one in between. */
  ghost predicate HasForbiddenPattern(out: seq<int>) {
    exists i, j, k :: 0 <= i < j < k < |out| && out[j] < out[k] < out[i]
  }

  predicate Finished(s: State) {
    s.producer.Done? && s.consumer.Done?
  }

  // --------------------------------------------------------------- totals

  lemma {:induction false} SumRemove(a: seq<int>, x: int, b: seq<int>)
    ensures Sum(a + [x] + b) == Sum(a + b) + x
  {
    var s := a + [x] + b;
    if b == [] {
      assert s[..|s| - 1] == a == a + b;
    } else {
      var front := b[..|b| - 1];
      SumRemove(a, x, front);
      assert s[..|s| - 1] == a + [x] + front;
      assert (a + b)[..|a + b| - 1] == a + front;
    }
  }

  lemma RemoveLargest(s: seq<int>, n: nat, k: nat)
    requires n > 0 && IsPermutation(s, n) && k < n && s[k] == n - 1
    ensures IsPermutation(s[..k] + s[k + 1..], n - 1)
  {
    var t := s[..k] + s[k + 1..];
    assert forall a :: 0 <= a < n - 1 ==> t[a] == s[if a < k then a else a + 1];
    forall v
      ensures v in t <==> 0 <= v < n - 1
    {
      assert v in s <==> v in s[..k] || v == s[k] || v in s[k + 1..] by {
        assert s == s[..k] + [s[k]] + s[k + 1..];
      }
      assert n - 1 !in t;
    }
  }

  lemma Triangle(n: int)
    ensures (n - 1) * (n - 2) + 2 * (n - 1) == n * (n - 1)
  {
  }

  lemma {:induction false} SumOfPermutation(s: seq<int>, n: nat)
    requires IsPermutation(s, n)
    ensures 2 * Sum(s) == n * (n - 1)
  {
    if n > 0 {
      assert n - 1 in s;
      var k :| 0 <= k < n && s[k] == n - 1;
      assert s == s[..k] + [n - 1] + s[k + 1..];
      SumRemove(s[..k], n - 1, s[k + 1..]);
      RemoveLargest(s, n, k);
      SumOfPermutation(s[..k] + s[k + 1..], n - 1);
      Triangle(n);
    }
  }

  lemma BetweenExcludesPattern(out: seq<int>)
    requires Distinct(out) && BetweenCameFirst(out)
    ensures !HasForbiddenPattern(out)
  {
    forall i, j, k | 0 <= i < j < k < |out| && out[j] < out[i]
      ensures !(out[j] < out[k] < out[i])
    {
      assert out[k] !in out[..j];
    }
  }

  /** Once both threads have ended, every value was processed exactly once, in an order a stack
      can produce, and the totals are right. */
  lemma FinalResults(size: nat, n: nat, states: seq<State>, actions: seq<Action>, k: nat)
    requires size >= 1 && IsRun(size, n, states, actions) && k < |states| && Finished(states[k])
    ensures var s := states[k];
      && IsPermutation(s.processed, n) && !HasForbiddenPattern(s.processed) && Fits(s.processed, size)
      && s.total == n && 2 * s.sum == n * (n - 1)
  {
    var s := states[k];
    RunInv(size, n, states, actions, k);
    assert Live(s) == [];
    SumOfPermutation(s.processed, n);
    BetweenExcludesPattern(s.processed);
  }

  /** With the constants of the program both of its final checks pass. */
  lemma ChecksPass(states: seq<State>, actions: seq<Action>)
    requires IsRun(10, 20, states, actions) && Finished(states[|actions|])
    ensures states[|actions|].sum == (20 / 2) * (0 + 19) && states[|actions|].total == 20
  {
    FinalResults(10, 20, states, actions, |actions|);
  }

  // ------------------------------------------------ wakeups and deadlocks

  lemma NoLostWakeup(size: nat, n: nat, states: seq<State>, actions: seq<Action>, k: nat)
    requires size >= 1 && IsRun(size, n, states, actions) && k < |states|
    ensures states[k].producer == Blocked(false) ==> states[k].count == size
    ensures states[k].consumer == Blocked(false) ==> states[k].count == 0
    ensures !(states[k].producer == Blocked(false) && states[k].consumer == Blocked(false))
  {
    RunInv(size, n, states, actions, k);
  }

  /** If nothing can move without a spurious wakeup, both threads have ended. */
  lemma DeadlockFree(size: nat, n: nat, states: seq<State>, actions: seq<Action>, k: nat)
    requires size >= 1 && IsRun(size, n, states, actions) && k < |states|
    requires forall a :: Enabled(states[k], a) ==> Spurious(states[k], a)
    ensures Finished(states[k])
  {
    RunInv(size, n, states, actions, k);
    assert Enabled(states[k], Producer) ==> Spurious(states[k], Producer);
    assert Enabled(states[k], Consumer) ==> Spurious(states[k], Consumer);
  }

  // ---------------------------------------------------------- termination

  function Rank(s: State, n: nat): int {
    2 * (n - s.produced) - (if s.producer.Blocked? then 1 else 0) +
    2 * (n - s.consumed) - (if s.consumer.Blocked? then 1 else 0)
  }

  /** A spurious wakeup changes nothing; every other step uses up rank. */
  lemma StepUsesRank(s: State, a: Action, t: State, size: nat, n: nat)
    requires size >= 1 && Inv(s, size, n) && Step(s, a, t, n)
    ensures Spurious(s, a) ==> t == s
    ensures !Spurious(s, a) ==> Rank(t, n) < Rank(s, n)
  {
  }

  /** The steps of a run that are not spurious wakeups. */
  function EffectiveSteps(states: seq<State>, actions: seq<Action>): nat
    requires |states| == |actions| + 1
    decreases |actions|
  {
    if actions == [] then 0
    else
      var last := |actions| - 1;
      EffectiveSteps(states[..last + 1], actions[..last]) + if Spurious(states[last], actions[last]) then 0 else 1
  }

  lemma {:induction false} EffectiveStepsUseRank(size: nat, n: nat, states: seq<State>, actions: seq<Action>)
    requires size >= 1 && IsRun(size, n, states, actions)
    ensures EffectiveSteps(states, actions) + Rank(states[|actions|], n) <= 4 * n
    decreases |actions|
  {
    if actions != [] {
      var last := |actions| - 1;
      EffectiveStepsUseRank(size, n, states[..last + 1], actions[..last]);
      RunInv(size, n, states, actions, last);
      StepUsesRank(states[last], actions[last], states[last + 1], size, n);
    }
  }

  /** Every run has at most 4n steps besides spurious wakeups. */
  lemma RunsAreShort(size: nat, n: nat, states: seq<State>, actions: seq<Action>)
    requires size >= 1 && IsRun(size, n, states, actions)
    ensures EffectiveSteps(states, actions) <= 4 * n
  {
    EffectiveStepsUseRank(size, n, states, actions);
    RunInv(size, n, states, actions, |actions|);
  }
}
