/**
 Exactly which orders of the values the two threads of Test 2 can produce: the permutations that
 avoid one pattern and never need more room than the buffer has.
 */
module StackOrders {
  import opened Sequences
  import opened BufferModel
  import opened BufferTheorems

  ghost predicate Producible(out: seq<int>, size: nat, n: nat) {
    exists states: seq<State>, actions: seq<Action> ::
      IsRun(size, n, states, actions) && Finished(states[|actions|]) && states[|actions|].processed == out
  }

  predicate Awake(s: State) {
    !s.producer.Blocked? && !s.consumer.Blocked?
  }

  lemma Extend(size: nat, n: nat, states: seq<State>, actions: seq<Action>, a: Action)
    returns (longer: seq<State>, more: seq<Action>)
    requires size >= 1 && IsRun(size, n, states, actions) && Enabled(states[|actions|], a)
    ensures IsRun(size, n, longer, more) && |more| == |actions| + 1
    ensures InBounds(states[|actions|]) && longer[|more|] == Apply(states[|actions|], a, n)
  {
    RunInv(size, n, states, actions, |actions|);
    longer := states + [Apply(states[|actions|], a, n)];
    more := actions + [a];
  }

  /** Let the producer run until it has produced `target` values. */
  lemma {:induction false} ProduceUpTo(size: nat, n: nat, states: seq<State>, actions: seq<Action>, target: nat)
    returns (longer: seq<State>, more: seq<Action>)
    requires size >= 1 && IsRun(size, n, states, actions) && Awake(states[|actions|])
    requires states[|actions|].produced <= target <= n && target <= states[|actions|].consumed + size
    ensures IsRun(size, n, longer, more) && Awake(longer[|more|])
    ensures longer[|more|].produced == target && longer[|more|].processed == states[|actions|].processed
    decreases target - states[|actions|].produced
  {
    var s := states[|actions|];
    if s.produced == target {
      longer, more := states, actions;
    } else {
      RunInv(size, n, states, actions, |actions|);
      longer, more := Extend(size, n, states, actions, Producer);
      longer, more := ProduceUpTo(size, n, longer, more, target);
    }
  }

  /** Without the pattern, nothing still to come lies between the next value and an earlier
      larger one. */
  lemma NothingBetween(out: seq<int>, j: nat, m: nat, x: int)
    requires !HasForbiddenPattern(out) && m <= j < |out|
    requires x in out && x !in out[..j] && x <= out[m]
    ensures x <= out[j]
  {
    var k :| 0 <= k < |out| && out[k] == x;
    assert k >= j;
  }

  /** When production has gone just far enough, the next value wanted lies on top. */
  lemma WantedOnTop(s: State, size: nat, n: nat, out: seq<int>, j: nat, m: nat)
    requires Inv(s, size, n) && IsPermutation(out, n) && !HasForbiddenPattern(out)
    requires j < n && s.processed == out[..j]
    requires m <= j && s.produced == out[m] + 1 && out[j] < s.produced
    ensures s.count > 0 && s.buffer[s.count - 1] == out[j]
  {
    assert out[j] in out && out[j] !in s.processed;
    assert out[j] in Live(s);
    var top := Live(s)[s.count - 1];
    assert top in Live(s);
    NothingBetween(out, j, m, top);
  }

  /** The first position of out[..j + 1] that holds its largest value. */
  lemma {:induction false} Largest(out: seq<int>, j: nat) returns (m: nat)
    requires j < |out|
    ensures m <= j && forall i :: 0 <= i <= j ==> out[i] <= out[m]
  {
    m := 0;
    if j > 0 {
      m := Largest(out, j - 1);
      if out[j] > out[m] {
        m := j;
      }
    }
  }

  /** A run that has processed the first j values wanted and produced no more than needed. */
  lemma {:induction false} Schedule(size: nat, n: nat, out: seq<int>, j: nat)
    returns (states: seq<State>, actions: seq<Action>)
    requires size >= 1 && IsPermutation(out, n) && !HasForbiddenPattern(out) && Fits(out, size) && j <= n
    ensures IsRun(size, n, states, actions) && Awake(states[|actions|])
    ensures states[|actions|].processed == out[..j]
    ensures j == 0 ==> states[|actions|].produced == 0
    ensures j > 0 ==>
      exists m :: 0 <= m < j && states[|actions|].produced == out[m] + 1 && forall i :: 0 <= i < j ==> out[i] <= out[m]
  {
    if j == 0 {
      states, actions := [State(seq(size, _ => 0), 0, NextPc(0, n), 0, NextPc(0, n), 0, 0, 0, [])], [];
    } else {
      states, actions := Schedule(size, n, out, j - 1);
      var m := Largest(out, j - 1);
      assert out[m] in out && FitsAt(out, size, j - 1);
      RunInv(size, n, states, actions, |actions|);
      states, actions := ProduceUpTo(size, n, states, actions, out[m] + 1);
      var s := states[|actions|];
      RunInv(size, n, states, actions, |actions|);
      WantedOnTop(s, size, n, out, j - 1, m);
      states, actions := Extend(size, n, states, actions, Consumer);
      assert out[..j] == out[..j - 1] + [out[j - 1]];
    }
  }

  /** An order can be produced exactly when it is a permutation of 0..n-1 without the pattern
      and every prefix fits into the buffer. */
  lemma ProducibleExactly(out: seq<int>, size: nat, n: nat)
    requires size >= 1
    ensures Producible(out, size, n) <==>
      IsPermutation(out, n) && !HasForbiddenPattern(out) && Fits(out, size)
  {
    if Producible(out, size, n) {
      var states: seq<State>, actions: seq<Action> :|
        IsRun(size, n, states, actions) && Finished(states[|actions|]) && states[|actions|].processed == out;
      FinalResults(size, n, states, actions, |actions|);
    }
    if IsPermutation(out, n) && !HasForbiddenPattern(out) && Fits(out, size) {
      var states, actions := Schedule(size, n, out, n);
      RunInv(size, n, states, actions, |actions|);
      assert out[..n] == out;
    }
  }
}
