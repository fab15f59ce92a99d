/** When the Lab 12 server gives up a client, over the runs of its two threads. */
module Eviction {
  import opened ChatTable
  import opened ChatServer

  /** The step handles a request that came from slot i, which refreshes the slot's time. */
  predicate Hears(s: State, a: Action, i: nat) {
    a.Proceed? && s.main.MLookedUp? && !s.main.command.Register? && s.main.idx == i
  }

  /** The step handles STOP from slot i. */
  predicate Stops(s: State, a: Action, i: nat) {
    a.Proceed? && s.main.MKnown? && s.main.command.Stop? && s.main.idx == i
  }

  ghost predicate NeverStops(states: seq<State>, actions: seq<Action>, i: nat, k: nat, l: nat)
    requires k <= l <= |actions| < |states|
  {
    forall q :: k <= q < l ==> !Stops(states[q], actions[q], i)
  }

  ghost predicate StaysActive(states: seq<State>, i: nat, k: nat, l: nat)
    requires k <= l < |states| && forall q :: k <= q <= l ==> i < |states[q].table|
  {
    forall q :: k <= q <= l ==> states[q].table[i].active
  }

  /** The last time before step l that slot i was heard of, as of state k. */
  ghost function LastHeard(states: seq<State>, actions: seq<Action>, i: nat, k: nat, l: nat): int
    requires k <= l <= |actions| < |states| && i < |states[k].table|
    decreases l
  {
    if l == k then states[k].table[i].lastActive
    else if Hears(states[l - 1], actions[l - 1], i) then actions[l - 1].now
    else LastHeard(states, actions, i, k, l - 1)
  }

  predicate TooLate(a: Action, heard: int) {
    a.Ping? && a.now - heard > PING_TIMEOUT
  }

  /** What one step does to a slot in use, unless its client leaves. */
  lemma SlotStep(s: State, a: Action, t: State, i: nat)
    requires Inv(s) && Step(s, a, t) && i < |s.table| && s.table[i].active && !Stops(s, a, i)
    ensures i < |t.table|
    ensures t.table[i].lastActive == if Hears(s, a, i) then a.now else s.table[i].lastActive
    ensures t.table[i].active <==> !TooLate(a, s.table[i].lastActive)
  {
  }

  lemma {:induction false} TimeIsLastHeard(states: seq<State>, actions: seq<Action>, i: nat, k: nat, l: nat)
    requires IsRun(states, actions) && k <= l < |states| && i < MAX_CLIENTS && NeverStops(states, actions, i, k, l)
    requires forall q :: k <= q < l ==> |states[q].table| == MAX_CLIENTS && states[q].table[i].active
    ensures |states[k].table| == |states[l].table| == MAX_CLIENTS
    ensures states[l].table[i].lastActive == LastHeard(states, actions, i, k, l)
  {
    RunInv(states, actions, k);
    RunInv(states, actions, l);
    if k < l {
      TimeIsLastHeard(states, actions, i, k, l - 1);
      RunInv(states, actions, l - 1);
      SlotStep(states[l - 1], actions[l - 1], states[l], i);
    }
  }

  ghost predicate TablesFull(states: seq<State>) {
    forall q :: 0 <= q < |states| ==> |states[q].table| == MAX_CLIENTS
  }

  lemma RunTables(states: seq<State>, actions: seq<Action>)
    requires IsRun(states, actions)
    ensures TablesFull(states)
  {
    forall q | 0 <= q < |states|
      ensures |states[q].table| == MAX_CLIENTS
    {
      RunInv(states, actions, q);
    }
  }

  ghost predicate GivenUp(states: seq<State>, i: nat, k: nat, l: nat)
    requires k <= l < |states| && TablesFull(states) && i < MAX_CLIENTS
  {
    exists q :: k < q <= l && !states[q].table[i].active
  }

  ghost predicate SweptLate(states: seq<State>, actions: seq<Action>, i: nat, k: nat, l: nat)
    requires k <= l <= |actions| < |states| && TablesFull(states) && i < MAX_CLIENTS
  {
    exists q :: k <= q < l && TooLate(actions[q], LastHeard(states, actions, i, k, q))
  }

  /** A client that does not leave is given up exactly if some sweep comes more than the timeout after
      the last request from its slot before it. */
  lemma {:induction false} EvictedExactly(states: seq<State>, actions: seq<Action>, i: nat, k: nat, l: nat)
    requires IsRun(states, actions) && k <= l < |states| && i < MAX_CLIENTS && NeverStops(states, actions, i, k, l)
    ensures TablesFull(states)
    ensures states[k].table[i].active ==> (GivenUp(states, i, k, l) <==> SweptLate(states, actions, i, k, l))
    decreases l
  {
    RunTables(states, actions);
    if k < l && states[k].table[i].active {
      EvictedExactly(states, actions, i, k, l - 1);
      if GivenUp(states, i, k, l - 1) {
        var q :| k < q <= l - 1 && !states[q].table[i].active;
        var p :| k <= p < l - 1 && TooLate(actions[p], LastHeard(states, actions, i, k, p));
      } else {
        LastStepDecides(states, actions, i, k, l);
      }
    }
  }

  lemma GivenUpNext(states: seq<State>, i: nat, k: nat, l: nat)
    requires k < l < |states| && TablesFull(states) && i < MAX_CLIENTS
    ensures GivenUp(states, i, k, l) <==> GivenUp(states, i, k, l - 1) || !states[l].table[i].active
  {
  }

  lemma SweptLateNext(states: seq<State>, actions: seq<Action>, i: nat, k: nat, l: nat)
    requires k < l <= |actions| < |states| && TablesFull(states) && i < MAX_CLIENTS
    ensures SweptLate(states, actions, i, k, l) <==>
      SweptLate(states, actions, i, k, l - 1) || TooLate(actions[l - 1], LastHeard(states, actions, i, k, l - 1))
  {
    hide TooLate;
    hide LastHeard;
  }

  lemma StepDecides(states: seq<State>, actions: seq<Action>, i: nat, k: nat, l: nat)
    requires IsRun(states, actions) && k < l < |states| && i < MAX_CLIENTS && NeverStops(states, actions, i, k, l)
    requires TablesFull(states) && forall q :: k <= q < l ==> states[q].table[i].active
    ensures !states[l].table[i].active <==> TooLate(actions[l - 1], LastHeard(states, actions, i, k, l - 1))
  {
    RunInv(states, actions, l - 1);
    TimeIsLastHeard(states, actions, i, k, l - 1);
    assert Step(states[l - 1], actions[l - 1], states[l]);
    assert !Stops(states[l - 1], actions[l - 1], i);
    hide IsRun;
    hide NeverStops;
    hide LastHeard;
    SlotStep(states[l - 1], actions[l - 1], states[l], i);
  }

  lemma LastStepDecides(states: seq<State>, actions: seq<Action>, i: nat, k: nat, l: nat)
    requires IsRun(states, actions) && k < l < |states| && i < MAX_CLIENTS && NeverStops(states, actions, i, k, l)
    requires TablesFull(states) && states[k].table[i].active
    requires !GivenUp(states, i, k, l - 1) && !SweptLate(states, actions, i, k, l - 1)
    ensures GivenUp(states, i, k, l) <==> SweptLate(states, actions, i, k, l)
  {
    StepDecides(states, actions, i, k, l);
    GivenUpNext(states, i, k, l);
    hide IsRun;
    hide NeverStops;
    SweptLateNext(states, actions, i, k, l);
    hide *;
  }

  // ------------------------------------------------------------ silent clients

  /** From state k on the sweeps are at most `gap` apart, counted from `start`. */
  ghost predicate Regular(actions: seq<Action>, k: nat, l: nat, start: int, gap: int)
    requires k <= l <= |actions|
  {
    forall q :: k <= q < l && actions[q].Ping? ==>
      actions[q].now <= start + gap || exists p :: k <= p < q && SoonAfter(actions[p], actions[q], gap)
  }

  predicate SoonAfter(a: Action, b: Action, gap: int) {
    a.Ping? && b.Ping? && b.now <= a.now + gap
  }

  ghost predicate Silent(states: seq<State>, actions: seq<Action>, i: nat, k: nat, l: nat)
    requires k <= l <= |actions| < |states|
  {
    forall q :: k <= q < l ==> !Hears(states[q], actions[q], i) && !Stops(states[q], actions[q], i)
  }

  lemma {:induction false} SilenceKeepsLastHeard(
    states: seq<State>, actions: seq<Action>, i: nat, k: nat, l: nat)
    requires k <= l <= |actions| < |states| && i < |states[k].table| && Silent(states, actions, i, k, l)
    ensures LastHeard(states, actions, i, k, l) == states[k].table[i].lastActive
    decreases l
  {
    if k < l {
      SilenceKeepsLastHeard(states, actions, i, k, l - 1);
    }
  }

  /** A silent client is given up by a sweep no later than timeout plus gap after its last request, if
      the sweeps go on that long: 90 seconds for sweeps at most 30 seconds apart. */
  lemma SilentClientEvicted(states: seq<State>, actions: seq<Action>, i: nat, k: nat, l: nat, gap: int)
    requires IsRun(states, actions) && k <= l < |states| && i < MAX_CLIENTS && Silent(states, actions, i, k, l)
    requires i < |states[k].table| && states[k].table[i].active
    requires Regular(actions, k, l, states[k].table[i].lastActive, gap)
    requires exists q :: k <= q < l && TooLate(actions[q], states[k].table[i].lastActive)
    ensures TablesFull(states)
    ensures exists q :: k <= q < l && actions[q].Ping? &&
              actions[q].now <= states[k].table[i].lastActive + PING_TIMEOUT + gap &&
              GivenUp(states, i, k, q + 1)
  {
    var heard := states[k].table[i].lastActive;
    var q := FirstLate(actions, k, l, heard);
    SilenceKeepsLastHeard(states, actions, i, k, q);
    EvictedExactly(states, actions, i, k, q + 1);
    assert TooLate(actions[q], LastHeard(states, actions, i, k, q));
  }

  lemma {:induction false} FirstLate(actions: seq<Action>, k: nat, l: nat, heard: int) returns (q: nat)
    requires k <= l <= |actions| && exists q :: k <= q < l && TooLate(actions[q], heard)
    ensures k <= q < l && TooLate(actions[q], heard) && forall p :: k <= p < q ==> !TooLate(actions[p], heard)
    decreases l
  {
    q :| k <= q < l && TooLate(actions[q], heard);
    if p :| k <= p < q && TooLate(actions[p], heard) {
      q := FirstLate(actions, k, q, heard);
    }
  }

  // ----------------------------------------------------------- talking clients

  /** A client heard of after the sweep two rounds back survives this sweep, if two rounds take no
      longer than the timeout: one unanswered ping is forgiven. */
  lemma OnePingForgiven(states: seq<State>, actions: seq<Action>, i: nat, twoBack: nat, h: nat, q: nat)
    requires IsRun(states, actions) && twoBack < h < q < |actions| && i < MAX_CLIENTS
    requires actions[twoBack].Ping? && Hears(states[h], actions[h], i) && actions[q].Ping?
    requires actions[q].now - actions[twoBack].now <= PING_TIMEOUT
    requires forall p :: twoBack < p < q && actions[p].Proceed? ==> actions[p].now >= actions[twoBack].now
    requires NeverStops(states, actions, i, h, q)
    ensures TablesFull(states)
    ensures StaysActive(states, i, h, q) ==> states[q + 1].table[i].active
  {
    RunTables(states, actions);
    if StaysActive(states, i, h, q) {
      TimeIsLastHeard(states, actions, i, h, q);
      HeardSince(states, actions, i, h, q, actions[twoBack].now);
      RunInv(states, actions, q);
      SlotStep(states[q], actions[q], states[q + 1], i);
    }
  }

  lemma {:induction false} HeardSince(
    states: seq<State>, actions: seq<Action>, i: nat, h: nat, q: nat, since: int)
    requires h < q <= |actions| < |states| && i < |states[h].table| && Hears(states[h], actions[h], i)
    requires forall p :: h <= p < q && actions[p].Proceed? ==> actions[p].now >= since
    ensures LastHeard(states, actions, i, h, q) >= since
    decreases q
  {
    if !Hears(states[q - 1], actions[q - 1], i) {
      HeardSince(states, actions, i, h, q - 1, since);
    }
  }

  /** While a request is looked up, no earlier slot in use has its sender's address. */
  predicate LookedUpFirst(s: State) {
    s.main.MLookedUp? && s.main.idx != -1 ==>
      forall j :: 0 <= j < s.main.idx && j < |s.table| ==> !(s.table[j].active && s.table[j].addr == s.main.addr)
  }

  lemma {:induction false} AlwaysLookedUpFirst(states: seq<State>, actions: seq<Action>, k: nat)
    requires IsRun(states, actions) && k < |states|
    ensures LookedUpFirst(states[k])
  {
    if k > 0 {
      AlwaysLookedUpFirst(states, actions, k - 1);
      RunInv(states, actions, k - 1);
    }
  }

  /** A client that has registered twice from one address is heard only in its first slot: however much
      it talks, the first sweep that comes late for the second slot gives that one up. */
  lemma SecondSlotStarves(states: seq<State>, actions: seq<Action>, i: nat, j: nat, k: nat, l: nat)
    requires IsRun(states, actions) && k <= l < |actions| && i < j < MAX_CLIENTS
    requires forall q :: k <= q <= l ==>
               |states[q].table| == MAX_CLIENTS && states[q].table[i].active && states[q].table[j].active
               && states[q].table[i].addr == states[q].table[j].addr
    requires TooLate(actions[l], states[k].table[j].lastActive)
    ensures |states[l + 1].table| == MAX_CLIENTS && !states[l + 1].table[j].active
  {
    forall q | k <= q < l
      ensures !Hears(states[q], actions[q], j)
    {
      AlwaysLookedUpFirst(states, actions, q);
      RunInv(states, actions, q);
    }
    RunInv(states, actions, l);
    SecondSlotUnheard(states, actions, j, k, l);
    SlotStep(states[l], actions[l], states[l + 1], j);
  }

  lemma {:induction false} SecondSlotUnheard(states: seq<State>, actions: seq<Action>, j: nat, k: nat, l: nat)
    requires IsRun(states, actions) && k <= l < |states| && j < MAX_CLIENTS
    requires forall q :: k <= q <= l ==> |states[q].table| == MAX_CLIENTS && states[q].table[j].active
    requires forall q :: k <= q < l ==> !Hears(states[q], actions[q], j)
    ensures states[l].table[j].lastActive == states[k].table[j].lastActive
  {
    if k < l {
      SecondSlotUnheard(states, actions, j, k, l - 1);
      RunInv(states, actions, l - 1);
      assert Step(states[l - 1], actions[l - 1], states[l]);
      SlotStep(states[l - 1], actions[l - 1], states[l], j);
    }
  }
}
