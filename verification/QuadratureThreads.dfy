/** The threads of Lab 9: each stores its piece and then raises its ready flag; main polls the
    flags without any lock and adds the pieces up. */
module QuadratureThreads {
  import Sequences
  import opened Quadrature
  import opened QuadratureBounds

  datatype WorkerPc =
    | WNotCreated
    | WComputing
    | WStoring(value: real)   // calculate_integral has returned
    | WFlagging               // result stored
    | WDone

  datatype MainPc =
    | MCreating(i: nat)
    | MPolling(i: nat)
    | MAdding(i: nat, total: real)
    | MPrinted(total: real)

  datatype State = State(results: seq<real>, ready: seq<bool>, workers: seq<WorkerPc>, main: MainPc)

  datatype Action = Worker(i: nat) | Main

  predicate Sized(s: State, k: nat) {
    |s.results| == |s.ready| == |s.workers| == k
  }

  function WorkerStep(s: State, k: nat, dx: real, i: nat): State
    requires dx > 0.0 && i < k && Sized(s, k)
  {
    match s.workers[i]
    case WComputing => s.(workers := s.workers[i := WStoring(Piece(F, i, k, dx))])
    case WStoring(value) => s.(results := s.results[i := value], workers := s.workers[i := WFlagging])
    case WFlagging => s.(ready := s.ready[i := true], workers := s.workers[i := WDone])
    case _ => s
  }

  function MainStep(s: State, k: nat): State
    requires Sized(s, k)
  {
    match s.main
    case MCreating(i) =>
      if i < k then s.(workers := s.workers[i := WComputing], main := MCreating(i + 1)) else s.(main := MPolling(0))
    case MPolling(i) =>
      s.(main := if i >= k then MAdding(0, 0.0) else if s.ready[i] then MPolling(i + 1) else MPolling(0))
    case MAdding(i, total) =>
      s.(main := if i < k then MAdding(i + 1, total + s.results[i]) else MPrinted(total))
    case MPrinted(_) => s
  }

  ghost predicate Step(s: State, a: Action, t: State, k: nat, dx: real)
    requires dx > 0.0 && Sized(s, k)
  {
    match a
    case Worker(i) => i < k && !s.workers[i].WNotCreated? && !s.workers[i].WDone? && t == WorkerStep(s, k, dx, i)
    case Main => !s.main.MPrinted? && t == MainStep(s, k)
  }

  /** After main has cleared the flags; the results array holds anything. */
  ghost predicate Initial(s: State, k: nat) {
    Sized(s, k) && s.ready == seq(k, _ => false) && s.workers == seq(k, _ => WNotCreated) && s.main == MCreating(0)
  }

  ghost predicate IsRun(k: nat, dx: real, states: seq<State>, actions: seq<Action>)
    requires dx > 0.0
  {
    && |states| == |actions| + 1
    && (forall n :: 0 <= n < |states| ==> Sized(states[n], k))
    && Initial(states[0], k)
    && forall n :: 0 <= n < |actions| ==> Step(states[n], actions[n], states[n + 1], k, dx)
  }

  predicate WorkerOk(s: State, k: nat, dx: real, i: nat)
    requires dx > 0.0 && Sized(s, k) && i < k
  {
    match s.workers[i]
    case WStoring(value) => value == Piece(F, i, k, dx) && !s.ready[i]
    case WFlagging => s.results[i] == Piece(F, i, k, dx) && !s.ready[i]
    case WDone => s.results[i] == Piece(F, i, k, dx) && s.ready[i]
    case _ => !s.ready[i]
  }

  predicate Inv(s: State, k: nat, dx: real)
    requires k > 0 && dx > 0.0 && Sized(s, k)
  {
    && (forall i :: 0 <= i < k ==> WorkerOk(s, k, dx, i))
    && match s.main
       case MCreating(i) => i <= k && forall j :: i <= j < k ==> s.workers[j] == WNotCreated
       case MPolling(i) => i <= k && forall j :: 0 <= j < i ==> s.ready[j]
       case MAdding(i, total) => i <= k && (forall j :: 0 <= j < k ==> s.ready[j]) && total == Pieces(F, i, k, dx)
       case MPrinted(total) => total == Total(k, dx)
  }

  lemma StepKeepsInv(s: State, a: Action, t: State, k: nat, dx: real)
    requires k > 0 && dx > 0.0 && Sized(s, k) && Inv(s, k, dx) && Step(s, a, t, k, dx)
    ensures Sized(t, k) && Inv(t, k, dx)
  {
    hide F;
    forall i | 0 <= i < k
      ensures WorkerOk(t, k, dx, i)
    {
      assert WorkerOk(s, k, dx, i);
    }
    if s.main.MAdding? && s.main.i < k {
      assert WorkerOk(s, k, dx, s.main.i);
    }
  }

  lemma {:induction false} RunInv(k: nat, dx: real, states: seq<State>, actions: seq<Action>, n: nat)
    requires k > 0 && dx > 0.0 && IsRun(k, dx, states, actions) && n < |states|
    ensures Inv(states[n], k, dx)
  {
    hide F;
    if n > 0 {
      RunInv(k, dx, states, actions, n - 1);
      StepKeepsInv(states[n - 1], actions[n - 1], states[n], k, dx);
    }
  }

  /** In every interleaving the number printed is the sum of all finished pieces, and so near
      the integral. */
  lemma PrintedIsTotal(k: nat, dx: real, states: seq<State>, actions: seq<Action>, n: nat, p: seq<real>)
    requires k > 0 && dx > 0.0 && IsRun(k, dx, states, actions) && n < |states| && states[n].main.MPrinted?
    requires PartitionOf(p, 0.0, 1.0)
    ensures states[n].main.total == Total(k, dx)
    ensures Lower(F, p) <= states[n].main.total <= Upper(F, p) + 4.0 * (k as real * dx)
    ensures 3.03 < states[n].main.total < 3.25 + 4.0 * (k as real * dx)
  {
    hide F;
    RunInv(k, dx, states, actions, n);
    TotalBetweenSums(k, dx, p);
    TotalInNumbers(k, dx);
  }

  // --------------------------------------------------------------- progress

  /** The steps a worker has left. */
  function WorkerWeight(w: WorkerPc): nat {
    match w
    case WNotCreated => 3
    case WComputing => 3
    case WStoring(_) => 2
    case WFlagging => 1
    case WDone => 0
  }

  /** The steps main has left if it finds every flag up. */
  function MainWeight(main: MainPc, k: nat): int {
    match main
    case MCreating(i) => 3 * k + 3 - i
    case MPolling(i) => 2 * k + 2 - i
    case MAdding(i, _) => k + 1 - i
    case MPrinted(_) => 0
  }

  function Rank(s: State, k: nat): int {
    Sequences.Total(s.workers, WorkerWeight) + MainWeight(s.main, k)
  }

  /** Main has created the workers it has come by. */
  predicate Created(s: State, k: nat)
    requires Sized(s, k)
  {
    forall i :: 0 <= i < k && (s.main.MCreating? ==> i < s.main.i) ==> !s.workers[i].WNotCreated?
  }

  lemma {:induction false} RunCreated(k: nat, dx: real, states: seq<State>, actions: seq<Action>, n: nat)
    requires k > 0 && dx > 0.0 && IsRun(k, dx, states, actions) && n < |states|
    ensures Created(states[n], k)
  {
    hide F;
    if n > 0 {
      RunCreated(k, dx, states, actions, n - 1);
      assert Step(states[n - 1], actions[n - 1], states[n], k, dx);
    }
  }

  /** Until main has printed, somebody can take a step that brings the end nearer. */
  lemma SomeoneCanMove(s: State, k: nat, dx: real) returns (a: Action, t: State)
    requires k > 0 && dx > 0.0 && Sized(s, k) && Inv(s, k, dx) && Created(s, k) && !s.main.MPrinted?
    ensures Step(s, a, t, k, dx) && Sized(t, k) && 0 <= Rank(t, k) < Rank(s, k)
  {
    hide F;
    if i :| 0 <= i < k && !s.main.MCreating? && !s.workers[i].WDone? {
      a, t := Worker(i), WorkerStep(s, k, dx, i);
      Sequences.TotalUpdate(s.workers, WorkerWeight, i, t.workers[i]);
    } else {
      a, t := Main, MainStep(s, k);
      if s.main.MCreating? && s.main.i < k {
        Sequences.TotalUpdate(s.workers, WorkerWeight, s.main.i, WComputing);
      } else if s.main.MPolling? && s.main.i < k {
        assert WorkerOk(s, k, dx, s.main.i) && s.workers[s.main.i].WDone?;
      }
    }
  }

  /** No flag is missed for good: every run can be continued to one that prints, by steps whose number
      depends on the number of threads alone. */
  lemma {:induction false} CanPrint(k: nat, dx: real, states: seq<State>, actions: seq<Action>)
    returns (longer: seq<State>, more: seq<Action>)
    requires k > 0 && dx > 0.0 && IsRun(k, dx, states, actions)
    ensures IsRun(k, dx, longer, more) && actions <= more && states <= longer
    ensures longer[|more|].main == MPrinted(Total(k, dx)) && |more| <= |actions| + 6 * k + 3
  {
    var s := states[|actions|];
    Sequences.TotalBound(s.workers, WorkerWeight, 3);
    RunInv(k, dx, states, actions, |actions|);
    longer, more := Finish(k, dx, states, actions);
  }

  lemma {:induction false} Finish(k: nat, dx: real, states: seq<State>, actions: seq<Action>)
    returns (longer: seq<State>, more: seq<Action>)
    requires k > 0 && dx > 0.0 && IsRun(k, dx, states, actions)
    ensures IsRun(k, dx, longer, more) && actions <= more && states <= longer
    ensures longer[|more|].main == MPrinted(Total(k, dx))
    ensures Rank(states[|actions|], k) >= 0 && |more| <= |actions| + Rank(states[|actions|], k)
    decreases Rank(states[|actions|], k)
  {
    hide F;
    hide Rank;
    var s := states[|actions|];
    RunInv(k, dx, states, actions, |actions|);
    RunCreated(k, dx, states, actions, |actions|);
    RankNotNegative(s, k, dx);
    if s.main.MPrinted? {
      longer, more := states, actions;
    } else {
      var a, t := SomeoneCanMove(s, k, dx);
      longer, more := Finish(k, dx, states + [t], actions + [a]);
    }
  }

  lemma RankNotNegative(s: State, k: nat, dx: real)
    requires k > 0 && dx > 0.0 && Sized(s, k) && Inv(s, k, dx)
    ensures Rank(s, k) >= 0
  {
    hide F;
  }

  /** The arrays of the program, written in place. */
  class Board {
    const results: array<real>
    const ready: array<bool>

    constructor (k: nat)
      ensures fresh(results) && fresh(ready) && results.Length == ready.Length == k
      ensures forall i :: 0 <= i < k ==> !ready[i]
    {
      results := new real[k];
      ready := new bool[k](_ => false);
    }

    /** The body of a worker thread: result first, flag second. */
    method ThreadFunction(i: nat, a: real, b: real, dx: real)
      requires i < results.Length == ready.Length && dx > 0.0
      modifies results, ready
      ensures results[..] == old(results[..])[i := StepSum(F, a, b, dx)]
      ensures ready[..] == old(ready[..])[i := true]
    {
      var value := CalculateIntegral(a, b, dx);
      results[i] := value;
      ready[i] := true;
    }

    /** One pass over the flags. */
    method Poll() returns (allReady: bool)
      ensures allReady <==> forall i :: 0 <= i < ready.Length ==> ready[i]
    {
      for i := 0 to ready.Length
        invariant forall j :: 0 <= j < i ==> ready[j]
      {
        if !ready[i] {
          return false;
        }
      }
      return true;
    }

    method AddUp(dx: real) returns (total: real)
      requires dx > 0.0 && results.Length > 0
      requires forall i :: 0 <= i < results.Length ==> results[i] == Piece(F, i, results.Length, dx)
      ensures total == Total(results.Length, dx)
    {
      hide F;
      total := 0.0;
      for i := 0 to results.Length
        invariant total == Pieces(F, i, results.Length, dx)
      {
        total := total + results[i];
      }
    }
  }
}
