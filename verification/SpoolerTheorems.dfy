/** What holds of every run of the spooler, for any numbers of users, printers and slots. */
module SpoolerTheorems {
  import opened Sequences
  import opened SpoolerModel
  import opened SpoolerInvariant

  // ---------------------------------------------------- refinement of a queue

  /** The user's next step advances tail. */
  predicate Adds(s: State, a: Action) {
    a.User? && a.i < |s.users| && s.users[a.i].UCopy? && s.users[a.i].copied >= |s.users[a.i].job|
  }

  /** The printer's next step advances head. */
  predicate Retires(s: State, a: Action) {
    a.Printer? && a.j < |s.printers| && s.printers[a.j].RAdvance?
  }

  ghost predicate WellFormed(s: State) {
    InBounds(s.ring) && Live(s) >= 0
  }

  /** Every step is an insertion of the user's own job at the back, a removal of the oldest job,
      or leaves the queue alone. */
  lemma StepRefinesQueue(s: State, z: Size, a: Action, t: State)
    requires Inv(s, z) && Step(s, a, t, z.length)
    ensures WellFormed(s) && WellFormed(t) && (Retires(s, a) ==> Queue(s) != [])
    ensures Queue(t) ==
      if Adds(s, a) then Queue(s) + [s.users[a.i].job]
      else if Retires(s, a) then Queue(s)[1..]
      else Queue(s)
    ensures t.retired == if Retires(s, a) then s.retired + [Queue(s)[0]] else s.retired
  {
    StepKeepsInv(s, z, a, t);
    match a
    case User(i, job) =>
      if s.users[i].UCopy? {
        if s.users[i].copied < |s.users[i].job| {
          CopyKeepsInv(s, z, i);
        } else {
          AddKeepsInv(s, z, i);
        }
      } else {
        UserCounts(s.users, i, t.users[i]);
      }
    case Printer(j) =>
      if s.printers[j].RAdvance? {
        RetireKeepsInv(s, z, j);
      } else {
        PrinterCounts(s.printers, j, t.printers[j]);
      }
  }

  lemma RunRefinesQueue(z: Size, states: seq<State>, actions: seq<Action>, k: nat)
    requires z.capacity > 0 && IsRun(z, states, actions) && k < |actions|
    ensures var s, a, t := states[k], actions[k], states[k + 1];
      && WellFormed(s) && WellFormed(t) && (Retires(s, a) ==> Queue(s) != [])
      && Queue(t) == (if Adds(s, a) then Queue(s) + [s.users[a.i].job]
                      else if Retires(s, a) then Queue(s)[1..]
                      else Queue(s))
      && t.retired == (if Retires(s, a) then s.retired + [Queue(s)[0]] else s.retired)
  {
    RunInv(z, states, actions, k);
    StepRefinesQueue(states[k], z, actions[k], states[k + 1]);
  }

  /** First in, first out: what was added is what was retired followed by what is in the ring. */
  lemma FirstInFirstOut(z: Size, states: seq<State>, actions: seq<Action>, k: nat)
    requires z.capacity > 0 && IsRun(z, states, actions) && k < |states|
    ensures WellFormed(states[k]) && |Queue(states[k])| <= z.capacity
    ensures states[k].added == states[k].retired + Queue(states[k])
  {
    RunInv(z, states, actions, k);
  }

  // ------------------------------------------------- what users hand over

  /** The jobs that user i generates in the first k steps. */
  function Generated(states: seq<State>, actions: seq<Action>, k: nat, i: nat): seq<Job>
    requires k <= |actions| <= |states|
  {
    if k == 0 then []
    else
      var s, a := states[k - 1], actions[k - 1];
      Generated(states, actions, k - 1, i) +
      if a.User? && a.i == i && i < |s.users| && s.users[i].UGenerate? then [a.job] else []
  }

  /** The jobs that the steps of user i among the first k add to the queue. */
  function Published(states: seq<State>, actions: seq<Action>, k: nat, i: nat): seq<Job>
    requires k <= |actions| < |states|
  {
    if k == 0 then []
    else
      var s, a, t := states[k - 1], actions[k - 1], states[k];
      Published(states, actions, k - 1, i) +
      if a.User? && a.i == i && s.added <= t.added then t.added[|s.added|..] else []
  }

  /** The job that a user has not added yet. */
  function Pending(u: UserPc): seq<Job> {
    match u
    case UWaitEmpty(job) => [job]
    case UWaitMutex(job) => [job]
    case UCopy(job, _) => [job]
    case _ => []
  }

  lemma StepAdds(s: State, z: Size, a: Action, t: State)
    requires Inv(s, z) && Step(s, a, t, z.length)
    ensures t.added == s.added + if Adds(s, a) then [s.users[a.i].job] else []
  {
    StepKeepsInv(s, z, a, t);
    StepRefinesQueue(s, z, a, t);
  }

  lemma StepKeepsJobs(s: State, z: Size, a: Action, t: State, i: nat)
    requires Inv(s, z) && Step(s, a, t, z.length) && i < z.users
    ensures |t.users| == z.users
    ensures Pending(s.users[i]) + (if a.User? && a.i == i && s.users[i].UGenerate? then [a.job] else []) ==
      (if a.User? && a.i == i && Adds(s, a) then [s.users[i].job] else []) + Pending(t.users[i])
  {
    StepKeepsInv(s, z, a, t);
  }

  /** Every job a user generates is added exactly once, as it was generated and in its user's order,
      but for the one at hand. */
  lemma {:induction false} JobsInOrder(z: Size, states: seq<State>, actions: seq<Action>, k: nat, i: nat)
    requires z.capacity > 0 && IsRun(z, states, actions) && k < |states| && i < z.users
    ensures |states[k].users| == z.users
    ensures Generated(states, actions, k, i) == Published(states, actions, k, i) + Pending(states[k].users[i])
  {
    hide Inv;
    hide Step;
    hide Pending;
    if k == 0 {
      NothingPending(z, states[0], i);
    } else {
      JobsInOrder(z, states, actions, k - 1, i);
      RunInv(z, states, actions, k - 1);
      StepAdds(states[k - 1], z, actions[k - 1], states[k]);
      StepKeepsJobs(states[k - 1], z, actions[k - 1], states[k], i);
      var s, a, t := states[k - 1], actions[k - 1], states[k];
      var before := Published(states, actions, k - 1, i);
      var more := if a.User? && a.i == i then t.added[|s.added|..] else [];
      assert Published(states, actions, k, i) == before + more;
      assert before + (more + Pending(t.users[i])) == before + more + Pending(t.users[i]);
    }
  }

  lemma NothingPending(z: Size, s: State, i: nat)
    requires Initial(s, z.capacity, z.length, z.users, z.printers) && i < z.users
    ensures |s.users| == z.users && Pending(s.users[i]) == []
  {
  }

  /** Equal indices mean an empty or a full ring, and only the tokens tell which. */
  lemma EqualIndicesAmbiguous(z: Size, states: seq<State>, actions: seq<Action>, k: nat)
    requires z.capacity > 0 && IsRun(z, states, actions) && k < |states|
    ensures states[k].ring.head == states[k].ring.tail <==> Live(states[k]) in {0, z.capacity}
    ensures Live(states[k]) == |states[k].added| - |states[k].retired|
  {
    RunInv(z, states, actions, k);
    SlotValue(states[k].ring.head, Live(states[k]), z.capacity);
  }

  /** Tokens are conserved, at most one process is inside, and a user that copies writes to a
      slot outside the queue. */
  lemma TokensConserved(z: Size, states: seq<State>, actions: seq<Action>, k: nat)
    requires z.capacity > 0 && IsRun(z, states, actions) && k < |states|
    ensures var s := states[k];
      && s.empty + Count(s.users, HoldsEmpty) + Live(s) + Count(s.printers, Returning) == z.capacity
      && s.mutex + Count(s.users, Inside) + Count(s.printers, PrinterInside) == 1
    ensures forall i, q :: 0 <= i < |states[k].users| && states[k].users[i].UCopy? && 0 <= q < Live(states[k]) ==>
      Slot(states[k].ring.head, q, z.capacity) != states[k].ring.tail
  {
    RunInv(z, states, actions, k);
    var s := states[k];
    forall i, q | 0 <= i < |s.users| && s.users[i].UCopy? && 0 <= q < Live(s)
      ensures Slot(s.ring.head, q, z.capacity) != s.ring.tail
    {
      RoomWhileCopying(s, z, i);
      TailSlotFree(s, z, q);
    }
  }

  // ----------------------------------------------------------------- progress

  function UserWeight(length: nat): UserPc -> nat {
    (u: UserPc) =>
      match u
      case UWaitEmpty(_) => 0
      case UGenerate => 1
      case USignalFull => 2
      case USignalMutex => 3
      case UCopy(_, k) => if k < length then 4 + length - k else 4
      case UWaitMutex(_) => length + 5
  }

  function PrinterWeight(p: PrinterPc): nat {
    match p
    case RAdvance => 0
    case RWaitMutex => 1
    case RWaitFull => 2
    case RSignalEmpty => 3
    case RSignalMutex => 4
  }

  /** No job is in the ring and no user is on the way to put one there. */
  predicate Drained(s: State) {
    Live(s) == 0 && Count(s.users, HoldsEmpty) == 0
  }

  function Rank(s: State, length: nat): nat {
    Total(s.users, UserWeight(length)) + Total(s.printers, PrinterWeight) + if Drained(s) then length + 6 else 0
  }

  lemma RankBound(s: State, z: Size)
    requires Inv(s, z)
    ensures Rank(s, z.length) <= (z.length + 5) * z.users + 4 * z.printers + z.length + 6
  {
    TotalBound(s.users, UserWeight(z.length), z.length + 5);
    TotalBound(s.printers, PrinterWeight, 4);
  }

  lemma UserUsesRank(s: State, z: Size, i: nat, job: Job)
    requires Inv(s, z) && Enabled(s, User(i, job), z.length) && Safe(s, User(i, job))
    requires s.users[i].UWaitEmpty? ==> Drained(s)
    ensures Rank(UserStep(s, i, job), z.length) < Rank(s, z.length)
  {
    var t := UserStep(s, i, job);
    assert UserOk(s, s.users[i], z.length);
    TotalUpdate(s.users, UserWeight(z.length), i, t.users[i]);
    UserCounts(s.users, i, t.users[i]);
    if s.users[i].UCopy? {
      CountPositive(s.users, HoldsEmpty, i);
    }
  }

  lemma PrinterUsesRank(s: State, z: Size, j: nat)
    requires Inv(s, z) && Enabled(s, Printer(j), z.length) && !s.printers[j].RAdvance?
    ensures Rank(PrinterStep(s, j), z.length) < Rank(s, z.length)
  {
    var t := PrinterStep(s, j);
    TotalUpdate(s.printers, PrinterWeight, j, t.printers[j]);
    PrinterCounts(s.printers, j, t.printers[j]);
  }

  predicate UserIdle(u: UserPc) { u.UWaitEmpty? }

  predicate PrinterIdle(p: PrinterPc) { p.RWaitFull? }

  /** The step leads towards the retirement of a job. */
  predicate Useful(s: State, z: Size, a: Action)
    requires Inv(s, z)
  {
    && Enabled(s, a, z.length)
    && (a.User? && s.users[a.i].UWaitEmpty? ==> Drained(s))
  }

  function AnyJob(length: nat): (job: Job)
    ensures |job| == length
  {
    seq(length, _ => 'A')
  }

  /** Deadlock freedom: whatever the state, some process can take a useful step. */
  lemma SomeoneCanMove(s: State, z: Size) returns (a: Action)
    requires Inv(s, z) && z.capacity > 0 && z.users > 0 && z.printers > 0
    ensures Useful(s, z, a)
  {
    var job := AnyJob(z.length);
    if i :| 0 <= i < |s.users| && Inside(s.users[i]) {
      a := User(i, job);
    } else if j :| 0 <= j < |s.printers| && PrinterInside(s.printers[j]) {
      a := Printer(j);
    } else {
      NobodyInside(s);
      if i :| 0 <= i < |s.users| && !UserIdle(s.users[i]) {
        a := User(i, job);
      } else if j :| 0 <= j < |s.printers| && !PrinterIdle(s.printers[j]) {
        a := Printer(j);
      } else {
        EveryoneIdle(s);
        a := if s.full > 0 then Printer(0) else User(0, job);
      }
    }
  }

  lemma NobodyInside(s: State)
    requires Tokens(s)
    requires forall i :: 0 <= i < |s.users| ==> !Inside(s.users[i])
    requires forall j :: 0 <= j < |s.printers| ==> !PrinterInside(s.printers[j])
    ensures s.mutex == 1
  {
    CountNone(s.users, Inside);
    CountNone(s.printers, PrinterInside);
  }

  lemma EveryoneIdle(s: State)
    requires Tokens(s)
    requires forall i :: 0 <= i < |s.users| ==> UserIdle(s.users[i])
    requires forall j :: 0 <= j < |s.printers| ==> PrinterIdle(s.printers[j])
    ensures Live(s) == s.full && s.empty + s.full == |s.ring.jobs| && Count(s.users, HoldsEmpty) == 0
  {
    CountNone(s.users, HoldsEmpty);
    CountNone(s.users, Unpublished);
    CountNone(s.printers, HoldsFull);
    CountNone(s.printers, Returning);
  }

  /** From any reachable state some continuation of at most Rank + 1 steps retires one more job:
      the oldest one in the ring, or the first one added if the ring is empty. */
  lemma {:induction false} NextRetirement(z: Size, states: seq<State>, actions: seq<Action>)
    returns (longer: seq<State>, more: seq<Action>)
    requires z.capacity > 0 && z.users > 0 && z.printers > 0 && IsRun(z, states, actions)
    ensures IsRun(z, longer, more) && actions <= more && states <= longer
    ensures |more| <= |actions| + Rank(states[|actions|], z.length) + 1
    ensures |longer[|more|].retired| == |states[|actions|].retired| + 1
    decreases Rank(states[|actions|], z.length)
  {
    var s := states[|actions|];
    RunInv(z, states, actions, |actions|);
    var a := SomeoneCanMove(s, z);
    StepKeepsInv(s, z, a, if Safe(s, a) then Apply(s, a, z.length) else s);
    var t := Apply(s, a, z.length);
    longer, more := states + [t], actions + [a];
    StepRefinesQueue(s, z, a, t);
    if !Retires(s, a) {
      if a.User? {
        UserUsesRank(s, z, a.i, a.job);
      } else {
        PrinterUsesRank(s, z, a.j);
      }
      longer, more := NextRetirement(z, longer, more);
    }
  }

  /** Neither deadlock nor starvation of the whole system: a job can always be retired within a
      number of steps that depends only on the size of the system. */
  lemma AlwaysProgress(z: Size, states: seq<State>, actions: seq<Action>)
    requires z.capacity > 0 && z.users > 0 && z.printers > 0 && IsRun(z, states, actions)
    ensures exists longer: seq<State>, more: seq<Action> ::
              && IsRun(z, longer, more) && actions <= more && states <= longer
              && |more| <= |actions| + (z.length + 5) * z.users + 4 * z.printers + z.length + 7
              && |longer[|more|].retired| == |states[|actions|].retired| + 1
  {
    RunInv(z, states, actions, |actions|);
    RankBound(states[|actions|], z);
    var longer, more := NextRetirement(z, states, actions);
  }

  // ------------------------------------------------------- every schedule

  /** Empty tokens to be had, now or soon. */
  function Tickets(s: State): int {
    s.empty + Count(s.printers, Returning)
  }

  /** What empty tokens allow for. */
  function Worth(length: nat, tickets: int): int {
    (length + 6) * tickets
  }

  lemma WorthNext(length: nat, tickets: int)
    ensures Worth(length, tickets + 1) == Worth(length, tickets) + length + 6
  {
  }

  /** The steps that can still be taken before another job is retired. */
  function Energy(s: State, length: nat): int {
    Total(s.users, UserWeight(length)) + Total(s.printers, PrinterWeight) + Worth(length, Tickets(s))
  }

  lemma UserUsesEnergy(s: State, z: Size, i: nat, job: Job)
    requires Inv(s, z) && Enabled(s, User(i, job), z.length) && Safe(s, User(i, job))
    ensures Energy(UserStep(s, i, job), z.length) < Energy(s, z.length)
  {
    hide Worth;
    var t := UserStep(s, i, job);
    assert UserOk(s, s.users[i], z.length);
    TotalUpdate(s.users, UserWeight(z.length), i, t.users[i]);
    WorthNext(z.length, Tickets(t));
    hide Inv;
    assert Tickets(t) == Tickets(s) - if s.users[i].UWaitEmpty? then 1 else 0;
  }

  lemma PrinterUsesEnergy(s: State, z: Size, j: nat)
    requires Inv(s, z) && Enabled(s, Printer(j), z.length)
    ensures Energy(PrinterStep(s, j), z.length) <
            Energy(s, z.length) + if Retires(s, Printer(j)) then z.length + 11 else 0
  {
    hide Worth;
    var t := PrinterStep(s, j);
    TotalUpdate(s.printers, PrinterWeight, j, t.printers[j]);
    CountUpdate(s.printers, Returning, j, t.printers[j]);
    WorthNext(z.length, Tickets(s));
    hide Inv;
    assert Tickets(t) == Tickets(s) + if Retires(s, Printer(j)) then 1 else 0;
  }

  /** Every step uses up energy; only the retirement of a job brings some. */
  lemma StepUsesEnergy(s: State, z: Size, a: Action, t: State)
    requires Inv(s, z) && Step(s, a, t, z.length)
    ensures Energy(t, z.length) < Energy(s, z.length) + if Retires(s, a) then z.length + 11 else 0
    ensures |t.retired| == |s.retired| + if Retires(s, a) then 1 else 0
  {
    StepKeepsInv(s, z, a, t);
    hide Energy;
    match a
    case User(i, job) => UserUsesEnergy(s, z, i, job);
    case Printer(j) => PrinterUsesEnergy(s, z, j);
  }

  /** What the start and the jobs retired so far have provided. */
  function Budget(z: Size, retired: nat): int {
    (z.length + 6) * z.capacity + z.users + 2 * z.printers + (z.length + 11) * retired
  }

  lemma {:induction false} EnergyUsed(z: Size, states: seq<State>, actions: seq<Action>, k: nat)
    requires z.capacity > 0 && IsRun(z, states, actions) && k < |states|
    ensures k + Energy(states[k], z.length) <= Budget(z, |states[k].retired|)
  {
    if k == 0 {
      InitialEnergy(states[0], z);
    } else {
      EnergyUsed(z, states, actions, k - 1);
      RunInv(z, states, actions, k - 1);
      assert Step(states[k - 1], actions[k - 1], states[k], z.length);
      hide Step;
      hide Inv;
      hide Energy;
      StepUsesEnergy(states[k - 1], z, actions[k - 1], states[k]);
      BudgetNext(z, |states[k - 1].retired|);
      hide Budget;
    }
  }

  lemma BudgetNext(z: Size, retired: nat)
    ensures Budget(z, retired + 1) == Budget(z, retired) + z.length + 11
  {
  }

  lemma InitialEnergy(s: State, z: Size)
    requires Initial(s, z.capacity, z.length, z.users, z.printers)
    ensures Energy(s, z.length) <= Budget(z, |s.retired|)
  {
    TotalBound(s.users, UserWeight(z.length), 1);
    TotalBound(s.printers, PrinterWeight, 2);
    CountConstant(z.printers, RWaitFull, Returning);
    assert Tickets(s) == z.capacity;
  }

  lemma EnergyNotNegative(s: State, z: Size)
    requires Inv(s, z)
    ensures Energy(s, z.length) >= 0
  {
    assert Tickets(s) >= 0;
    hide Inv;
    assert Worth(z.length, Tickets(s)) >= 0;
  }

  /** No scheduler, however unfair, keeps the system busy without jobs being retired: every run retires
      at least one job in every length + 11 steps, but for an initial stretch. */
  lemma EveryScheduleRetires(z: Size, states: seq<State>, actions: seq<Action>)
    requires z.capacity > 0 && IsRun(z, states, actions)
    ensures |actions| <= (z.length + 6) * z.capacity + z.users + 2 * z.printers
                         + (z.length + 11) * |states[|actions|].retired|
  {
    EnergyUsed(z, states, actions, |actions|);
    RunInv(z, states, actions, |actions|);
    EnergyNotNegative(states[|actions|], z);
    hide Inv;
    hide Energy;
  }

  /** So every job has its turn: once a run is long enough, the job that was added q-th is out. */
  lemma EveryJobRetired(z: Size, states: seq<State>, actions: seq<Action>, q: nat)
    requires z.capacity > 0 && IsRun(z, states, actions) && |actions| > Budget(z, q)
    ensures q < |states[|actions|].retired| && q < |states[|actions|].added|
    ensures states[|actions|].retired[q] == states[|actions|].added[q]
  {
    EveryScheduleRetires(z, states, actions);
    FirstInFirstOut(z, states, actions, |actions|);
    BudgetGrows(z, |states[|actions|].retired|, q);
  }

  lemma BudgetGrows(z: Size, a: nat, b: nat)
    ensures a <= b ==> Budget(z, a) <= Budget(z, b)
  {
    assert a <= b ==> (z.length + 11) * a <= (z.length + 11) * b;
  }
}
