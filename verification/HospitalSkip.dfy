/** What a skipped decrement and an untimely offer can do: the counter drifts, and the hospital hangs
    although everybody has been treated. */
module HospitalSkip {
  import opened Sequences
  import opened HospitalModel
  import opened HospitalInvariant
  import opened HospitalTheorems
  import opened HospitalReach
  import opened HospitalShortage
  import opened HospitalDeadlock
  import opened HospitalFinish
  import opened HospitalLuck
  import opened HospitalHang

  // ------------------------------------------------------------ the drift

  /** After a consultation somebody else sits down before a consulted patient wakes. */
  lemma DecrementSkipped(s: State, i: nat, k: nat, alert: bool) returns (t: State)
    requires InBounds(s.shared) && HasTurn(s, i) && s.patients[i].PWaiting? && s.patients[i].signalled
    requires Walking(s, k) && k != i && s.shared.inHospital == 0 && s.shared.remaining > 0 && s.doctor.DReadRemaining?
    ensures Reaches(s, t, alert) && t.history.missed == s.history.missed + 1
    ensures |t.history.seatedAt| == |s.history.seatedAt|
    ensures t == s.(shared := SitDown(s.shared, k + 1), history := t.history,
                    patients := s.patients[k := PWaiting(0, false)][i := PDone(true)])
  {
    var s1 := SitsDown(s, k, alert);
    var s2 := Apply(s1, Patient(i));
    t := Apply(s2, Patient(i));
    Move(s1, Patient(i), alert);
    Move(s2, Patient(i), alert);
    Chain(s, s1, s2, alert);
    Chain(s, s2, t, alert);
    assert t.patients == s.patients[k := PWaiting(0, false)][i := PDone(true)];
  }

  lemma DriftReachable(n: nat, m: nat) returns (t: State)
    requires n >= 3
    ensures Reaches(Start(n, m), t, true) && t.history.missed == 1 && t.shared.remaining == n
  {
    var s := Start(n, m);
    var s1 := ConsultsTwo(s, 0, 1, 2, true);
    t := DecrementSkipped(s1, 0, 2, true);
    Chain(s, s1, t, true);
  }

  /** After it the counter stands at n although one patient has been treated. */
  lemma CounterDriftHappens(n: nat, m: nat)
    requires n >= 3
    ensures exists states: seq<State>, actions: seq<Action> ::
              IsRun(n, m, states, actions) && NoSpuriousWakeups(states, actions) &&
              states[|actions|].shared.remaining == n && Untreated(states[|actions|]) == n - 1
  {
    var t := DriftReachable(n, m);
    var states, actions := RunReaching(n, m, t, true);
    RunInv(n, m, states, actions, |actions|);
  }

  ghost predicate Drifted(s: State) {
    s.shared.remaining > Untreated(s)
  }

  lemma {:induction false} TwoNeverDrift(n: nat, m: nat, states: seq<State>, actions: seq<Action>, k: nat)
    requires IsRun(n, m, states, actions) && k < |states| && n <= 2
    ensures states[k].history.missed == 0
  {
    if k > 0 {
      TwoNeverDrift(n, m, states, actions, k - 1);
      RunInv(n, m, states, actions, k - 1);
      assert Step(states[k - 1], actions[k - 1], states[k]);
      hide Step;
      hide Inv;
      TwoSkipNothing(states[k - 1], actions[k - 1], states[k]);
    }
  }

  /** Only a consulted patient's decrement can be skipped. */
  lemma TwoSkipNothing(s: State, a: Action, t: State)
    requires Inv(s) && Step(s, a, t) && |s.patients| <= 2
    ensures t.history.missed <= s.history.missed
  {
    if t.history.missed > s.history.missed {
      SkipMeansSomebodySits(s, a, t);
      assert PatientOk(s, a.i);
      hide Step;
      GroupNeedsThree(s.history.groups[s.history.seatedAt[a.i]], |s.patients|);
      assert false;
    }
  }

  /** The counter can drift exactly if there are three patients; no spurious wakeup is needed. */
  lemma DriftsExactly(n: nat, m: nat, alert: bool)
    ensures SomeRunEndsIn(n, m, alert, Drifted) <==> n >= 3
  {
    if n >= 3 {
      CounterDriftHappens(n, m);
    }
    forall states: seq<State>, actions: seq<Action> | IsRun(n, m, states, actions) && Drifted(states[|actions|])
      ensures n >= 3
    {
      RunInv(n, m, states, actions, |actions|);
      if n <= 2 {
        TwoNeverDrift(n, m, states, actions, |actions|);
      }
    }
  }

  // ------------------------------------------------------- the lost decrement

  /** The last but three's decrement is skipped, because the first of those three sits down again. */
  lemma SkipsOneOfFour(s: State, n: nat, m: nat) returns (t: State)
    requires Between(s, n, m, 4) && m > 0 && s.shared.medicine == 0
    ensures Reaches(s, t, false) && t.history.missed == s.history.missed + 1 && |t.history.seatedAt| == n
    ensures t == s.(shared := t.shared, patients := s.patients[0 := PWaiting(0, false)][3 := PDone(true)],
                    history := t.history)
    ensures InBounds(t.shared) && t.shared.slots[0] == 1
    ensures t.shared == s.shared.(inHospital := 1, slots := t.shared.slots, waitingPharmacist := 1)
  {
    var s1 := ConsultsOne(s, 3, 0, 1, 0);
    t := DecrementSkipped(s1, 3, 0, false);
    Chain(s, s1, t, false);
  }

  /** Then the last three are treated together. */
  lemma TreatsTheOthers(s: State, n: nat, m: nat) returns (t: State)
    requires Between(s, n, m, 4) && m > 0 && s.shared.medicine == 0
    ensures Reaches(s, t, false) && t.history.missed == s.history.missed + 1 && Between(t, n, m, 0)
    ensures t.shared.medicine == 0
  {
    var s1 := SkipsOneOfFour(s, n, m);
    var s2 := SitsDown(s1, 1, false);
    var s3 := SitsDown(s2, 2, false);
    var s4 := RestocksOnce(s3, 0, false);
    var s5 := Consults(s4, false);
    t := ThreeGoHome(s5, false);
    Chain(s, s1, s2, false);
    Chain(s, s2, s3, false);
    Chain(s, s3, s4, false);
    Chain(s, s4, s5, false);
    Chain(s, s5, t, false);
    assert t.patients == seq(n, i => PDone(true));
  }

  /** Patients below r walk, those from r on wait, released, or have gone home, as `late` says. */
  function Lineup(n: nat, r: nat, late: seq<PatientPc>): seq<PatientPc> {
    seq(n, i => if 0 <= i < r then PReadRemaining(false) else if r <= i < r + |late| then late[i - r] else PDone(true))
  }

  /** Of the first group's two, one is late: somebody sits again when it wakes. */
  lemma LateFromFirstGroup(s: State, n: nat, m: nat, r: nat) returns (t: State)
    requires Between(s, n, m, r) && r >= 5 && s.shared.medicine == 6
    ensures Reaches(s, t, true) && t.history.missed == s.history.missed + 1 && |t.history.seatedAt| == n
    ensures t == s.(shared := t.shared, history := t.history, patients := t.patients)
    ensures InBounds(t.shared)
    ensures t.shared == s.shared.(medicine := 3, inHospital := 1, slots := t.shared.slots)
    ensures t.patients == Lineup(n, r - 3, [PWaiting(0, false), PWaiting(1, true)])
  {
    var s1 := ConsultsTwo(s, r - 1, r - 2, 0, true);
    t := DecrementSkipped(s1, r - 1, r - 3, true);
    Chain(s, s1, t, true);
    assert t.patients == Lineup(n, r - 3, [PWaiting(0, false), PWaiting(1, true)]);
  }

  /** The second group is made of whoever sits and two more. */
  lemma SecondGroup(s: State, n: nat, m: nat, r: nat) returns (t: State)
    requires r >= 5 && n >= r && InBounds(s.shared) && s.doctor.DReadRemaining? && |s.history.seatedAt| == n
    requires s.shared.inHospital == 1 && s.shared.medicine == 3 && s.shared.remaining > 0
    requires s.patients == Lineup(n, r - 3, [PWaiting(0, false), PWaiting(1, true)])
    ensures Reaches(s, t, true) && SameMisses(s, t) && InBounds(t.shared)
    ensures t == s.(shared := t.shared, history := t.history, patients := t.patients)
    ensures t.shared == s.shared.(medicine := 0, inHospital := 0, slots := t.shared.slots, doctorSleeping := true)
    ensures t.patients == Lineup(n, r - 4, [PWaiting(1, true), PWaiting(0, true), PWaiting(1, true)])
  {
    var s1 := SitsDown(s, r - 4, true);
    var s2 := SitsDown(s1, 0, true);
    t := Consults(s2, true);
    Chain(s, s1, s2, true);
    Chain(s, s2, t, true);
    assert t.patients == Lineup(n, r - 4, [PWaiting(1, true), PWaiting(0, true), PWaiting(1, true)]);
  }

  /** The released patients go home to the end. */
  lemma ReleasedGoHome(s: State, n: nat, r: nat) returns (t: State)
    requires n >= r + 3 && InBounds(s.shared) && s.shared.inHospital == 0 && |s.history.seatedAt| == n
    requires s.patients == Lineup(n, r, [PWaiting(1, true), PWaiting(0, true), PWaiting(1, true)])
    ensures Reaches(s, t, true) && SameMisses(s, t)
    ensures t == s.(shared := s.shared.(remaining := s.shared.remaining - 3), history := t.history,
                    patients := Lineup(n, r, []))
  {
    var s1 := GoesHome(s, r, true);
    var s2 := GoesHome(s1, r + 1, true);
    t := GoesHome(s2, r + 2, true);
    Chain(s, s1, s2, true);
    Chain(s, s2, t, true);
    assert t.patients == Lineup(n, r, []);
  }

  /** Two groups, one skipped decrement: four fewer at an empty cabinet, without luck. */
  lemma FourFewer(s: State, n: nat, m: nat, r: nat) returns (t: State)
    requires Between(s, n, m, r) && r >= 5 && s.shared.medicine == 6
    ensures Reaches(s, t, true) && Between(t, n, m, r - 4) && t.shared.medicine == 0
    ensures t.history.missed == s.history.missed + 1
  {
    var s1 := LateFromFirstGroup(s, n, m, r);
    var s2 := SecondGroup(s1, n, m, r);
    t := ReleasedGoHome(s2, n, r - 4);
    Chain(s, s1, s2, true);
    Chain(s, s2, t, true);
  }

  lemma SkippedTreatsAll(n: nat, m: nat, alert: bool) returns (t: State)
    requires m >= 1 && (n == 7 || n >= 9 || (!alert && n >= 4))
    ensures Reaches(Start(n, m), t, alert) && Between(t, n, m, 0) && t.shared.medicine == 0 && t.history.missed == 1
  {
    var s := Start(n, m);
    if alert {
      var s1 := FourFewer(s, n, m, n);
      var s2 := DownToThree(s1, n, m, n - 4);
      t := LastThree(s2, n, m, true);
      Chain(s, s1, s2, true);
      Chain(s, s2, t, true);
    } else {
      var s1 := LeavesOver(n, m, 4);
      t := TreatsTheOthers(s1, n, m);
      Chain(s, s1, t, false);
    }
  }

  /** The doctor, woken by main for the last time, finds the counter above zero and lies down again. */
  lemma SleepsForGood(s: State, alert: bool) returns (t: State)
    requires InBounds(s.shared) && s.doctor.DReadRemaining? && s.shared.remaining > 0 && !s.shared.doctorSleeping
    requires s.shared.inHospital == 0 && !s.shared.pharmacistWaiting
    ensures Reaches(s, t, alert)
    ensures t == s.(shared := s.shared.(doctorSleeping := true), doctor := DBlocked(false))
  {
    var s1 := Apply(s, Doctor);
    var s2 := Apply(s1, Doctor);
    t := FallsAsleep(s2, alert);
    Move(s, Doctor, alert);
    Move(s1, Doctor, alert);
    Chain(s, s1, s2, alert);
    Chain(s, s2, t, alert);
  }

  lemma DecrementLostReachable(n: nat, m: nat, alert: bool) returns (t: State)
    requires m >= 1 && (n == 7 || n >= 9 || (!alert && n >= 4))
    ensures Reaches(Start(n, m), t, alert) && DecrementLost(t)
  {
    var s1 := SkippedTreatsAll(n, m, alert);
    var s2 := RestocksOnce(s1, 0, alert);
    var s3 := PharmacistsLieDown(s2, 0, alert);
    var s4 := JoinsPatients(s3, alert);
    t := SleepsForGood(s4, alert);
    var s := Start(n, m);
    Chain(s, s1, s2, alert);
    Chain(s, s2, s3, alert);
    Chain(s, s3, s4, alert);
    Chain(s, s4, t, alert);
  }

  /** Of at most three patients, one treated by a skipped decrement leaves too few for another group. */
  ghost predicate SkipStrands(s: State) {
    s.history.missed > 0 ==>
      (exists i :: 0 <= i < |s.patients| && !IsUntreated(s.patients[i])) && exists k: nat :: Unconsulted(s, k)
  }

  lemma TreatedPreventsGroup(s: State, i: nat)
    requires Inv(s) && |s.patients| <= 3 && i < |s.patients| && !IsUntreated(s.patients[i])
    ensures s.shared.inHospital < 3
  {
    if s.shared.inHospital == 3 {
      GroupDistinct(s);
      SlotSeated(s, 0);
      SlotSeated(s, 1);
      SlotSeated(s, 2);
      assert false;
    }
  }

  lemma StepSkipStrands(s: State, a: Action, t: State)
    requires Inv(s) && Step(s, a, t) && |s.patients| <= 3 && SkipStrands(s)
    ensures SkipStrands(t)
  {
    if s.history.missed > 0 {
      var i :| 0 <= i < |s.patients| && !IsUntreated(s.patients[i]);
      var k: nat :| Unconsulted(s, k);
      TreatedPreventsGroup(s, i);
      assert s.doctor.DConsulting? ==> s.shared.inHospital == 3;
      UnconsultedStays(s, a, t, k);
      TreatedStays(s, a, t, i);
    } else if t.history.missed > 0 {
      SkipMeansSomebodySits(s, a, t);
      SlotSeated(s, 0);
      UnconsultedStays(s, a, t, PatientAt(s, 0));
      assert !IsUntreated(t.patients[a.i]);
    }
  }

  lemma SkipMeansSomebodySits(s: State, a: Action, t: State)
    requires Inv(s) && Step(s, a, t) && t.history.missed > s.history.missed
    ensures a.Patient? && s.shared.inHospital > 0
    ensures s.patients[a.i].PWaiting? && t.patients == s.patients[a.i := PReadRemaining(true)]
  {
    if a.Patient? && s.patients[a.i].PWaiting? {
      UntreatedCounted(s, a.i);
      WakeOutcome(s, a.i);
    }
    hide Inv;
    hide PatientWake;
  }

  lemma TreatedStays(s: State, a: Action, t: State, i: nat)
    requires Inv(s) && Step(s, a, t) && i < |s.patients| && !IsUntreated(s.patients[i])
    ensures i < |t.patients| && !IsUntreated(t.patients[i])
  {
    if a.Pharmacist? {
      PharmacistEffect(s, a.j);
    }
    hide PatientsOk;
    hide DoctorOk;
    hide PharmacistsOk;
    hide MainOk;
  }

  lemma {:induction false} AlwaysSkipStrands(n: nat, m: nat, states: seq<State>, actions: seq<Action>, k: nat)
    requires IsRun(n, m, states, actions) && k < |states| && n <= 3
    ensures SkipStrands(states[k])
  {
    if k > 0 {
      AlwaysSkipStrands(n, m, states, actions, k - 1);
      RunInv(n, m, states, actions, k - 1);
      assert Step(states[k - 1], actions[k - 1], states[k]);
      hide Step;
      hide Inv;
      hide SkipStrands;
      StepSkipStrands(states[k - 1], actions[k - 1], states[k]);
    }
  }

  /** The skipped decrement keeps some run from ending, although everybody is treated, exactly for these
      numbers; without spurious wakeups exactly for those for which the program can end at all. */
  lemma DecrementLostExactly(n: nat, m: nat)
    ensures SomeRunEndsIn(n, m, false, DecrementLost) <==> n >= 4 && m >= 1
    ensures SomeRunEndsIn(n, m, true, DecrementLost) <==> m >= 1 && (n == 7 || n >= 9)
  {
    if n >= 4 && m >= 1 {
      var t := DecrementLostReachable(n, m, false);
      RunEndsIn(n, m, false, t, DecrementLost);
    }
    if m >= 1 && (n == 7 || n >= 9) {
      var t := DecrementLostReachable(n, m, true);
      RunEndsIn(n, m, true, t, DecrementLost);
    }
    forall states: seq<State>, actions: seq<Action> |
      IsRun(n, m, states, actions) && DecrementLost(states[|actions|])
      ensures n >= 4 && m >= 1 && (NoSpuriousWakeups(states, actions) ==> n == 7 || n >= 9)
    {
      LostNumbers(n, m, states, actions, |actions|);
    }
  }

  lemma LostNumbers(n: nat, m: nat, states: seq<State>, actions: seq<Action>, k: nat)
    requires IsRun(n, m, states, actions) && k < |states| && DecrementLost(states[k])
    ensures n >= 4 && m >= 1 && (NoSpuriousWakeups(states, actions) ==> n == 7 || n >= 9)
  {
    if n <= 3 {
      AlwaysSkipStrands(n, m, states, actions, k);
    } else if m == 0 {
      NoPharmacistsNeverFinish(n, states, actions, k);
    } else if NoSpuriousWakeups(states, actions) && (n <= 6 || n == 8) {
      SomebodyStranded(n, m, states, actions, k);
    }
  }

  // -------------------------------------------------- the abandoned offer

  /** A pharmacist offers medicine after the last consultation; the doctor leaves without taking it. */
  lemma OffersTooLate(s: State, n: nat, m: nat, alert: bool) returns (t: State)
    requires Between(s, n, m, 3) && m > 0 && s.shared.medicine == 0 && s.history.missed == 0
    ensures Reaches(s, t, alert) && InBounds(t.shared) && Finished(t.shared) && t.doctor.DDone? && t.main == s.main
    ensures t.shared.pharmacistWaiting && t.shared.medicine == 0
    ensures t.patients == seq(n, i => PDone(true))
    ensures t.pharmacists == seq(m, j => if j == 0 then FAwaitDelivery(false) else FDone)
  {
    var s1 := ConsultsThree(s, 0, 1, 2, 0, alert);
    var s2 := Arrives(s1, 0, alert);
    var s3 := ThreeGoHome(s2, alert);
    var s4 := DoctorLeaves(s3, alert);
    t := PharmacistsLeave(s4, 1, alert);
    Chain(s, s1, s2, alert);
    Chain(s, s2, s3, alert);
    Chain(s, s3, s4, alert);
    Chain(s, s4, t, alert);
    assert t.patients == seq(n, i => PDone(true));
  }

  /** Main broadcasts for the last time; the pharmacist wakes, sees its offer standing, and waits on. */
  lemma WaitsInVain(s: State, n: nat, m: nat, alert: bool) returns (t: State)
    requires InBounds(s.shared) && Finished(s.shared) && s.doctor.DDone? && s.main == MJoinPatients(0) && m > 0
    requires s.shared.pharmacistWaiting && s.shared.medicine == 0
    requires s.patients == seq(n, i => PDone(true))
    requires s.pharmacists == seq(m, j => if j == 0 then FAwaitDelivery(false) else FDone)
    ensures Reaches(s, t, alert) && OfferAbandoned(t)
  {
    var s1 := JoinsPatients(s, alert);
    var s2 := Apply(s1, Main);
    var s3 := Apply(s2, Main);
    t := Apply(s3, Pharmacist(0));
    Move(s1, Main, alert);
    Move(s2, Main, alert);
    Move(s3, Pharmacist(0), alert);
    Chain(s, s1, s2, alert);
    Chain(s, s2, s3, alert);
    Chain(s, s3, t, alert);
  }

  lemma OfferAbandonedReachable(n: nat, m: nat, alert: bool) returns (t: State)
    requires m >= 1 && (n == 7 || n >= 9 || (!alert && n >= 3))
    ensures Reaches(Start(n, m), t, alert) && OfferAbandoned(t)
  {
    var s1;
    if alert {
      s1 := LeavesThree(n, m);
    } else {
      s1 := LeavesOver(n, m, 3);
    }
    var s2 := OffersTooLate(s1, n, m, alert);
    t := WaitsInVain(s2, n, m, alert);
    Chain(Start(n, m), s1, s2, alert);
    Chain(Start(n, m), s2, t, alert);
  }

  /** The doctor can leave a standing offer behind exactly if there are patients and the hospital can finish
      at all, with spurious wakeups or without. */
  lemma OfferAbandonedExactly(n: nat, m: nat)
    ensures SomeRunEndsIn(n, m, false, OfferAbandoned) <==> n >= 3 && m >= 1
    ensures SomeRunEndsIn(n, m, true, OfferAbandoned) <==> m >= 1 && (n == 7 || n >= 9)
  {
    if n >= 3 && m >= 1 {
      var t := OfferAbandonedReachable(n, m, false);
      RunEndsIn(n, m, false, t, OfferAbandoned);
    }
    if m >= 1 && (n == 7 || n >= 9) {
      var t := OfferAbandonedReachable(n, m, true);
      RunEndsIn(n, m, true, t, OfferAbandoned);
    }
    forall states: seq<State>, actions: seq<Action> |
      IsRun(n, m, states, actions) && OfferAbandoned(states[|actions|])
      ensures n >= 3 && m >= 1 && (NoSpuriousWakeups(states, actions) ==> n == 7 || n >= 9)
    {
      AbandonedNumbers(n, m, states, actions, |actions|);
    }
  }

  lemma AbandonedNumbers(n: nat, m: nat, states: seq<State>, actions: seq<Action>, k: nat)
    requires IsRun(n, m, states, actions) && k < |states| && OfferAbandoned(states[k])
    ensures n >= 3 && m >= 1 && (NoSpuriousWakeups(states, actions) ==> n == 7 || n >= 9)
  {
    RunInv(n, m, states, actions, k);
    GroupNeedsThree(states[k].history.groups[0], n);
    if NoSpuriousWakeups(states, actions) && (n <= 6 || n == 8) {
      SomebodyStranded(n, m, states, actions, k);
    }
  }
}
