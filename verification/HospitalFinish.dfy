/** For which numbers of patients and pharmacists the hospital can finish at all. */
module HospitalFinish {
  import opened Sequences
  import opened HospitalModel
  import opened HospitalInvariant
  import opened HospitalReach
  import opened HospitalShortage
  import opened HospitalDeadlock

  // --------------------------------------- without pharmacists: nobody can

  /** Somebody is left unconsulted, and a group that is ready has a member that does not wait: the
      third to sit while stock suffices skips the waiting loop. */
  ghost predicate LeavesSomebody(s: State) {
    && s.pharmacists == [] && InBounds(s.shared)
    && (exists i: nat :: Unconsulted(s, i))
    && (ConsultationReady(s.shared) ==> exists i: nat :: Roams(s, i))
  }

  predicate Roams(s: State, i: nat)
    requires InBounds(s.shared)
  {
    i < |s.patients| && Seated(s, i) && IsUntreated(s.patients[i]) && !s.patients[i].PWaiting?
  }

  lemma SomebodyStaysUnconsulted(s: State, a: Action, t: State)
    requires Inv(s) && Step(s, a, t) && LeavesSomebody(s)
    ensures exists i: nat :: Unconsulted(t, i)
  {
    if a == Doctor && s.doctor.DConsulting? {
      var i: nat :| Roams(s, i);
      assert Unconsulted(t, i);
    } else {
      var i: nat :| Unconsulted(s, i);
      UnconsultedStays(s, a, t, i);
    }
  }

  lemma SomebodyRoams(s: State, a: Action, t: State)
    requires Inv(s) && Step(s, a, t) && LeavesSomebody(s) && InBounds(t.shared) && ConsultationReady(t.shared)
    ensures exists i: nat :: Roams(t, i)
  {
    if !a.Patient? || !s.patients[a.i].PAtLock? || !TakesSeat(s.shared) {
      RoamerKeepsRoaming(s, a, t);
    } else {
      SeatsAfterSitting(s.shared, a.i + 1);
      assert Roams(t, a.i);
    }
  }

  lemma RoamerKeepsRoaming(s: State, a: Action, t: State)
    requires Inv(s) && Step(s, a, t) && LeavesSomebody(s) && InBounds(t.shared) && ConsultationReady(t.shared)
    requires !(a.Patient? && s.patients[a.i].PAtLock? && TakesSeat(s.shared))
    ensures exists i: nat :: Roams(t, i)
  {
    if a.Patient? {
      assert ConsultationReady(s.shared);
      var i: nat :| Roams(s, i);
      PatientLeavesRoamer(s, a.i, i);
      assert Roams(t, i);
    } else {
      hide PatientsOk;
      hide Accounting;
      assert s.doctor.DDelivering? ==> DeliveryReady(s.shared);
      var i: nat :| Roams(s, i);
      assert Roams(t, i);
    }
  }

  lemma PatientLeavesRoamer(s: State, k: nat, i: nat)
    requires Inv(s) && HasTurn(s, k) && Roams(s, i) && s.shared.inHospital == 3
    ensures InBounds(PatientStep(s, k).shared) && Roams(PatientStep(s, k), i)
  {
    UntreatedCounted(s, i);
    if s.patients[k].PWaiting? {
      WakeOutcome(s, k);
      hide PatientWake;
    }
    hide MainOk;
    hide PharmacistsOk;
    hide DoctorOk;
  }

  lemma StepLeavesSomebody(s: State, a: Action, t: State)
    requires Inv(s) && Step(s, a, t) && LeavesSomebody(s)
    ensures LeavesSomebody(t)
  {
    StepKeepsInv(s, a, t);
    SomebodyStaysUnconsulted(s, a, t);
    if ConsultationReady(t.shared) {
      SomebodyRoams(s, a, t);
    }
    hide Step;
    hide Stock;
    hide Accounting;
    hide PatientsOk;
    hide DoctorOk;
    hide PharmacistsOk;
    hide MainOk;
  }

  lemma {:induction false} AlwaysLeavesSomebody(n: nat, states: seq<State>, actions: seq<Action>, k: nat)
    requires IsRun(n, 0, states, actions) && k < |states| && n > 0
    ensures LeavesSomebody(states[k])
  {
    if k == 0 {
      assert Unconsulted(states[0], 0);
    } else {
      AlwaysLeavesSomebody(n, states, actions, k - 1);
      RunInv(n, 0, states, actions, k - 1);
      assert Step(states[k - 1], actions[k - 1], states[k]);
      hide Step;
      hide Inv;
      hide LeavesSomebody;
      StepLeavesSomebody(states[k - 1], actions[k - 1], states[k]);
    }
  }

  /** With patients but without pharmacists somebody remains unconsulted in every state of every run. */
  lemma NoPharmacistsNeverFinish(n: nat, states: seq<State>, actions: seq<Action>, k: nat)
    requires IsRun(n, 0, states, actions) && k < |states| && n > 0
    ensures (exists i: nat :: Unconsulted(states[k], i)) && !states[k].main.MAllServed?
  {
    AlwaysLeavesSomebody(n, states, actions, k);
    RunInv(n, 0, states, actions, k);
    var i: nat :| Unconsulted(states[k], i);
    UnconsultedHoldsMain(states[k], i);
  }

  // ----------------------------------- three patients and a pharmacist: a run

  /** Between two rounds: the first r of n patients walk, the others have gone home. */
  predicate Between(s: State, n: nat, m: nat, r: nat) {
    && r <= n && Calm(s)
    && s.patients == seq(n, i => if i < r then PReadRemaining(false) else PDone(true))
    && s.pharmacists == seq(m, _ => FReadRemaining)
    && s.shared.remaining == r + s.history.missed && s.main == MJoinPatients(0)
  }

  /** Two consultations that treat nobody empty the cabinet. */
  lemma EmptiesCabinet(n: nat, m: nat) returns (t: State)
    requires n >= 3
    ensures Reaches(Start(n, m), t, false) && Between(t, n, m, n) && t.shared.medicine == 0
    ensures t.history.missed == 0
  {
    var s := Start(n, m);
    var s1 := TreatsNobody(s, 0, 1, 2);
    t := TreatsNobody(s1, 0, 1, 2);
    Chain(s, s1, t, false);
  }

  /** A round that treats one patient. */
  lemma OneFewer(s: State, n: nat, m: nat, r: nat) returns (t: State)
    requires Between(s, n, m, r) && r >= 3 && m > 0 && s.shared.medicine == 0
    ensures Reaches(s, t, false) && Between(t, n, m, r - 1) && t.shared.medicine == 0 && SameMisses(s, t)
  {
    var s1 := ConsultsOne(s, r - 1, 0, 1, 0);
    t := GoesHome(s1, r - 1, false);
    Chain(s, s1, t, false);
    assert t.patients == seq(n, i => if i < r - 1 then PReadRemaining(false) else PDone(true));
  }

  lemma {:induction false} DownTo(s: State, n: nat, m: nat, r: nat, goal: nat) returns (t: State)
    requires Between(s, n, m, r) && r >= goal >= 3 && m > 0 && s.shared.medicine == 0
    ensures Reaches(s, t, false) && Between(t, n, m, goal) && t.shared.medicine == 0 && SameMisses(s, t)
    decreases r
  {
    if r == goal {
      t := s;
      Stay(s, false);
    } else {
      var s1 := OneFewer(s, n, m, r);
      t := DownTo(s1, n, m, r - 1, goal);
      Chain(s, s1, t, false);
    }
  }

  /** Any number of patients from three on can be left over at an empty cabinet. */
  lemma LeavesOver(n: nat, m: nat, goal: nat) returns (t: State)
    requires n >= goal >= 3 && m >= 1
    ensures Reaches(Start(n, m), t, false) && Between(t, n, m, goal) && t.shared.medicine == 0
    ensures t.history.missed == 0
  {
    var s1 := EmptiesCabinet(n, m);
    t := DownTo(s1, n, m, n, goal);
    Chain(Start(n, m), s1, t, false);
  }

  /** The first three, consulted, go home one after the other. */
  lemma ThreeGoHome(s: State, alert: bool) returns (t: State)
    requires InBounds(s.shared) && s.shared.inHospital == 0 && |s.history.seatedAt| == |s.patients| >= 3
    requires forall i :: 0 <= i < 3 ==>
               s.patients[i].PWaiting? && s.patients[i].position < 3 && s.patients[i].signalled
    ensures Reaches(s, t, alert) && SameMisses(s, t)
    ensures t == s.(shared := s.shared.(remaining := s.shared.remaining - 3), history := t.history,
                    patients := s.patients[0 := PDone(true)][1 := PDone(true)][2 := PDone(true)])
  {
    var s1 := GoesHome(s, 0, alert);
    var s2 := GoesHome(s1, 1, alert);
    t := GoesHome(s2, 2, alert);
    Chain(s, s1, s2, alert);
    Chain(s, s2, t, alert);
  }

  /** The last three are treated together. */
  lemma LastThree(s: State, n: nat, m: nat, alert: bool) returns (t: State)
    requires Between(s, n, m, 3) && m > 0 && s.shared.medicine == 0
    ensures Reaches(s, t, alert) && Between(t, n, m, 0) && t.shared.medicine == 0 && SameMisses(s, t)
  {
    var s1 := ConsultsThree(s, 0, 1, 2, 0, alert);
    t := ThreeGoHome(s1, alert);
    Chain(s, s1, t, alert);
    assert t.patients == seq(n, i => PDone(true));
  }

  /** The pharmacists from j on leave the empty hospital. */
  lemma {:induction false} PharmacistsLeave(s: State, j: nat, alert: bool) returns (t: State)
    requires InBounds(s.shared) && Finished(s.shared) && j <= |s.pharmacists|
    requires forall l :: j <= l < |s.pharmacists| ==> s.pharmacists[l] == FReadRemaining
    ensures Reaches(s, t, alert)
    ensures t == s.(pharmacists := s.pharmacists[..j] + seq(|s.pharmacists| - j, _ => FDone))
    decreases |s.pharmacists| - j
  {
    if j == |s.pharmacists| {
      t := s;
      Stay(s, alert);
      assert s.pharmacists[..j] + [] == s.pharmacists;
    } else {
      var s1 := Apply(s, Pharmacist(j));
      var s2 := Apply(s1, Pharmacist(j));
      Move(s, Pharmacist(j), alert);
      Move(s1, Pharmacist(j), alert);
      Chain(s, s1, s2, alert);
      t := PharmacistsLeave(s2, j + 1, alert);
      Chain(s, s2, t, alert);
      assert t.pharmacists == s.pharmacists[..j] + seq(|s.pharmacists| - j, _ => FDone);
    }
  }

  lemma DoctorLeaves(s: State, alert: bool) returns (t: State)
    requires InBounds(s.shared) && Finished(s.shared) && s.doctor.DReadRemaining?
    ensures Reaches(s, t, alert) && t == s.(doctor := DDone)
  {
    var s1 := Apply(s, Doctor);
    t := Apply(s1, Doctor);
    Move(s, Doctor, alert);
    Move(s1, Doctor, alert);
    Chain(s, s1, t, alert);
  }

  lemma {:induction false} JoinsPatients(s: State, alert: bool) returns (t: State)
    requires InBounds(s.shared) && s.main.MJoinPatients? && s.main.next <= |s.patients|
    requires forall i :: 0 <= i < |s.patients| ==> s.patients[i].PDone?
    ensures Reaches(s, t, alert)
    ensures t == s.(shared := s.shared.(doctorSleeping := false), doctor := SignalDoctor(s.doctor), main := MJoinDoctor)
    decreases |s.patients| - s.main.next
  {
    var s1 := Apply(s, Main);
    Move(s, Main, alert);
    if s.main.next == |s.patients| {
      t := s1;
    } else {
      t := JoinsPatients(s1, alert);
      Chain(s, s1, t, alert);
    }
  }

  lemma {:induction false} JoinsPharmacists(s: State, alert: bool) returns (t: State)
    requires InBounds(s.shared) && s.main.MJoinPharmacists? && s.main.next <= |s.pharmacists|
    requires forall j :: 0 <= j < |s.pharmacists| ==> s.pharmacists[j].FDone?
    ensures Reaches(s, t, alert) && t.main.MAllServed?
    decreases |s.pharmacists| - s.main.next
  {
    var s1 := Apply(s, Main);
    Move(s, Main, alert);
    if s.main.next == |s.pharmacists| {
      t := s1;
    } else {
      t := JoinsPharmacists(s1, alert);
      Chain(s, s1, t, alert);
    }
  }

  /** Once everybody is treated the program can end. */
  lemma Closes(s: State, n: nat, m: nat, alert: bool) returns (t: State)
    requires Between(s, n, m, 0) && s.history.missed == 0
    ensures Reaches(s, t, alert) && t.main.MAllServed?
  {
    var s1 := DoctorLeaves(s, alert);
    var s2 := PharmacistsLeave(s1, 0, alert);
    var s3 := JoinsPatients(s2, alert);
    var s4 := Apply(s3, Main);
    var s5 := Apply(s4, Main);
    t := JoinsPharmacists(s5, alert);
    Move(s3, Main, alert);
    Move(s4, Main, alert);
    Chain(s, s1, s2, alert);
    Chain(s, s2, s3, alert);
    Chain(s, s3, s4, alert);
    Chain(s, s4, s5, alert);
    Chain(s, s5, t, alert);
  }

  lemma FinishReachable(n: nat, m: nat) returns (t: State)
    requires n == 0 || (n >= 3 && m >= 1)
    ensures Reaches(Start(n, m), t, false) && t.main.MAllServed?
  {
    var s := Start(n, m);
    if n == 0 {
      t := Closes(s, n, m, false);
    } else {
      var s1 := LeavesOver(n, m, 3);
      var s2 := LastThree(s1, n, m, false);
      t := Closes(s2, n, m, false);
      Chain(s, s1, s2, false);
      Chain(s, s2, t, false);
    }
  }

  /** Some run prints the closing line exactly if there are no patients, or at least three patients and
      at least one pharmacist. */
  lemma FinishesExactly(n: nat, m: nat)
    ensures (exists states: seq<State>, actions: seq<Action> ::
               IsRun(n, m, states, actions) && states[|actions|].main.MAllServed?) <==>
            n == 0 || (n >= 3 && m >= 1)
  {
    if n == 0 || (n >= 3 && m >= 1) {
      var t := FinishReachable(n, m);
      var states, actions := RunReaching(n, m, t, false);
    } else {
      forall states: seq<State>, actions: seq<Action> | IsRun(n, m, states, actions)
        ensures !states[|actions|].main.MAllServed?
      {
        if n <= 2 {
          FewPatientsNeverFinish(n, m, states, actions, |actions|);
        } else {
          NoPharmacistsNeverFinish(n, states, actions, |actions|);
        }
      }
    }
  }
}
