/**
 When an empty cabinet is never restocked. Lab 10/README.md promises that the doctor does not sleep
 while three patients wait and that pharmacists can always restock; this is what decides it.
 */
module HospitalShortage {
  import opened Sequences
  import opened HospitalModel
  import opened HospitalInvariant
  import opened HospitalReach

  /** Patient i has not been treated, and no consultation has called it since it sat down. */
  predicate Unconsulted(s: State, i: nat) {
    && InBounds(s.shared) && i < |s.patients|
    && IsUntreated(s.patients[i]) && (s.patients[i].PWaiting? ==> Seated(s, i))
  }

  /** The cabinet ran low while pharmacist j slept in the loop that waits for just that. */
  predicate Unaware(s: State, j: nat) {
    j < |s.pharmacists| && s.pharmacists[j] == FAwaitShortage(false) && s.shared.medicine < PER_CONSULTATION
  }

  /** Patients are left, the cabinet is low, and no pharmacist has heard of it. */
  ghost predicate Abandoned(s: State) {
    && s.shared.medicine < PER_CONSULTATION
    && (exists i: nat :: Unconsulted(s, i))
    && forall j: nat :: j < |s.pharmacists| ==> Unaware(s, j)
  }

  // ----------------------------------------------------- how it comes about

  /** A pharmacist misses the shortage at one kind of step only: the consultation that empties the
      cabinet ends, which wakes the patients but no pharmacist. */
  lemma MissedExactly(s: State, a: Action, t: State, j: nat)
    requires Inv(s) && Step(s, a, t) && j < |s.pharmacists|
    ensures Unaware(t, j) && !Unaware(s, j) <==>
      a == Doctor && s.doctor.DConsulting? && s.shared.medicine == 3 && s.pharmacists[j] == FAwaitShortage(false)
  {
    hide Accounting;
    hide PatientsOk;
    hide MainOk;
    if a.Pharmacist? {
      PharmacistEffect(s, a.j);
    }
  }

  // -------------------------------------------------- what it leads to: (1)

  lemma UnconsultedHoldsMain(s: State, i: nat)
    requires Inv(s) && Unconsulted(s, i)
    ensures s.shared.remaining > 0 && s.main.MJoinPatients?
  {
    UntreatedCounted(s, i);
  }

  /** An unconsulted patient stays so until a consultation ends. */
  lemma UnconsultedStays(s: State, a: Action, t: State, i: nat)
    requires Inv(s) && Step(s, a, t) && Unconsulted(s, i) && !(a == Doctor && s.doctor.DConsulting?)
    ensures Unconsulted(t, i)
  {
    UnconsultedHoldsMain(s, i);
    match a
    case Doctor => OthersLeaveUnconsulted(s, a, t, i);
    case Pharmacist(_) => OthersLeaveUnconsulted(s, a, t, i);
    case Main => OthersLeaveUnconsulted(s, a, t, i);
    case Patient(k) =>
      if s.patients[k].PWaiting? {
        WakingLeavesUnconsulted(s, k, i);
      } else {
        ComingLeavesUnconsulted(s, k, i);
      }
  }

  lemma OthersLeaveUnconsulted(s: State, a: Action, t: State, i: nat)
    requires Inv(s) && Step(s, a, t) && Unconsulted(s, i) && !(a == Doctor && s.doctor.DConsulting?) && !a.Patient?
    ensures Unconsulted(t, i)
  {
    if a.Pharmacist? {
      PharmacistEffect(s, a.j);
    }
    hide Inv;
  }

  lemma WakingLeavesUnconsulted(s: State, k: nat, i: nat)
    requires Inv(s) && HasTurn(s, k) && s.patients[k].PWaiting? && Unconsulted(s, i) && s.shared.remaining > 0
    ensures Unconsulted(PatientStep(s, k), i)
  {
    WakeOutcome(s, k);
    assert PatientOk(s, i);
    hide Inv;
    hide PatientWake;
  }

  lemma ComingLeavesUnconsulted(s: State, k: nat, i: nat)
    requires Inv(s) && HasTurn(s, k) && !s.patients[k].PWaiting? && Unconsulted(s, i) && s.shared.remaining > 0
    ensures Unconsulted(PatientStep(s, k), i)
  {
    if s.patients[k].PAtLock? && TakesSeat(s.shared) {
      SeatsAfterSitting(s.shared, k + 1);
      assert !Seated(s, k);
    }
    assert Seated(s, k) ==> IsUntreated(s.patients[k]) by { assert PatientOk(s, k); }
    hide Inv;
  }

  /** No step but a spurious wakeup ends the abandonment; nobody is consulted, nothing is delivered. */
  lemma AbandonedStays(s: State, a: Action)
    requires Inv(s) && Abandoned(s) && Enabled(s, a) && !Asleep(s, a)
    ensures Abandoned(Apply(s, a))
    ensures Apply(s, a).history.groups == s.history.groups && Apply(s, a).history.deliveries == s.history.deliveries
  {
    var t := Apply(s, a);
    var i: nat :| Unconsulted(s, i);
    UnconsultedHoldsMain(s, i);
    assert a.Pharmacist? ==> Unaware(s, a.j);
    UnconsultedStays(s, a, t, i);
    forall j: nat | j < |s.pharmacists|
      ensures s.pharmacists[j] == FAwaitShortage(false)
    {
      assert Unaware(s, j);
    }
    assert !s.shared.pharmacistWaiting && s.shared.doctorSleeping;
    hide Accounting;
    hide PatientsOk;
  }

  lemma {:induction false} AbandonedForever(s: State, actions: seq<Action>, t: State)
    requires Inv(s) && Abandoned(s) && Leads(s, actions, t, true)
    ensures Abandoned(t)
    ensures t.history.groups == s.history.groups && t.history.deliveries == s.history.deliveries
    decreases |actions|
  {
    if actions != [] {
      var next := Apply(s, actions[0]);
      StepKeepsInv(s, actions[0], next);
      AbandonedStays(s, actions[0]);
      AbandonedForever(next, actions[1..], t);
    }
  }

  // -------------------------------------------------- what it leads to: (2)

  /** An offer that stands is taken up by the doctor without anybody waking by chance. */
  lemma OfferIsTaken(s: State) returns (t: State)
    requires Inv(s) && s.shared.pharmacistWaiting && s.shared.remaining > 0
    ensures Reaches(s, t, true) && Inv(t) && t.history.deliveries > s.history.deliveries
    ensures t.shared.inHospital == s.shared.inHospital && t.shared.medicine >= PER_CONSULTATION
    ensures t.shared.remaining == s.shared.remaining && t.history.groups == s.history.groups
  {
    hide Accounting;
    hide PatientsOk;
    hide MainOk;
    var s1 := if s.doctor.DReadRemaining? then Apply(s, Doctor) else s;
    var s2 := if s1.doctor.DDelivering? then s1 else Apply(s1, Doctor);
    t := Apply(s2, Doctor);
    Stay(s, true);
    if s.doctor.DReadRemaining? {
      Move(s, Doctor, true);
    }
    Stay(s1, true);
    if !s1.doctor.DDelivering? {
      Move(s1, Doctor, true);
    }
    Move(s2, Doctor, true);
    Chain(s, s1, s2, true);
    Chain(s, s2, t, true);
    var more :| Leads(s, more, t, true);
    LeadsKeepsInv(s, more, t, true);
  }

  /** A pharmacist on its way makes its offer. */
  lemma OfferIsMade(s: State, j: nat) returns (t: State)
    requires Inv(s) && s.shared.remaining > 0 && s.shared.medicine < PER_CONSULTATION && !s.shared.pharmacistWaiting
    requires j < |s.pharmacists| && s.pharmacists[j] != FAwaitShortage(false)
    ensures Reaches(s, t, true) && Inv(t) && t.shared.pharmacistWaiting
    ensures t.shared.remaining == s.shared.remaining && t.shared.inHospital == s.shared.inHospital
    ensures t.history == s.history
  {
    var a := Pharmacist(j);
    var s1 := if s.pharmacists[j].FAwaitDelivery? then Apply(s, a) else s;
    var s2 := if s1.pharmacists[j].FReadRemaining? then Apply(s1, a) else s1;
    t := Apply(s2, a);
    Stay(s, true);
    if s.pharmacists[j].FAwaitDelivery? {
      Move(s, a, true);
      StepKeepsInv(s, a, s1);
    }
    Stay(s1, true);
    if s1.pharmacists[j].FReadRemaining? {
      Move(s1, a, true);
      StepKeepsInv(s1, a, s2);
    }
    Move(s2, a, true);
    StepKeepsInv(s2, a, t);
    Chain(s, s1, s2, true);
    Chain(s, s2, t, true);
  }

  lemma RestockReachable(s: State, j: nat) returns (t: State)
    requires Inv(s) && s.shared.remaining > 0 && s.shared.medicine < PER_CONSULTATION
    requires j < |s.pharmacists| && !Unaware(s, j)
    ensures Reaches(s, t, true) && Inv(t) && t.history.deliveries > s.history.deliveries
    ensures t.shared.inHospital == s.shared.inHospital && t.shared.medicine >= PER_CONSULTATION
    ensures t.shared.remaining == s.shared.remaining && t.history.groups == s.history.groups
  {
    if s.shared.pharmacistWaiting {
      t := OfferIsTaken(s);
    } else {
      var s1 := OfferIsMade(s, j);
      t := OfferIsTaken(s1);
      Chain(s, s1, t, true);
    }
  }

  // ---------------------------------------------------------- main results

  /** While patients are left and the cabinet is low, it can be restocked without a spurious wakeup
      exactly if some pharmacist is not asleep in the loop that waits for the shortage. */
  lemma RestockedExactly(n: nat, m: nat, states: seq<State>, actions: seq<Action>, k: nat, i: nat)
    requires IsRun(n, m, states, actions) && k < |states|
    requires states[k].shared.medicine < PER_CONSULTATION && Unconsulted(states[k], i)
    ensures (exists t :: Reaches(states[k], t, true) && t.history.deliveries > states[k].history.deliveries) <==>
            (exists j: nat :: j < m == |states[k].pharmacists| && states[k].pharmacists[j] != FAwaitShortage(false))
  {
    var s := states[k];
    RunInv(n, m, states, actions, k);
    UnconsultedHoldsMain(s, i);
    if j: nat :| j < m && s.pharmacists[j] != FAwaitShortage(false) {
      var t := RestockReachable(s, j);
    } else {
      assert Abandoned(s);
      forall t | Reaches(s, t, true)
        ensures t.history.deliveries == s.history.deliveries
      {
        var more :| Leads(s, more, t, true);
        AbandonedForever(s, more, t);
      }
    }
  }

  /** Once no pharmacist has heard of the shortage, no patient is consulted ever again, however many
      patients still come and go, unless somebody wakes by chance. */
  lemma AbandonedIsFinal(n: nat, m: nat, states: seq<State>, actions: seq<Action>, k: nat, t: State)
    requires IsRun(n, m, states, actions) && k < |states| && Abandoned(states[k]) && Reaches(states[k], t, true)
    ensures t.history.groups == states[k].history.groups && t.history.deliveries == states[k].history.deliveries
    ensures !t.main.MAllServed? && Abandoned(t)
  {
    RunInv(n, m, states, actions, k);
    var more :| Leads(states[k], more, t, true);
    AbandonedForever(states[k], more, t);
    LeadsKeepsInv(states[k], more, t, true);
    var i: nat :| Unconsulted(t, i);
    UnconsultedHoldsMain(t, i);
  }

  lemma {:induction false} LeadsKeepsInv(s: State, actions: seq<Action>, t: State, alert: bool)
    requires Inv(s) && Leads(s, actions, t, alert)
    ensures Inv(t) && |t.patients| == |s.patients| && |t.pharmacists| == |s.pharmacists|
    decreases |actions|
  {
    if actions != [] {
      StepKeepsInv(s, actions[0], Apply(s, actions[0]));
      LeadsKeepsInv(Apply(s, actions[0]), actions[1..], t, alert);
    }
  }

  /** Three patients that sit are consulted, without anybody waking by chance, exactly if there is enough
      medicine or some pharmacist is not asleep in the loop that waits for the shortage. */
  lemma FullRoomServedExactly(n: nat, m: nat, states: seq<State>, actions: seq<Action>, k: nat)
    requires IsRun(n, m, states, actions) && k < |states| && states[k].shared.inHospital == 3
    ensures (exists t :: Reaches(states[k], t, true) && |t.history.groups| > |states[k].history.groups|) <==>
              || states[k].shared.medicine >= PER_CONSULTATION
              || exists j: nat :: j < m == |states[k].pharmacists| && states[k].pharmacists[j] != FAwaitShortage(false)
  {
    var s := states[k];
    RunInv(n, m, states, actions, k);
    var i := SomebodySits(s);
    UnconsultedHoldsMain(s, i);
    if s.shared.medicine >= PER_CONSULTATION {
      var t := FullRoomConsulted(s);
    } else if j: nat :| j < m && s.pharmacists[j] != FAwaitShortage(false) {
      var restocked := RestockReachable(s, j);
      var t := FullRoomConsulted(restocked);
      Chain(s, restocked, t, true);
    } else {
      assert Abandoned(s);
      forall t | Reaches(s, t, true)
        ensures t.history.groups == s.history.groups
      {
        var more :| Leads(s, more, t, true);
        AbandonedForever(s, more, t);
      }
    }
  }

  lemma SomebodySits(s: State) returns (i: nat)
    requires Inv(s) && s.shared.inHospital == 3
    ensures Unconsulted(s, i)
  {
    i := s.shared.slots[0] - 1;
    assert s.shared.slots[..3][0] == i + 1;
    assert PatientOk(s, i);
  }

  lemma FullRoomConsulted(s: State) returns (t: State)
    requires Inv(s) && s.shared.inHospital == 3 && s.shared.medicine >= PER_CONSULTATION && s.shared.remaining > 0
    ensures Reaches(s, t, true) && |t.history.groups| > |s.history.groups|
  {
    var s1 := if s.doctor.DReadRemaining? then Apply(s, Doctor) else s;
    var s2 := if s1.doctor.DConsulting? then s1 else Apply(s1, Doctor);
    t := Apply(s2, Doctor);
    Stay(s, true);
    if s.doctor.DReadRemaining? {
      Move(s, Doctor, true);
    }
    Stay(s1, true);
    if !s1.doctor.DConsulting? {
      Move(s1, Doctor, true);
    }
    Move(s2, Doctor, true);
    Chain(s, s1, s2, true);
    Chain(s, s2, t, true);
  }
}
