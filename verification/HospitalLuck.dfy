/**
 What is left of the hospital if nobody ever wakes by chance. A group that meets a stocked cabinet
 then sends two of its three patients home, a group that waited for the stock all three, and the
 numbers have to come out.
 */
module HospitalLuck {
  import opened HospitalModel
  import opened HospitalInvariant
  import opened HospitalTheorems
  import opened HospitalReach
  import opened HospitalShortage
  import opened HospitalDeadlock
  import opened HospitalFinish

  // ---------------------------------------------------- how groups are made

  function PatientAt(s: State, slot: nat): int
    requires InBounds(s.shared) && slot < SEATS
  {
    s.shared.slots[slot] - 1
  }

  predicate WaitsAt(s: State, slot: nat)
    requires InBounds(s.shared) && slot < SEATS
  {
    0 <= PatientAt(s, slot) < |s.patients| && s.patients[PatientAt(s, slot)].PWaiting?
  }

  /** The first two to sit wait; the third does not while the first deliveries are still to come. */
  predicate Orderly(s: State) {
    && InBounds(s.shared)
    && (s.shared.inHospital >= 1 ==> WaitsAt(s, 0))
    && (s.shared.inHospital >= 2 ==> WaitsAt(s, 1))
    && (s.history.deliveries > 0 ==> |s.history.groups| >= 2)
    && (s.shared.inHospital == 3 && |s.history.groups| < 2 ==> !WaitsAt(s, 2))
  }

  lemma OrderlyStays(s: State, a: Action)
    requires Inv(s) && Orderly(s) && Enabled(s, a) && !Asleep(s, a)
    ensures Orderly(Apply(s, a))
  {
    match a
    case Doctor => DoctorStaysOrderly(s);
    case Patient(i) => PatientStaysOrderly(s, i);
    case Pharmacist(j) => PharmacistEffect(s, j);
    case Main =>
  }

  lemma DoctorStaysOrderly(s: State)
    requires Inv(s) && Orderly(s) && !s.doctor.DDone?
    ensures Orderly(DoctorStep(s))
  {
    hide PatientsOk;
    hide Accounting;
    hide MainOk;
    hide PharmacistsOk;
  }

  /** The patient in a slot in use sits there. */
  lemma SlotSeated(s: State, slot: nat)
    requires Inv(s) && slot < s.shared.inHospital
    ensures PatientAt(s, slot) >= 0 && Seated(s, PatientAt(s, slot)) && Unconsulted(s, PatientAt(s, slot))
  {
    assert s.shared.slots[..s.shared.inHospital][slot] == s.shared.slots[slot];
    assert PatientOk(s, PatientAt(s, slot));
  }

  lemma PatientStaysOrderly(s: State, i: nat)
    requires Inv(s) && Orderly(s) && HasTurn(s, i) && !Asleep(s, Patient(i))
    ensures Orderly(PatientStep(s, i))
  {
    assert PatientOk(s, i);
    if s.shared.inHospital >= 1 {
      SlotSeated(s, 0);
    }
    if s.shared.inHospital >= 2 {
      SlotSeated(s, 1);
    }
    if s.shared.inHospital == 3 {
      SlotSeated(s, 2);
    }
    if s.patients[i].PWaiting? {
      WakerStaysOrderly(s, i);
    } else {
      hide Inv;
      ComerStaysOrderly(s, i);
    }
  }

  lemma WakerStaysOrderly(s: State, i: nat)
    requires Inv(s) && Orderly(s) && HasTurn(s, i) && s.patients[i].PWaiting? && !Seated(s, i)
    requires forall slot: nat :: slot < s.shared.inHospital ==> PatientAt(s, slot) >= 0 && Seated(s, PatientAt(s, slot))
    ensures Orderly(PatientStep(s, i))
  {
    UntreatedCounted(s, i);
    WakeOutcome(s, i);
    hide Inv;
    hide PatientWake;
  }

  lemma ComerStaysOrderly(s: State, i: nat)
    requires Orderly(s) && HasTurn(s, i) && !s.patients[i].PWaiting? && |s.history.seatedAt| == |s.patients|
    requires s.patients[i].PAtLock? && TakesSeat(s.shared) && |s.history.groups| < 2 ==>
               s.shared.medicine >= PER_CONSULTATION
    ensures Orderly(PatientStep(s, i))
  {
  }

  // -------------------------------------------------- how many go home each time

  ghost function Left(s: State): set<int> {
    set i | 0 <= i < |s.patients| && Unconsulted(s, i)
  }

  /** A patient that has been consulted, or treated, stays so. */
  lemma ConsultedStays(s: State, a: Action, t: State, i: nat)
    requires Inv(s) && Step(s, a, t) && i < |s.patients| && !Unconsulted(s, i)
    ensures !Unconsulted(t, i)
  {
    match a
    case Doctor =>
    case Pharmacist(j) => PharmacistEffect(s, j);
    case Main =>
    case Patient(k) => ConsultedStaysByPatient(s, k, i);
  }

  lemma ConsultedStaysByPatient(s: State, k: nat, i: nat)
    requires Inv(s) && HasTurn(s, k) && i < |s.patients| && !Unconsulted(s, i)
    ensures !Unconsulted(PatientStep(s, k), i)
  {
    assert PatientOk(s, i);
    if s.patients[k].PWaiting? {
      UntreatedCounted(s, k);
      WakeOutcome(s, k);
      hide PatientWake;
    } else if s.patients[k].PAtLock? && TakesSeat(s.shared) {
      SeatsAfterSitting(s.shared, k + 1);
    }
    hide Inv;
  }

  /** Between consultations the same patients are left. */
  lemma SameLeft(s: State, a: Action, t: State)
    requires Inv(s) && Step(s, a, t) && !(a == Doctor && s.doctor.DConsulting?)
    ensures Left(t) == Left(s) && t.history.groups == s.history.groups
  {
    StepKeepsInv(s, a, t);
    forall i: nat | i < |s.patients|
      ensures Unconsulted(t, i) <==> Unconsulted(s, i)
    {
      if Unconsulted(s, i) {
        UnconsultedStays(s, a, t, i);
      } else {
        ConsultedStays(s, a, t, i);
      }
    }
    if a.Pharmacist? {
      PharmacistEffect(s, a.j);
    }
  }

  /** Those that wait among the three that sit. */
  ghost function Released(s: State): set<int>
    requires InBounds(s.shared)
  {
    var first := {PatientAt(s, 0), PatientAt(s, 1)};
    if WaitsAt(s, 2) then first + {PatientAt(s, 2)} else first
  }

  lemma ReleasesWaiting(s: State, i: nat)
    requires Inv(s) && Orderly(s) && s.doctor.DConsulting? && i < |s.patients|
    ensures Unconsulted(DoctorStep(s), i) <==> Unconsulted(s, i) && i !in Released(s)
  {
    assert s.shared.slots[..3] == s.shared.slots;
    assert PatientOk(s, i);
    GroupDistinct(s);
    hide Inv;
  }

  lemma ReleasesSome(s: State, t: State, gone: set<int>)
    requires |t.patients| == |s.patients| && gone <= Left(s)
    requires forall i: nat :: i < |s.patients| ==> (Unconsulted(t, i) <==> Unconsulted(s, i) && i !in gone)
    ensures |Left(t)| == |Left(s)| - |gone|
  {
    hide Unconsulted;
    assert Left(t) == Left(s) - gone;
    SubsetSize(gone, Left(s));
  }

  /** A consultation is for three patients that were left, and releases those of them that wait: the
      first two and, unless it met a stocked cabinet, the third. */
  lemma ConsultationReleases(s: State)
    requires Inv(s) && Orderly(s) && s.doctor.DConsulting?
    ensures |Left(s)| >= 3 && |s.history.groups| + 1 == |DoctorStep(s).history.groups|
    ensures |Left(DoctorStep(s))| == |Left(s)| - (if WaitsAt(s, 2) then 3 else 2)
  {
    var a, b, c := PatientAt(s, 0), PatientAt(s, 1), PatientAt(s, 2);
    forall i: nat | i < |s.patients|
      ensures Unconsulted(DoctorStep(s), i) <==> Unconsulted(s, i) && i !in Released(s)
    {
      ReleasesWaiting(s, i);
    }
    SlotSeated(s, 0);
    SlotSeated(s, 1);
    SlotSeated(s, 2);
    GroupDistinct(s);
    assert s.doctor.DConsulting? && InBounds(s.shared);
    hide Inv;
    hide Orderly;
    hide PatientAt;
    hide WaitsAt;
    assert {a, b, c} <= Left(s);
    SubsetSize({a, b, c}, Left(s));
    ReleasesSome(s, DoctorStep(s), Released(s));
  }

  lemma GroupDistinct(s: State)
    requires Inv(s) && s.shared.inHospital == 3
    ensures PatientAt(s, 0) != PatientAt(s, 1) && PatientAt(s, 1) != PatientAt(s, 2)
    ensures PatientAt(s, 0) != PatientAt(s, 2)
  {
    var used := s.shared.slots[..3];
    assert used[0] != used[1] && used[1] != used[2] && used[0] != used[2];
  }

  // ------------------------------------------------- when it does not come out

  /** How many patients can be left after g consultations, for the numbers that do not come out. */
  predicate Stranded(n: nat, g: nat, left: nat) {
    left > 0 && if g <= 2 then left == n - 2 * g else n == 8 && left <= 2
  }

  lemma {:induction false} AlwaysStranded(n: nat, m: nat, states: seq<State>, actions: seq<Action>, k: nat)
    requires IsRun(n, m, states, actions) && NoSpuriousWakeups(states, actions) && k < |states|
    requires 1 <= n <= 6 || n == 8
    ensures Orderly(states[k]) && Stranded(n, |states[k].history.groups|, |Left(states[k])|)
  {
    RunInv(n, m, states, actions, k);
    if k == 0 {
      EverybodyLeft(n, m);
    } else {
      AlwaysStranded(n, m, states, actions, k - 1);
      RunInv(n, m, states, actions, k - 1);
      assert Step(states[k - 1], actions[k - 1], states[k]);
      assert !Asleep(states[k - 1], actions[k - 1]);
      hide Step;
      hide Inv;
      hide Asleep;
      StepStrands(n, states[k - 1], actions[k - 1], states[k]);
    }
  }

  ghost function Below(n: nat): (r: set<int>)
    ensures |r| == n && forall i :: i in r <==> 0 <= i < n
  {
    if n == 0 then {} else Below(n - 1) + {n - 1}
  }

  lemma EverybodyLeft(n: nat, m: nat)
    ensures |Left(Start(n, m))| == n
  {
    assert Left(Start(n, m)) == Below(n);
  }

  lemma StepStrands(n: nat, s: State, a: Action, t: State)
    requires Inv(s) && Orderly(s) && Step(s, a, t) && !Asleep(s, a) && (1 <= n <= 6 || n == 8)
    requires Stranded(n, |s.history.groups|, |Left(s)|)
    ensures Orderly(t) && Stranded(n, |t.history.groups|, |Left(t)|)
  {
    OrderlyStays(s, a);
    if a == Doctor && s.doctor.DConsulting? {
      ConsultationReleases(s);
      assert s.shared.inHospital == 3;
      hide Left;
      hide Inv;
    } else {
      SameLeft(s, a, t);
    }
  }

  // --------------------------------------------------------- when it does

  /** A round that treats two at a stocked cabinet. */
  lemma TwoFewer(s: State, n: nat, m: nat, r: nat) returns (t: State)
    requires Between(s, n, m, r) && r >= 3 && s.shared.medicine >= PER_CONSULTATION
    ensures Reaches(s, t, true) && Between(t, n, m, r - 2) && SameMisses(s, t)
    ensures t.shared.medicine == s.shared.medicine - PER_CONSULTATION
  {
    t := TreatsTwo(s, r - 1, r - 2, 0, true);
    assert t.patients == seq(n, i => if i < r - 2 then PReadRemaining(false) else PDone(true));
  }

  /** A round that treats three who waited for the stock. */
  lemma ThreeFewer(s: State, n: nat, m: nat, r: nat) returns (t: State)
    requires Between(s, n, m, r) && r >= 3 && m > 0 && s.shared.medicine == 0
    ensures Reaches(s, t, true) && Between(t, n, m, r - 3) && t.shared.medicine == 0 && SameMisses(s, t)
  {
    var s1 := ConsultsThree(s, r - 1, r - 2, r - 3, 0, true);
    var s2 := GoesHome(s1, r - 1, true);
    var s3 := GoesHome(s2, r - 2, true);
    t := GoesHome(s3, r - 3, true);
    Chain(s, s1, s2, true);
    Chain(s, s2, s3, true);
    Chain(s, s3, t, true);
    assert t.patients == seq(n, i => if i < r - 3 then PReadRemaining(false) else PDone(true));
  }

  /** With an empty cabinet, any number of patients from five on can be brought down to three. */
  lemma {:induction false} DownToThree(s: State, n: nat, m: nat, r: nat) returns (t: State)
    requires Between(s, n, m, r) && (r == 3 || r >= 5) && m > 0 && s.shared.medicine == 0
    ensures Reaches(s, t, true) && Between(t, n, m, 3) && t.shared.medicine == 0 && SameMisses(s, t)
    decreases r
  {
    if r == 3 {
      t := s;
      Stay(s, true);
    } else {
      var s1;
      if r % 2 == 0 {
        s1 := ThreeFewer(s, n, m, r);
      } else {
        var s0 := RestocksOnce(s, 0, true);
        s1 := TwoFewer(s0, n, m, r);
        Chain(s, s0, s1, true);
      }
      t := DownToThree(s1, n, m, if r % 2 == 0 then r - 3 else r - 2);
      Chain(s, s1, t, true);
    }
  }

  /** Two groups empty the cabinet; then all but three can be treated. */
  lemma LeavesThree(n: nat, m: nat) returns (t: State)
    requires m >= 1 && (n == 7 || n >= 9)
    ensures Reaches(Start(n, m), t, true) && Between(t, n, m, 3) && t.shared.medicine == 0 && t.history.missed == 0
  {
    var s := Start(n, m);
    var s1 := TwoFewer(s, n, m, n);
    var s2 := TwoFewer(s1, n, m, n - 2);
    t := DownToThree(s2, n, m, n - 4);
    Chain(s, s1, s2, true);
    Chain(s, s2, t, true);
  }

  lemma FinishReachableAlert(n: nat, m: nat) returns (t: State)
    requires n == 0 || (m >= 1 && (n == 7 || n >= 9))
    ensures Reaches(Start(n, m), t, true) && t.main.MAllServed?
  {
    var s := Start(n, m);
    if n == 0 {
      t := Closes(s, n, m, true);
    } else {
      var s1 := LeavesThree(n, m);
      var s2 := LastThree(s1, n, m, true);
      t := Closes(s2, n, m, true);
      Chain(s, s1, s2, true);
      Chain(s, s2, t, true);
    }
  }

  /** For the numbers that do not come out somebody is unconsulted in every state. */
  lemma SomebodyStranded(n: nat, m: nat, states: seq<State>, actions: seq<Action>, k: nat)
    requires IsRun(n, m, states, actions) && NoSpuriousWakeups(states, actions) && k < |states|
    requires n > 0 && (m == 0 || n <= 6 || n == 8)
    ensures exists i: nat :: Unconsulted(states[k], i)
  {
    if m == 0 {
      NoPharmacistsNeverFinish(n, states, actions, k);
    } else {
      AlwaysStranded(n, m, states, actions, k);
      var i: nat :| i in Left(states[k]);
    }
  }

  /** If nobody ever wakes by chance, the closing line can be reached for exactly these numbers: one to
      six patients, or eight, are never all treated, whatever the number of pharmacists. */
  lemma FinishesAlertExactly(n: nat, m: nat)
    ensures (exists states: seq<State>, actions: seq<Action> ::
               IsRun(n, m, states, actions) && NoSpuriousWakeups(states, actions) &&
               states[|actions|].main.MAllServed?) <==>
            n == 0 || (m >= 1 && (n == 7 || n >= 9))
  {
    if n == 0 || (m >= 1 && (n == 7 || n >= 9)) {
      var t := FinishReachableAlert(n, m);
      var states, actions := RunReaching(n, m, t, true);
    } else {
      forall states: seq<State>, actions: seq<Action> |
        IsRun(n, m, states, actions) && NoSpuriousWakeups(states, actions)
        ensures !states[|actions|].main.MAllServed?
      {
        SomebodyStranded(n, m, states, actions, |actions|);
        RunInv(n, m, states, actions, |actions|);
        var i: nat :| Unconsulted(states[|actions|], i);
        UnconsultedHoldsMain(states[|actions|], i);
      }
    }
  }
}
