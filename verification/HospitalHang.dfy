/** Runs in which the hospital hangs while patients are left: nobody brings medicine, or too few are left. */
module HospitalHang {
  import opened Sequences
  import opened HospitalModel
  import opened HospitalInvariant
  import opened HospitalTheorems
  import opened HospitalReach
  import opened HospitalShortage
  import opened HospitalDeadlock
  import opened HospitalFinish
  import opened HospitalLuck

  // ------------------------------------------------- the unnoticed shortage

  /** Three patients wait for a doctor who sleeps, and nobody who could bring medicine knows. */
  ghost predicate ThreeForgotten(s: State) {
    s.shared.inHospital == 3 && s.doctor == DBlocked(false) && Abandoned(s)
  }

  /** While stock lasts the pharmacists arrive and lie down to wait for a shortage. */
  lemma {:induction false} PharmacistsLieDown(s: State, j: nat, alert: bool) returns (t: State)
    requires InBounds(s.shared) && s.shared.remaining > 0 && s.shared.medicine >= PER_CONSULTATION
    requires j <= |s.pharmacists| && !s.doctor.DBlocked?
    requires forall l :: 0 <= l < j ==> s.pharmacists[l] == FAwaitShortage(false)
    requires forall l :: j <= l < |s.pharmacists| ==> s.pharmacists[l] == FReadRemaining
    ensures Reaches(s, t, alert) && t == s.(pharmacists := t.pharmacists)
    ensures |t.pharmacists| == |s.pharmacists|
    ensures forall l :: 0 <= l < |t.pharmacists| ==> t.pharmacists[l] == FAwaitShortage(false)
    decreases |s.pharmacists| - j
  {
    if j == |s.pharmacists| {
      t := s;
      Stay(s, alert);
    } else {
      var s1 := Arrives(s, j, alert);
      t := PharmacistsLieDown(s1, j + 1, alert);
      Chain(s, s1, t, alert);
    }
  }

  /** Three more patients come to the empty cabinet. */
  lemma ForgetsThree(s: State, a: nat, b: nat, c: nat, alert: bool) returns (t: State)
    requires Calm(s) && WalkingTrio(s, a, b, c) && s.shared.remaining > 0 && s.shared.medicine == 0
    requires forall l :: 0 <= l < |s.pharmacists| ==> s.pharmacists[l] == FAwaitShortage(false)
    ensures Reaches(s, t, alert) && ThreeForgotten(t)
    ensures t.shared.slots == [a + 1, b + 1, c + 1] && t.shared.medicine == 0
    ensures t == s.(shared := t.shared, doctor := DBlocked(false), history := t.history,
                    patients := s.patients[a := PWaiting(0, false)][b := PWaiting(1, false)][c := PWaiting(2, false)])
  {
    var s1 := ThreeSit(s, a, b, c, alert);
    t := FallsAsleep(s1, alert);
    Chain(s, s1, t, alert);
    assert t.shared.slots[..3][0] == a + 1;
    assert Unconsulted(t, a);
  }

  lemma ForgottenReachable(n: nat, m: nat) returns (t: State)
    requires n >= 7
    ensures Reaches(Start(n, m), t, true) && ThreeForgotten(t)
    ensures t.shared.slots == [5, 6, 7] && t.shared.medicine == 0 && t.main == MJoinPatients(0)
    ensures t.patients == seq(n, i => if i < 4 then PDone(true) else if i < 7 then PWaiting(i - 4, false)
                                      else PReadRemaining(false))
  {
    var s := Start(n, m);
    var s1 := PharmacistsLieDown(s, 0, true);
    var s2 := TreatsTwo(s1, 0, 1, 2, true);
    var s3 := TreatsTwo(s2, 2, 3, 4, true);
    t := ForgetsThree(s3, 4, 5, 6, true);
    Chain(s, s1, s2, true);
    Chain(s, s2, s3, true);
    Chain(s, s3, t, true);
    assert t.patients == seq(n, i => if i < 4 then PDone(true) else if i < 7 then PWaiting(i - 4, false)
                                     else PReadRemaining(false));
  }

  /** Seven patients are enough for it to happen without a single spurious wakeup: two groups empty the
      cabinet behind the backs of the pharmacists, and the next group waits for ever. */
  lemma ShortageHangs(n: nat, m: nat)
    requires n >= 7
    ensures exists states: seq<State>, actions: seq<Action> ::
              IsRun(n, m, states, actions) && NoSpuriousWakeups(states, actions) && ThreeForgotten(states[|actions|])
  {
    var t := ForgottenReachable(n, m);
    var states, actions := RunReaching(n, m, t, true);
  }

  /** Fewer do not get there: by then only two are left. */
  lemma FewAreNotForgotten(n: nat, m: nat, states: seq<State>, actions: seq<Action>, k: nat)
    requires IsRun(n, m, states, actions) && NoSpuriousWakeups(states, actions) && k < |states| && n <= 6
    ensures !ThreeForgotten(states[k])
  {
    var s := states[k];
    RunInv(n, m, states, actions, k);
    if n > 0 && ThreeForgotten(s) {
      AlwaysStranded(n, m, states, actions, k);
      SlotSeated(s, 0);
      SlotSeated(s, 1);
      SlotSeated(s, 2);
      GroupDistinct(s);
      var group := {PatientAt(s, 0) as int, PatientAt(s, 1) as int, PatientAt(s, 2) as int};
      assert group <= Left(s);
      SubsetSize(group, Left(s));
      assert false;
    }
  }

  /** If there are no more than seven, everything then comes to rest. */
  lemma ShortageUnnoticedHappens(m: nat)
    ensures exists states: seq<State>, actions: seq<Action> ::
              IsRun(7, m, states, actions) && InBounds(states[|actions|].shared) && ShortageUnnoticed(states[|actions|])
  {
    var s := ForgottenReachable(7, m);
    var t := JoinsFirst(s, 4);
    Chain(Start(7, m), s, t, true);
    assert t.shared.slots[..3] == [5, 6, 7];
    forall j | 0 <= j < |t.pharmacists|
      ensures t.pharmacists[j] == FAwaitShortage(false)
    {
      assert Unaware(s, j);
    }
    var states, actions := RunReaching(7, m, t, true);
  }

  lemma {:induction false} JoinsFirst(s: State, goal: nat) returns (t: State)
    requires InBounds(s.shared) && s.main.MJoinPatients? && s.main.next <= goal <= |s.patients|
    requires forall i :: 0 <= i < goal ==> s.patients[i].PDone?
    ensures Reaches(s, t, true) && t == s.(main := MJoinPatients(goal))
    decreases goal - s.main.next
  {
    if s.main.next == goal {
      t := s;
      Stay(s, true);
    } else {
      var s1 := Apply(s, Main);
      Move(s, Main, true);
      t := JoinsFirst(s1, goal);
      Chain(s, s1, t, true);
    }
  }

  lemma ForgottenReachableByLuck(n: nat, m: nat) returns (t: State)
    requires n >= 3
    ensures Reaches(Start(n, m), t, false) && ThreeForgotten(t)
  {
    var s := Start(n, m);
    var s1 := PharmacistsLieDown(s, 0, false);
    var s2 := TreatsNobody(s1, 0, 1, 2);
    var s3 := TreatsNobody(s2, 0, 1, 2);
    t := ForgetsThree(s3, 0, 1, 2, false);
    Chain(s, s1, s2, false);
    Chain(s, s2, s3, false);
    Chain(s, s3, t, false);
  }

  lemma ForgottenAreThree(n: nat, m: nat, states: seq<State>, actions: seq<Action>, k: nat)
    requires IsRun(n, m, states, actions) && k < |states| && ThreeForgotten(states[k])
    ensures n >= 3
  {
    RunInv(n, m, states, actions, k);
    var slots := states[k].shared.slots;
    assert slots[..3] == slots;
    GroupNeedsThree(slots, n);
  }

  /** Three patients can be forgotten as soon as a group can form at all, and without spurious wakeups from
      seven patients on, whatever the number of pharmacists. */
  lemma ForgottenExactly(n: nat, m: nat)
    ensures SomeRunEndsIn(n, m, false, ThreeForgotten) <==> n >= 3
    ensures SomeRunEndsIn(n, m, true, ThreeForgotten) <==> n >= 7
  {
    if n >= 3 {
      var t := ForgottenReachableByLuck(n, m);
      RunEndsIn(n, m, false, t, ThreeForgotten);
    }
    if n >= 7 {
      var t := ForgottenReachable(n, m);
      RunEndsIn(n, m, true, t, ThreeForgotten);
    }
    forall states: seq<State>, actions: seq<Action> |
      IsRun(n, m, states, actions) && ThreeForgotten(states[|actions|])
      ensures n >= 3 && (NoSpuriousWakeups(states, actions) ==> n >= 7)
    {
      ForgottenAreThree(n, m, states, actions, |actions|);
      if NoSpuriousWakeups(states, actions) && n <= 6 {
        FewAreNotForgotten(n, m, states, actions, |actions|);
      }
    }
  }

  // ------------------------------------------------------- too few patients

  ghost predicate FewLeft(s: State) {
    InBounds(s.shared) && TooFewPatients(s)
  }

  /** The one or two that are left sit down, and nobody moves again. */
  lemma LastOnesSit(s: State, n: nat, m: nat, r: nat) returns (t: State)
    requires Calm(s) && 1 <= r <= 2 && r <= n && s.shared.remaining > 0 && s.main == MJoinPatients(0)
    requires s.patients == seq(n, i => if i < r then PReadRemaining(false) else PDone(true))
    requires forall l :: 0 <= l < |s.pharmacists| ==> s.pharmacists[l] == FAwaitShortage(false)
    ensures Reaches(s, t, true) && FewLeft(t)
  {
    var s1 := SitsDown(s, 0, true);
    var s2 := s1;
    Stay(s1, true);
    if r == 2 {
      s2 := SitsDown(s1, 1, true);
      assert s2.shared.slots[..2][1] == 2;
    }
    t := FallsAsleep(s2, true);
    Chain(s, s1, s2, true);
    Chain(s, s2, t, true);
    assert t.shared.slots[..r][0] == 1;
  }

  /** Rounds that treat two each, as long as stock lasts or can be had. */
  lemma {:induction false} DownToFew(s: State, n: nat, m: nat, r: nat) returns (t: State, left: nat)
    requires Between(s, n, m, r) && r >= 1 && s.shared.medicine in {0, 3, 6}
    requires m == 0 ==> r <= 2 + 2 * (s.shared.medicine / 3)
    ensures Reaches(s, t, true) && 1 <= left <= 2 && Between(t, n, m, left)
    ensures m > 0 ==> t.shared.medicine >= PER_CONSULTATION
    decreases r, 6 - s.shared.medicine
  {
    if s.shared.medicine == 0 && m > 0 {
      var s1 := RestocksOnce(s, 0, true);
      t, left := DownToFew(s1, n, m, r);
      Chain(s, s1, t, true);
    } else if r <= 2 {
      t, left := s, r;
      Stay(s, true);
    } else {
      var s1 := TwoFewer(s, n, m, r);
      t, left := DownToFew(s1, n, m, r - 2);
      Chain(s, s1, t, true);
    }
  }

  lemma FewLeftReachable(n: nat, m: nat) returns (t: State)
    requires n >= 1 && (m >= 1 || n <= 6)
    ensures Reaches(Start(n, m), t, true) && FewLeft(t)
  {
    var s := Start(n, m);
    var s1, left := DownToFew(s, n, m, n);
    var s2 := s1;
    Stay(s1, true);
    if m > 0 {
      s2 := PharmacistsLieDown(s1, 0, true);
    }
    t := LastOnesSit(s2, n, m, left);
    Chain(s, s1, s2, true);
    Chain(s, s2, t, true);
  }

  /** Without pharmacists there are two consultations at most, and each releases two patients at most. */
  ghost predicate TwoEach(s: State, n: nat) {
    s.history.deliveries == 0 && |Left(s)| + 2 * |s.history.groups| >= n
  }

  lemma StepTwoEach(s: State, a: Action, t: State, n: nat)
    requires Inv(s) && Step(s, a, t) && LeavesSomebody(s) && TwoEach(s, n)
    ensures TwoEach(t, n)
  {
    if a == Doctor && s.doctor.DConsulting? {
      ReleasesTwoAtMost(s);
    } else {
      SameLeft(s, a, t);
      assert !(a == Doctor && s.doctor.DDelivering?);
      OnlyDoctorDelivers(s, a, t);
    }
  }

  lemma OnlyDoctorDelivers(s: State, a: Action, t: State)
    requires Inv(s) && Step(s, a, t) && !(a == Doctor && s.doctor.DDelivering?)
    ensures t.history.deliveries == s.history.deliveries
  {
    if a.Pharmacist? {
      PharmacistEffect(s, a.j);
    }
    hide Inv;
  }

  lemma ReleasesTwoAtMost(s: State)
    requires Inv(s) && LeavesSomebody(s) && s.doctor.DConsulting?
    ensures |Left(DoctorStep(s))| + 2 >= |Left(s)|
    ensures |DoctorStep(s).history.groups| == |s.history.groups| + 1
    ensures DoctorStep(s).history.deliveries == s.history.deliveries
  {
    var t := DoctorStep(s);
    var roamer: nat :| Roams(s, roamer);
    var group := {PatientAt(s, 0), PatientAt(s, 1), PatientAt(s, 2)};
    forall i | i in Left(s) && i !in Left(t)
      ensures i in group - {roamer}
    {
      ReleasedWaits(s, i);
    }
    assert roamer in group by {
      assert s.shared.slots[..3] == s.shared.slots;
    }
    hide Inv;
    hide Left;
    hide Roams;
    assert Left(s) <= Left(t) + (group - {roamer});
    SubsetSize(Left(s), Left(t) + (group - {roamer}));
    assert |group - {roamer}| <= 2;
  }

  lemma ReleasedWaits(s: State, i: nat)
    requires Inv(s) && s.doctor.DConsulting? && Unconsulted(s, i) && !Unconsulted(DoctorStep(s), i)
    ensures s.patients[i].PWaiting? && (i == PatientAt(s, 0) || i == PatientAt(s, 1) || i == PatientAt(s, 2))
  {
    assert s.shared.slots[..3] == s.shared.slots;
    hide Inv;
  }

  lemma {:induction false} AlwaysTwoEach(n: nat, states: seq<State>, actions: seq<Action>, k: nat)
    requires IsRun(n, 0, states, actions) && k < |states| && n > 0
    ensures TwoEach(states[k], n)
  {
    if k == 0 {
      EverybodyLeft(n, 0);
    } else {
      AlwaysTwoEach(n, states, actions, k - 1);
      AlwaysLeavesSomebody(n, states, actions, k - 1);
      RunInv(n, 0, states, actions, k - 1);
      assert Step(states[k - 1], actions[k - 1], states[k]);
      hide Step;
      hide Inv;
      hide LeavesSomebody;
      hide TwoEach;
      StepTwoEach(states[k - 1], actions[k - 1], states[k], n);
    }
  }

  /** When only seated patients are left, fewer than three, they are all that is left. */
  lemma FewAreTwo(s: State)
    requires Inv(s) && FewLeft(s)
    ensures |Left(s)| <= 2
  {
    var few := {PatientAt(s, 0), PatientAt(s, 1)};
    forall i | i in Left(s)
      ensures i in few
    {
      assert i + 1 in s.shared.slots[..s.shared.inHospital];
    }
    SubsetSize(Left(s), few);
  }

  /** The hospital can hang with one or two patients left exactly if there is a patient and there are
      pharmacists or at most six patients; a spurious wakeup is never needed. */
  lemma TooFewExactly(n: nat, m: nat, alert: bool)
    ensures SomeRunEndsIn(n, m, alert, FewLeft) <==> n >= 1 && (m >= 1 || n <= 6)
  {
    if n >= 1 && (m >= 1 || n <= 6) {
      var t := FewLeftReachable(n, m);
      AlertOrNot(Start(n, m), t, alert);
      RunEndsIn(n, m, alert, t, FewLeft);
    }
    forall states: seq<State>, actions: seq<Action> | IsRun(n, m, states, actions) && FewLeft(states[|actions|])
      ensures n >= 1 && (m >= 1 || n <= 6)
    {
      RunInv(n, m, states, actions, |actions|);
      if m == 0 && n >= 1 {
        AlwaysTwoEach(n, states, actions, |actions|);
        FewAreTwo(states[|actions|]);
      }
    }
  }
}
