/**
 Which states of the hospital lead to which others, step by step and by a few longer moves that
 the runs of the other modules are put together from.
 */
module HospitalReach {
  import opened HospitalModel

  /** Thread a is blocked and nothing has signalled it. */
  predicate Asleep(s: State, a: Action) {
    match a
    case Doctor => s.doctor == DBlocked(false)
    case Patient(i) => i < |s.patients| && s.patients[i].PWaiting? && !s.patients[i].signalled
    case Pharmacist(j) => j < |s.pharmacists| && s.pharmacists[j] in {FAwaitShortage(false), FAwaitDelivery(false)}
    case Main => false
  }

  /** The actions take s to t; without spurious wakeups if `alert`. */
  predicate Leads(s: State, actions: seq<Action>, t: State, alert: bool)
    decreases |actions|
  {
    if actions == [] then s == t
    else
      && InBounds(s.shared) && Enabled(s, actions[0])
      && (alert ==> !Asleep(s, actions[0]))
      && Leads(Apply(s, actions[0]), actions[1..], t, alert)
  }

  ghost predicate Reaches(s: State, t: State, alert: bool) {
    exists actions :: Leads(s, actions, t, alert)
  }

  lemma Stay(s: State, alert: bool)
    ensures Reaches(s, s, alert)
  {
    assert Leads(s, [], s, alert);
  }

  lemma Move(s: State, a: Action, alert: bool)
    requires InBounds(s.shared) && Enabled(s, a) && (alert ==> !Asleep(s, a))
    ensures Reaches(s, Apply(s, a), alert)
  {
    var t := Apply(s, a);
    assert Leads(t, [], t, alert);
    assert [a][1..] == [];
    assert Leads(s, [a], t, alert);
  }

  lemma {:induction false} LeadsOn(s: State, first: seq<Action>, t: State, second: seq<Action>, u: State, alert: bool)
    requires Leads(s, first, t, alert) && Leads(t, second, u, alert)
    ensures Leads(s, first + second, u, alert)
    decreases |first|
  {
    hide Apply;
    hide Enabled;
    hide Asleep;
    if first == [] {
      assert first + second == second;
    } else {
      LeadsOn(Apply(s, first[0]), first[1..], t, second, u, alert);
      assert (first + second)[1..] == first[1..] + second;
    }
  }

  lemma Chain(s: State, t: State, u: State, alert: bool)
    requires Reaches(s, t, alert) && Reaches(t, u, alert)
    ensures Reaches(s, u, alert)
  {
    var first :| Leads(s, first, t, alert);
    var second :| Leads(t, second, u, alert);
    LeadsOn(s, first, t, second, u, alert);
  }

  lemma {:induction false} LeadsAnyway(s: State, actions: seq<Action>, t: State)
    requires Leads(s, actions, t, true)
    ensures Leads(s, actions, t, false)
    decreases |actions|
  {
    if actions != [] {
      LeadsAnyway(Apply(s, actions[0]), actions[1..], t);
    }
  }

  /** What can be reached without spurious wakeups can be reached. */
  lemma AlertOrNot(s: State, t: State, alert: bool)
    requires Reaches(s, t, true)
    ensures Reaches(s, t, alert)
  {
    var actions :| Leads(s, actions, t, true);
    LeadsAnyway(s, actions, t);
  }

  ghost predicate NoSpuriousWakeups(states: seq<State>, actions: seq<Action>)
    requires |states| == |actions| + 1
  {
    forall k :: 0 <= k < |actions| ==> !Asleep(states[k], actions[k])
  }

  /** What a run leads to is the end of a longer run. */
  lemma {:induction false} ExtendRun(n: nat, m: nat, states: seq<State>, actions: seq<Action>, more: seq<Action>,
                                     t: State, alert: bool)
    returns (allStates: seq<State>, allActions: seq<Action>)
    requires IsRun(n, m, states, actions) && Leads(states[|actions|], more, t, alert)
    requires alert ==> NoSpuriousWakeups(states, actions)
    ensures IsRun(n, m, allStates, allActions) && allStates[|allActions|] == t
    ensures alert ==> NoSpuriousWakeups(allStates, allActions)
    decreases |more|
  {
    if more == [] {
      allStates, allActions := states, actions;
    } else {
      var s := states[|actions|];
      var next := Apply(s, more[0]);
      allStates, allActions := ExtendRun(n, m, states + [next], actions + [more[0]], more[1..], t, alert);
    }
  }

  lemma RunReaching(n: nat, m: nat, t: State, alert: bool)
    returns (states: seq<State>, actions: seq<Action>)
    requires Reaches(Start(n, m), t, alert)
    ensures IsRun(n, m, states, actions) && states[|actions|] == t
    ensures alert ==> NoSpuriousWakeups(states, actions)
  {
    var more :| Leads(Start(n, m), more, t, alert);
    states, actions := ExtendRun(n, m, [Start(n, m)], [], more, t, alert);
  }

  /** Some run, without spurious wakeups if `alert`, ends in such a state. */
  ghost predicate SomeRunEndsIn(n: nat, m: nat, alert: bool, goal: State -> bool) {
    exists states: seq<State>, actions: seq<Action> ::
      IsRun(n, m, states, actions) && (alert ==> NoSpuriousWakeups(states, actions)) && goal(states[|actions|])
  }

  lemma RunEndsIn(n: nat, m: nat, alert: bool, t: State, goal: State -> bool)
    requires Reaches(Start(n, m), t, alert) && goal(t)
    ensures SomeRunEndsIn(n, m, alert, goal)
  {
    var states, actions := RunReaching(n, m, t, alert);
  }

  // ------------------------------------------------- what one thread can do

  /** The room is empty, nobody waits for anything, and the doctor is about to look around. */
  predicate Calm(s: State) {
    && InBounds(s.shared) && s.shared.inHospital == 0 && !s.shared.pharmacistWaiting && s.shared.doctorSleeping
    && s.doctor.DReadRemaining? && |s.history.seatedAt| == |s.patients|
    && forall i :: 0 <= i < |s.patients| ==> !s.patients[i].PWaiting?
  }

  /** The history may have grown, but no decrement was skipped. */
  predicate SameMisses(s: State, t: State) {
    t.history.missed == s.history.missed && |t.history.seatedAt| == |s.history.seatedAt|
  }

  predicate Walking(s: State, i: nat) {
    HasTurn(s, i) && s.patients[i] == PReadRemaining(false)
  }

  /** A walking patient takes a free seat; it waits there unless it is the third while stock suffices. */
  lemma SitsDown(s: State, i: nat, alert: bool) returns (t: State)
    requires InBounds(s.shared) && Walking(s, i) && TakesSeat(s.shared) && !s.doctor.DBlocked?
    ensures Reaches(s, t, alert) && SameMisses(s, t)
    ensures t == s.(shared := SitDown(s.shared, i + 1), history := t.history, patients := s.patients[i :=
      if CallsDoctor(s.shared) then PReadRemaining(false) else PWaiting(s.shared.inHospital, false)])
  {
    var s1 := Apply(s, Patient(i));
    t := Apply(s1, Patient(i));
    Move(s, Patient(i), alert);
    Move(s1, Patient(i), alert);
    Chain(s, s1, t, alert);
    assert s.patients[i := PAtLock][i := t.patients[i]] == s.patients[i := t.patients[i]];
  }

  /** A patient woken by nobody, while three sit and stock suffices, gets up and roams. */
  lemma GetsUp(s: State, i: nat) returns (t: State)
    requires InBounds(s.shared) && HasTurn(s, i) && s.patients[i].PWaiting?
    requires ConsultationReady(s.shared) && i + 1 in s.shared.slots
    ensures Reaches(s, t, false) && SameMisses(s, t)
    ensures t == s.(patients := s.patients[i := PReadRemaining(false)], history := t.history)
  {
    assert s.shared.slots[0..3] == s.shared.slots;
    t := Apply(s, Patient(i));
    Move(s, Patient(i), false);
  }

  /** A consulted patient that wakes while nobody sits counts itself and goes home. */
  lemma GoesHome(s: State, i: nat, alert: bool) returns (t: State)
    requires InBounds(s.shared) && HasTurn(s, i) && s.patients[i].PWaiting? && s.patients[i].position < 3
    requires s.shared.inHospital == 0 && s.patients[i].signalled
    ensures Reaches(s, t, alert) && SameMisses(s, t)
    ensures t == s.(shared := s.shared.(remaining := s.shared.remaining - 1), history := t.history,
                    patients := s.patients[i := PDone(true)])
  {
    var s1 := Apply(s, Patient(i));
    t := Apply(s1, Patient(i));
    Move(s, Patient(i), alert);
    Move(s1, Patient(i), alert);
    Chain(s, s1, t, alert);
    assert s.patients[i := PReadRemaining(true)][i := PDone(true)] == s.patients[i := PDone(true)];
  }

  lemma ThreeDoctorSteps(s: State, alert: bool) returns (t: State)
    requires InBounds(s.shared) && s.doctor.DReadRemaining? && s.shared.remaining > 0
    requires ConsultationReady(s.shared) || DeliveryReady(s.shared)
    ensures Reaches(s, t, alert) && t == DoctorStep(DoctorStep(DoctorStep(s)))
  {
    var s1 := Apply(s, Doctor);
    var s2 := Apply(s1, Doctor);
    t := Apply(s2, Doctor);
    Move(s, Doctor, alert);
    Move(s1, Doctor, alert);
    Move(s2, Doctor, alert);
    Chain(s, s1, s2, alert);
    Chain(s, s2, t, alert);
  }

  /** The doctor, awake, holds a consultation. */
  lemma Consults(s: State, alert: bool) returns (t: State)
    requires InBounds(s.shared) && s.doctor.DReadRemaining? && s.shared.remaining > 0 && ConsultationReady(s.shared)
    ensures Reaches(s, t, alert) && SameMisses(s, t)
    ensures t == s.(shared := FinishConsultation(s.shared), patients := BroadcastPatients(s.patients),
                    history := t.history)
  {
    t := ThreeDoctorSteps(s, alert);
  }

  /** The doctor, awake, takes a delivery. */
  lemma TakesDelivery(s: State, alert: bool) returns (t: State)
    requires InBounds(s.shared) && s.doctor.DReadRemaining? && s.shared.remaining > 0 && DeliveryReady(s.shared)
    ensures Reaches(s, t, alert) && SameMisses(s, t) && t.history.deliveries == s.history.deliveries + 1
    ensures t == s.(shared := FinishDelivery(s.shared), pharmacists := BroadcastPharmacists(s.pharmacists),
                    history := t.history)
  {
    t := ThreeDoctorSteps(s, alert);
  }

  /** The doctor finds nothing to do and goes to sleep. */
  lemma FallsAsleep(s: State, alert: bool) returns (t: State)
    requires InBounds(s.shared) && s.doctor.DReadRemaining? && s.shared.remaining > 0 && s.shared.doctorSleeping
    requires !ConsultationReady(s.shared) && !DeliveryReady(s.shared)
    ensures Reaches(s, t, alert) && t == s.(doctor := DBlocked(false))
  {
    var s1 := Apply(s, Doctor);
    t := Apply(s1, Doctor);
    Move(s, Doctor, alert);
    Move(s1, Doctor, alert);
    Chain(s, s1, t, alert);
  }

  /** A pharmacist arrives: it offers a delivery to an empty cabinet, or waits for a shortage. */
  lemma Arrives(s: State, j: nat, alert: bool) returns (t: State)
    requires InBounds(s.shared) && j < |s.pharmacists| && s.pharmacists[j].FReadRemaining? && !s.doctor.DBlocked?
    requires s.shared.remaining > 0
    ensures Reaches(s, t, alert)
    ensures t == if s.shared.medicine < PER_CONSULTATION
      then s.(shared := Offer(s.shared, j + 1), pharmacists := s.pharmacists[j := FAwaitDelivery(false)])
      else s.(pharmacists := s.pharmacists[j := FAwaitShortage(false)])
  {
    var s1 := Apply(s, Pharmacist(j));
    t := Apply(s1, Pharmacist(j));
    Move(s, Pharmacist(j), alert);
    Move(s1, Pharmacist(j), alert);
    Chain(s, s1, t, alert);
    assert s.pharmacists[j := FAtLock][j := t.pharmacists[j]] == s.pharmacists[j := t.pharmacists[j]];
  }

  /** A pharmacist whose delivery was taken starts over. */
  lemma StartsOver(s: State, j: nat, alert: bool) returns (t: State)
    requires InBounds(s.shared) && j < |s.pharmacists| && s.pharmacists[j] == FAwaitDelivery(true)
    requires !s.shared.pharmacistWaiting
    ensures Reaches(s, t, alert) && t == s.(pharmacists := s.pharmacists[j := FReadRemaining])
  {
    t := Apply(s, Pharmacist(j));
    Move(s, Pharmacist(j), alert);
  }

  /** A pharmacist comes to an empty cabinet and has it filled by half. */
  lemma RestocksOnce(s: State, j: nat, alert: bool) returns (t: State)
    requires InBounds(s.shared) && s.doctor.DReadRemaining? && s.shared.remaining > 0 && s.shared.medicine == 0
    requires s.shared.doctorSleeping && !s.shared.pharmacistWaiting && j < |s.pharmacists|
    requires forall l :: 0 <= l < |s.pharmacists| ==> s.pharmacists[l] == FReadRemaining
    ensures Reaches(s, t, alert) && SameMisses(s, t)
    ensures t == s.(shared := s.shared.(medicine := 3, waitingPharmacist := j + 1), history := t.history)
  {
    var s1 := Arrives(s, j, alert);
    var s2 := TakesDelivery(s1, alert);
    t := StartsOver(s2, j, alert);
    Chain(s, s1, s2, alert);
    Chain(s, s2, t, alert);
    assert t.pharmacists == s.pharmacists;
  }

  // ------------------------------------------------------ what three can do

  predicate WalkingTrio(s: State, a: nat, b: nat, c: nat) {
    && a != b && b != c && a != c
    && Walking(s, a) && Walking(s, b) && Walking(s, c)
  }

  /** Three patients fill the empty room. */
  lemma ThreeSit(s: State, a: nat, b: nat, c: nat, alert: bool) returns (t: State)
    requires Calm(s) && WalkingTrio(s, a, b, c) && s.shared.remaining > 0
    ensures Reaches(s, t, alert) && SameMisses(s, t)
    ensures t == s.(
      shared := s.shared.(inHospital := 3, slots := [a + 1, b + 1, c + 1],
                          doctorSleeping := s.shared.medicine < PER_CONSULTATION),
      patients := s.patients[a := PWaiting(0, false)][b := PWaiting(1, false)][c :=
        if s.shared.medicine >= PER_CONSULTATION then PReadRemaining(false) else PWaiting(2, false)],
      history := t.history)
  {
    var s1 := SitsDown(s, a, alert);
    var s2 := SitsDown(s1, b, alert);
    t := SitsDown(s2, c, alert);
    Chain(s, s1, s2, alert);
    Chain(s, s2, t, alert);
    assert t.shared.slots == [a + 1, b + 1, c + 1];
  }

  /** While stock suffices a consultation releases the two that wait; the third has left its seat. */
  lemma ConsultsTwo(s: State, a: nat, b: nat, c: nat, alert: bool) returns (t: State)
    requires Calm(s) && WalkingTrio(s, a, b, c)
    requires s.shared.remaining > 0 && s.shared.medicine >= PER_CONSULTATION
    ensures Reaches(s, t, alert) && SameMisses(s, t) && InBounds(t.shared)
    ensures t == s.(
      shared := s.shared.(medicine := s.shared.medicine - PER_CONSULTATION, slots := [a + 1, b + 1, c + 1]),
      patients := s.patients[a := PWaiting(0, true)][b := PWaiting(1, true)],
      history := t.history)
  {
    var s1 := ThreeSit(s, a, b, c, alert);
    t := Consults(s1, alert);
    Chain(s, s1, t, alert);
    assert t.patients == s.patients[a := PWaiting(0, true)][b := PWaiting(1, true)];
  }

  lemma TreatsTwo(s: State, a: nat, b: nat, c: nat, alert: bool) returns (t: State)
    requires Calm(s) && WalkingTrio(s, a, b, c)
    requires s.shared.remaining > 0 && s.shared.medicine >= PER_CONSULTATION
    ensures Reaches(s, t, alert) && SameMisses(s, t) && Calm(t)
    ensures t.shared.medicine == s.shared.medicine - PER_CONSULTATION
    ensures t.shared.remaining == s.shared.remaining - 2
    ensures t == s.(shared := t.shared, patients := s.patients[a := PDone(true)][b := PDone(true)],
                    history := t.history)
  {
    var s1 := ConsultsTwo(s, a, b, c, alert);
    var s2 := GoesHome(s1, a, alert);
    t := GoesHome(s2, b, alert);
    Chain(s, s1, s2, alert);
    Chain(s, s2, t, alert);
    assert t.patients == s.patients[a := PDone(true)][b := PDone(true)];
  }

  /** If the two that wait are woken by nobody and get up, the consultation treats nobody. */
  lemma TreatsNobody(s: State, a: nat, b: nat, c: nat) returns (t: State)
    requires Calm(s) && WalkingTrio(s, a, b, c)
    requires s.shared.remaining > 0 && s.shared.medicine >= PER_CONSULTATION
    ensures Reaches(s, t, false) && SameMisses(s, t) && Calm(t)
    ensures t.shared.medicine == s.shared.medicine - PER_CONSULTATION && t.shared.remaining == s.shared.remaining
    ensures t == s.(shared := t.shared, history := t.history)
  {
    var s1 := ThreeSit(s, a, b, c, false);
    var s2 := GetsUp(s1, a);
    var s3 := GetsUp(s2, b);
    t := Consults(s3, false);
    Chain(s, s1, s2, false);
    Chain(s, s2, s3, false);
    Chain(s, s3, t, false);
    assert t.patients == s.patients;
  }

  /** Three sit down to an empty cabinet, so that all of them wait, and pharmacist j restocks. */
  lemma ThreeWait(s: State, a: nat, b: nat, c: nat, j: nat, alert: bool) returns (t: State)
    requires Calm(s) && WalkingTrio(s, a, b, c) && s.shared.remaining > 0 && s.shared.medicine == 0
    requires j < |s.pharmacists| && forall l :: 0 <= l < |s.pharmacists| ==> s.pharmacists[l] == FReadRemaining
    ensures Reaches(s, t, alert) && SameMisses(s, t)
    ensures t == s.(
      shared := s.shared.(inHospital := 3, medicine := 3, slots := [a + 1, b + 1, c + 1], waitingPharmacist := j + 1),
      patients := s.patients[a := PWaiting(0, false)][b := PWaiting(1, false)][c := PWaiting(2, false)],
      history := t.history)
  {
    var s1 := ThreeSit(s, a, b, c, alert);
    t := RestocksOnce(s1, j, alert);
    Chain(s, s1, t, alert);
  }

  /** A group that waited for the stock is released as a whole. */
  lemma ConsultsThree(s: State, a: nat, b: nat, c: nat, j: nat, alert: bool) returns (t: State)
    requires Calm(s) && WalkingTrio(s, a, b, c) && s.shared.remaining > 0 && s.shared.medicine == 0
    requires j < |s.pharmacists| && forall l :: 0 <= l < |s.pharmacists| ==> s.pharmacists[l] == FReadRemaining
    ensures Reaches(s, t, alert) && SameMisses(s, t)
    ensures t == s.(
      shared := s.shared.(slots := [a + 1, b + 1, c + 1], waitingPharmacist := j + 1),
      patients := s.patients[a := PWaiting(0, true)][b := PWaiting(1, true)][c := PWaiting(2, true)],
      history := t.history)
  {
    var s1 := ThreeWait(s, a, b, c, j, alert);
    t := Consults(s1, alert);
    Chain(s, s1, t, alert);
    assert t.patients == s.patients[a := PWaiting(0, true)][b := PWaiting(1, true)][c := PWaiting(2, true)];
  }

  /** If two of the three get up again, one is treated. */
  lemma ConsultsOne(s: State, a: nat, b: nat, c: nat, j: nat) returns (t: State)
    requires Calm(s) && WalkingTrio(s, a, b, c) && s.shared.remaining > 0 && s.shared.medicine == 0
    requires j < |s.pharmacists| && forall l :: 0 <= l < |s.pharmacists| ==> s.pharmacists[l] == FReadRemaining
    ensures Reaches(s, t, false) && SameMisses(s, t)
    ensures t == s.(
      shared := s.shared.(slots := [a + 1, b + 1, c + 1], waitingPharmacist := j + 1),
      patients := s.patients[a := PWaiting(0, true)],
      history := t.history)
  {
    var s1 := ThreeWait(s, a, b, c, j, false);
    var s2 := GetsUp(s1, b);
    var s3 := GetsUp(s2, c);
    t := Consults(s3, false);
    Chain(s, s1, s2, false);
    Chain(s, s2, s3, false);
    Chain(s, s3, t, false);
    assert t.patients == s.patients[a := PWaiting(0, true)];
  }
}
