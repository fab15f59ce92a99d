/**
 The states in which the hospital comes to rest. No thread can move without a spurious wakeup
 exactly when the program has finished or one of four named situations holds.
 */
module HospitalDeadlock {
  import opened Sequences
  import opened HospitalModel
  import opened HospitalInvariant
  import opened HospitalTheorems
  import opened HospitalReach

  ghost predicate Stuck(s: State) {
    forall a: Action :: Enabled(s, a) ==> Asleep(s, a)
  }

  predicate PharmacistsAtRest(s: State) {
    forall j :: 0 <= j < |s.pharmacists| ==> s.pharmacists[j] in {FAwaitShortage(false), FAwaitDelivery(false), FDone}
  }

  /** Every patient has gone home treated or sits in a slot, asleep; at least one sits. */
  predicate PatientsLeftSeated(s: State)
    requires InBounds(s.shared)
  {
    && s.main.MJoinPatients? && s.main.next < |s.patients| && s.patients[s.main.next].PWaiting?
    && forall i :: 0 <= i < |s.patients| ==>
         s.patients[i] == PDone(true) || (s.patients[i].PWaiting? && !s.patients[i].signalled && Seated(s, i))
  }

  /** Too few patients are left to fill the three slots. */
  predicate TooFewPatients(s: State)
    requires InBounds(s.shared)
  {
    PatientsLeftSeated(s) && s.shared.inHospital < 3 && s.doctor == DBlocked(false) && PharmacistsAtRest(s)
  }

  /** Three patients wait, the cabinet is empty, and every pharmacist sleeps in the loop that
      waits for it to run low: the consultation that emptied it did not wake them. */
  predicate ShortageUnnoticed(s: State)
    requires InBounds(s.shared)
  {
    && PatientsLeftSeated(s) && s.shared.inHospital == 3 && s.shared.medicine == 0 && s.doctor == DBlocked(false)
    && forall j :: 0 <= j < |s.pharmacists| ==> s.pharmacists[j] == FAwaitShortage(false)
  }

  /** Everybody is treated but the counter kept the patients whose decrement was skipped. */
  predicate DecrementLost(s: State) {
    && s.main.MJoinDoctor? && s.doctor == DBlocked(false) && PharmacistsAtRest(s)
    && (forall i :: 0 <= i < |s.patients| ==> s.patients[i] == PDone(true))
    && s.shared.remaining == s.history.missed > 0
  }

  /** The doctor left while a pharmacist's offer was standing. */
  predicate OfferAbandoned(s: State) {
    && s.main.MJoinPharmacists? && s.main.next < |s.pharmacists| && s.pharmacists[s.main.next] == FAwaitDelivery(false)
    && s.doctor.DDone? && PharmacistsAtRest(s) && s.shared.medicine == 0
    && forall i :: 0 <= i < |s.patients| ==> s.patients[i] == PDone(true)
  }

  lemma StuckThreads(s: State)
    requires Inv(s) && Stuck(s)
    ensures s.doctor == DBlocked(false) || s.doctor.DDone?
    ensures PharmacistsAtRest(s) && !MainReady(s)
    ensures forall i :: 0 <= i < |s.patients| ==>
      s.patients[i] == PDone(true) || (s.patients[i].PWaiting? && !s.patients[i].signalled && Seated(s, i))
  {
    assert Enabled(s, Doctor) ==> Asleep(s, Doctor);
    assert !Enabled(s, Main);
    forall i: nat | i < |s.patients|
      ensures s.patients[i] == PDone(true) || (s.patients[i].PWaiting? && !s.patients[i].signalled && Seated(s, i))
    {
      assert PatientOk(s, i);
      assert Enabled(s, Patient(i)) ==> Asleep(s, Patient(i));
    }
    forall j: nat | j < |s.pharmacists|
      ensures s.pharmacists[j] in {FAwaitShortage(false), FAwaitDelivery(false), FDone}
    {
      assert Enabled(s, Pharmacist(j)) ==> Asleep(s, Pharmacist(j));
    }
  }

  /** While patients are left, a hang is a lack of patients or an unnoticed shortage. */
  lemma StuckWithPatients(s: State)
    requires Inv(s) && Stuck(s) && s.main.MJoinPatients?
    ensures TooFewPatients(s) || ShortageUnnoticed(s)
  {
    StuckThreads(s);
    UntreatedCounted(s, s.main.next);
    assert s.doctor == DBlocked(false);
  }

  lemma SeatedIsUntreated(s: State, i: nat)
    requires Inv(s) && i < |s.patients| && Seated(s, i)
    ensures IsUntreated(s.patients[i])
  {
    assert PatientOk(s, i);
  }

  /** Once all patients are treated nobody occupies a slot. */
  lemma AllTreatedEmptiesSlots(s: State)
    requires Inv(s) && forall i :: 0 <= i < |s.patients| ==> s.patients[i] == PDone(true)
    ensures s.shared.inHospital == 0 && s.shared.remaining == s.history.missed
  {
    if s.shared.inHospital > 0 {
      var i := s.shared.slots[0] - 1;
      assert s.shared.slots[..s.shared.inHospital][0] == i + 1;
      SeatedIsUntreated(s, i);
      assert false;
    }
    CountSame(s.patients, seq(|s.patients|, _ => PDone(true)), IsUntreated);
    CountConstant(|s.patients|, PDone(true), IsUntreated);
  }

  lemma StuckWithoutPatients(s: State)
    requires Inv(s) && Stuck(s) && !s.main.MJoinPatients?
    ensures s.main.MAllServed? || DecrementLost(s) || OfferAbandoned(s)
  {
    StuckThreads(s);
    AllTreatedEmptiesSlots(s);
  }

  /** The hospital is at rest exactly when it has finished or hangs in one of the four ways. */
  lemma StuckExactly(n: nat, m: nat, states: seq<State>, actions: seq<Action>, k: nat)
    requires IsRun(n, m, states, actions) && k < |states|
    ensures InBounds(states[k].shared)
    ensures Stuck(states[k]) <==>
      var s := states[k];
      s.main.MAllServed? || TooFewPatients(s) || ShortageUnnoticed(s) || DecrementLost(s) || OfferAbandoned(s)
  {
    RunInv(n, m, states, actions, k);
    var s := states[k];
    if Stuck(s) {
      if s.main.MJoinPatients? {
        StuckWithPatients(s);
      } else {
        StuckWithoutPatients(s);
      }
    }
  }

  lemma GroupNeedsThree(g: seq<int>, n: nat)
    requires |g| == 3 && Ids(g, n)
    ensures n >= 3
  {
    assert g[0] != g[1] && g[1] != g[2] && g[0] != g[2];
  }

  /** One or two patients are never consulted, so the program never finishes. */
  lemma FewPatientsNeverFinish(n: nat, m: nat, states: seq<State>, actions: seq<Action>, k: nat)
    requires IsRun(n, m, states, actions) && k < |states| && 1 <= n <= 2
    ensures states[k].history.groups == [] && !states[k].main.MAllServed?
  {
    RunInv(n, m, states, actions, k);
    var groups := states[k].history.groups;
    if groups != [] {
      GroupNeedsThree(groups[0], n);
      assert false;
    }
    if states[k].main.MAllServed? {
      AllServedMeansAllTreated(n, m, states, actions, k);
    }
  }
}
