/** What every step of the hospital keeps. */
module HospitalInvariant {
  import opened Sequences
  import opened HospitalModel

  predicate IsUntreated(p: PatientPc) {
    p != PReadRemaining(true) && p != PDone(true)
  }

  function Untreated(s: State): nat {
    Count(s.patients, IsUntreated)
  }

  /** Patient i occupies one of the slots in use. */
  predicate Seated(s: State, i: nat)
    requires InBounds(s.shared)
  {
    i + 1 in s.shared.slots[..s.shared.inHospital]
  }

  predicate Ids(ids: seq<int>, n: nat) {
    Distinct(ids) && forall a :: 0 <= a < |ids| ==> 1 <= ids[a] <= n
  }

  /** Patient i was in the consultation that ended after it last sat down. */
  predicate Consulted(s: State, i: nat)
    requires i < |s.history.seatedAt|
  {
    s.history.seatedAt[i] < |s.history.groups| && i + 1 in s.history.groups[s.history.seatedAt[i]]
  }

  predicate Shape(s: State) {
    && InBounds(s.shared)
    && |s.history.seatedAt| == |s.patients|
    && Ids(s.shared.slots[..s.shared.inHospital], |s.patients|)
    && (forall g :: 0 <= g < |s.history.groups| ==>
          |s.history.groups[g]| == 3 && Ids(s.history.groups[g], |s.patients|))
  }

  /** Stock: conserved, and always empty, half full or full. */
  predicate Stock(s: State) {
    && s.shared.medicine == CAPACITY + DELIVERY * s.history.deliveries - PER_CONSULTATION * |s.history.groups|
    && s.shared.medicine in {0, 3, 6}
  }

  /** The counter of the program, exactly. */
  predicate Accounting(s: State) {
    && s.shared.remaining == Untreated(s) + s.history.missed
    && forall i :: 0 <= i < |s.patients| ==> s.patients[i] != PDone(false)
  }

  predicate PatientOk(s: State, i: nat)
    requires Shape(s) && i < |s.patients|
  {
    match s.patients[i]
    case PWaiting(position, signalled) =>
      && 0 <= position < 3
      && (signalled <==> !Seated(s, i))
      && if Seated(s, i) then s.history.seatedAt[i] == |s.history.groups| else Consulted(s, i)
    case PReadRemaining(true) => Consulted(s, i) && !Seated(s, i)
    case PDone(true) => Consulted(s, i) && !Seated(s, i)
    case _ => true
  }

  predicate PatientsOk(s: State)
    requires Shape(s)
  {
    && (forall i :: 0 <= i < |s.patients| ==> PatientOk(s, i))
    && (forall i :: 0 <= i < |s.patients| && Seated(s, i) && s.shared.inHospital < 3 ==> s.patients[i].PWaiting?)
  }

  predicate BeforeShutdown(s: State) {
    s.main.MJoinPatients?
  }

  predicate DoctorOk(s: State)
    requires Shape(s)
  {
    && (match s.doctor
        case DConsulting(ids) => ConsultationReady(s.shared) && s.shared.slots == ids
        case DDelivering => DeliveryReady(s.shared)
        case DBlocked(signalled) => signalled || (!ConsultationReady(s.shared) && !DeliveryReady(s.shared))
        case DReadInHospital => s.shared.remaining <= 0
        case DDone => Finished(s.shared)
        case _ => true)
    && (BeforeShutdown(s) && !s.shared.doctorSleeping ==> ConsultationReady(s.shared) || DeliveryReady(s.shared))
  }

  predicate PharmacistsOk(s: State) {
    && (s.shared.pharmacistWaiting ==>
          && s.shared.medicine < PER_CONSULTATION
          && 1 <= s.shared.waitingPharmacist <= |s.pharmacists|
          && s.pharmacists[s.shared.waitingPharmacist - 1].FAwaitDelivery?)
    && (forall j :: 0 <= j < |s.pharmacists| && s.pharmacists[j] == FAwaitDelivery(false) ==>
          s.shared.pharmacistWaiting)
    && (forall j :: 0 <= j < |s.pharmacists| && s.pharmacists[j] in {FReadInHospital, FDone} ==>
          s.shared.remaining <= 0)
  }

  predicate MainOk(s: State)
    requires Shape(s)
  {
    && (s.main.MJoinPatients? ==>
          s.main.next <= |s.patients| && forall i :: 0 <= i < s.main.next ==> s.patients[i].PDone?)
    && (!s.main.MJoinPatients? ==>
          && (forall i :: 0 <= i < |s.patients| ==> s.patients[i].PDone?)
          && (s.doctor == DBlocked(false) ==> !Finished(s.shared)))
    && (s.main.MBroadcast? || s.main.MJoinPharmacists? || s.main.MAllServed? ==> s.doctor.DDone?)
    && (s.main.MJoinPharmacists? ==>
          && s.main.next <= |s.pharmacists|
          && (forall j :: 0 <= j < |s.pharmacists| ==> s.pharmacists[j] != FAwaitShortage(false))
          && (forall j :: 0 <= j < s.main.next ==> s.pharmacists[j].FDone?))
    && (s.main.MAllServed? ==> forall j :: 0 <= j < |s.pharmacists| ==> s.pharmacists[j].FDone?)
  }

  predicate Inv(s: State) {
    Shape(s) && Stock(s) && Accounting(s) && PatientsOk(s) && DoctorOk(s) && PharmacistsOk(s) && MainOk(s)
  }

  // ------------------------------------------------------------ start

  lemma StartInv(n: nat, m: nat)
    ensures Inv(Start(n, m))
  {
    var s := Start(n, m);
    CountConstant(n, PReadRemaining(false), IsUntreated);
  }

  // ------------------------------------------------------------ doctor

  /** What only concerns patients survives a step that leaves them and their seats alone. */
  lemma PatientsFrame(s: State, t: State)
    requires Shape(s) && Stock(s) && Accounting(s) && PatientsOk(s)
    requires t.patients == s.patients && t.history == s.history
    requires t.shared.slots == s.shared.slots && t.shared.inHospital == s.shared.inHospital
    requires t.shared.remaining == s.shared.remaining && t.shared.medicine == s.shared.medicine
    ensures Shape(t) && Stock(t) && Accounting(t) && PatientsOk(t)
  {
    forall i | 0 <= i < |s.patients|
      ensures PatientOk(t, i)
    {
      assert PatientOk(s, i);
    }
  }

  lemma DoctorKeepsInv(s: State)
    requires Inv(s) && !s.doctor.DDone?
    ensures Inv(DoctorStep(s))
  {
    match s.doctor
    case DConsulting(_) => ConsultationKeepsInv(s);
    case DDelivering => DeliveryKeepsInv(s);
    case DReadRemaining => DoctorTestKeepsInv(s);
    case DReadInHospital => DoctorTestKeepsInv(s);
    case DAtLock => DoctorSectionKeepsInv(s);
    case DBlocked(_) => DoctorSectionKeepsInv(s);
  }

  lemma DoctorTestKeepsInv(s: State)
    requires Inv(s) && (s.doctor.DReadRemaining? || s.doctor.DReadInHospital?)
    ensures Inv(DoctorStep(s))
  {
    PatientsFrame(s, DoctorStep(s));
  }

  lemma DoctorSectionKeepsInv(s: State)
    requires Inv(s) && (s.doctor.DAtLock? || s.doctor.DBlocked?)
    ensures Inv(DoctorStep(s))
  {
    PatientsFrame(s, DoctorStep(s));
  }

  lemma ConsultationKeepsInv(s: State)
    requires Inv(s) && s.doctor.DConsulting?
    ensures Inv(DoctorStep(s))
  {
    var t := DoctorStep(s);
    CountSame(s.patients, t.patients, IsUntreated);
    assert s.shared.slots[..3] == s.shared.slots;
    forall i | 0 <= i < |s.patients|
      ensures PatientOk(t, i)
    {
      assert PatientOk(s, i);
    }
  }

  lemma DeliveryKeepsInv(s: State)
    requires Inv(s) && s.doctor.DDelivering?
    ensures Inv(DoctorStep(s))
  {
    var t := DoctorStep(s);
    forall i | 0 <= i < |s.patients|
      ensures PatientOk(t, i)
    {
      assert PatientOk(s, i);
    }
  }

  // ----------------------------------------------------------- patients

  /** As long as some patient is untreated the counter stays positive. */
  lemma UntreatedCounted(s: State, i: nat)
    requires Accounting(s) && i < |s.patients| && IsUntreated(s.patients[i])
    ensures s.shared.remaining > 0
  {
    CountPositive(s.patients, IsUntreated, i);
  }

  lemma PatientKeepsInv(s: State, i: nat)
    requires Inv(s) && HasTurn(s, i)
    ensures Inv(PatientStep(s, i))
  {
    match s.patients[i]
    case PReadRemaining(_) => PatientTestKeepsInv(s, i);
    case PAtLock => PatientEnterKeepsInv(s, i);
    case PWaiting(_, _) => PatientWakeKeepsInv(s, i);
  }

  lemma PatientTestKeepsInv(s: State, i: nat)
    requires Inv(s) && HasTurn(s, i) && s.patients[i].PReadRemaining?
    ensures Inv(PatientStep(s, i))
  {
    var t := PatientStep(s, i);
    if IsUntreated(s.patients[i]) {
      UntreatedCounted(s, i);
    }
    CountUpdate(s.patients, IsUntreated, i, t.patients[i]);
    forall k | 0 <= k < |s.patients|
      ensures PatientOk(t, k)
    {
      assert PatientOk(s, k);
    }
  }

  /** Taking a seat adds the newcomer to the slots in use and leaves the others alone. */
  lemma SeatsAfterSitting(s: Shared, id: int)
    requires InBounds(s) && TakesSeat(s)
    ensures SitDown(s, id).slots[..s.inHospital + 1] == s.slots[..s.inHospital] + [id]
  {
  }

  lemma PatientEnterKeepsInv(s: State, i: nat)
    requires Inv(s) && HasTurn(s, i) && s.patients[i].PAtLock?
    ensures Inv(PatientStep(s, i))
  {
    UntreatedCounted(s, i);
    CountUpdate(s.patients, IsUntreated, i, PatientStep(s, i).patients[i]);
    if TakesSeat(s.shared) {
      SittingKeepsPatients(s, i);
    } else {
      PatientTurnedAwayKeepsInv(s, i);
    }
  }

  lemma PatientTurnedAwayKeepsInv(s: State, i: nat)
    requires Inv(s) && HasTurn(s, i) && s.patients[i].PAtLock? && s.shared.remaining > 0 && !TakesSeat(s.shared)
    requires Accounting(PatientStep(s, i))
    ensures Inv(PatientStep(s, i))
  {
    var t := PatientStep(s, i);
    forall k | 0 <= k < |s.patients|
      ensures PatientOk(t, k)
    {
      assert PatientOk(s, k);
    }
  }

  lemma SittingKeepsPatients(s: State, i: nat)
    requires Inv(s) && HasTurn(s, i) && s.patients[i].PAtLock? && TakesSeat(s.shared)
    ensures Shape(PatientStep(s, i)) && PatientsOk(PatientStep(s, i))
  {
    var t := PatientStep(s, i);
    SeatsAfterSitting(s.shared, i + 1);
    assert !Seated(s, i);
    assert Ids(t.shared.slots[..t.shared.inHospital], |t.patients|);
    assert forall k :: 0 <= k < |s.patients| ==> (Seated(t, k) <==> k == i || Seated(s, k));
    forall k | 0 <= k < |s.patients|
      ensures PatientOk(t, k)
    {
      assert PatientOk(s, k);
    }
  }

  lemma PatientWakeKeepsInv(s: State, i: nat)
    requires Inv(s) && HasTurn(s, i) && s.patients[i].PWaiting?
    ensures Inv(PatientStep(s, i))
  {
    UntreatedCounted(s, i);
    CountUpdate(s.patients, IsUntreated, i, PatientStep(s, i).patients[i]);
    WakeOutcome(s, i);
    WakingKeepsPatients(s, i);
  }

  /** A waiting patient that wakes either waits on, or roams although seated, or is treated; it
      is treated exactly if it has lost its seat. */
  lemma WakeOutcome(s: State, i: nat)
    requires Inv(s) && HasTurn(s, i) && s.patients[i].PWaiting? && s.shared.remaining > 0
    ensures var (shared, pc) := PatientWake(s.shared, s.patients[i].position, i + 1);
      && shared == (if !Seated(s, i) && s.shared.inHospital == 0
                    then s.shared.(remaining := s.shared.remaining - 1) else s.shared)
      && (Seated(s, i) <==> pc != PReadRemaining(true))
      && (Seated(s, i) ==> pc == PReadRemaining(false) || (pc.PWaiting? && 0 <= pc.position < 3))
      && (Seated(s, i) && s.shared.inHospital < 3 ==> pc.PWaiting?)
  {
    assert s.shared.slots[0..s.shared.inHospital] == s.shared.slots[..s.shared.inHospital];
    assert PatientOk(s, i);
  }

  lemma WakingKeepsPatients(s: State, i: nat)
    requires Inv(s) && HasTurn(s, i) && s.patients[i].PWaiting? && s.shared.remaining > 0
    ensures Shape(PatientStep(s, i)) && PatientsOk(PatientStep(s, i))
  {
    WakeOutcome(s, i);
    assert PatientOk(s, i);
    hide PatientWake;
    var t := PatientStep(s, i);
    forall k | 0 <= k < |s.patients|
      ensures PatientOk(t, k)
    {
      assert PatientOk(s, k);
    }
  }

  // ------------------------------------------------- pharmacists and main

  /** A pharmacist's step leaves the shared variables alone and moves only that thread. */
  predicate Passes(s: State, j: nat, t: State)
    requires j < |s.pharmacists| == |t.pharmacists|
  {
    var next := t.pharmacists[j];
    && t == s.(pharmacists := s.pharmacists[j := next])
    && (next == FAwaitDelivery(false) ==> s.shared.pharmacistWaiting)
    && (s.pharmacists[j].FAwaitDelivery? && !next.FAwaitDelivery? ==> !s.shared.pharmacistWaiting)
    && (next in {FReadInHospital, FDone} ==> s.shared.remaining <= 0)
    && (next == FAwaitShortage(false) ==> !Finished(s.shared))
  }

  /** A pharmacist's step offers a delivery, which calls the doctor. */
  predicate Offers(s: State, j: nat, t: State)
    requires j < |s.pharmacists| == |t.pharmacists|
  {
    && OffersDelivery(s.shared)
    && t == s.(shared := Offer(s.shared, j + 1),
               pharmacists := s.pharmacists[j := FAwaitDelivery(false)],
               doctor := SignalDoctor(s.doctor))
  }

  lemma PharmacistEffect(s: State, j: nat)
    requires InBounds(s.shared) && PharmacistsOk(s) && j < |s.pharmacists| && !s.pharmacists[j].FDone?
    ensures Passes(s, j, PharmacistStep(s, j)) || Offers(s, j, PharmacistStep(s, j))
  {
  }

  lemma PharmacistKeepsInv(s: State, j: nat)
    requires Inv(s) && j < |s.pharmacists| && !s.pharmacists[j].FDone?
    ensures Inv(PharmacistStep(s, j))
  {
    var t := PharmacistStep(s, j);
    PatientsFrame(s, t);
    PharmacistEffect(s, j);
    if Passes(s, j, t) {
      PassingKeepsRest(s, j, t);
    } else {
      OfferKeepsRest(s, j, t);
    }
  }

  lemma PassingKeepsRest(s: State, j: nat, t: State)
    requires Inv(s) && Shape(t) && j < |s.pharmacists| == |t.pharmacists| && !s.pharmacists[j].FDone?
    requires Passes(s, j, t)
    ensures DoctorOk(t) && PharmacistsOk(t) && MainOk(t)
  {
  }

  lemma OfferKeepsRest(s: State, j: nat, t: State)
    requires Inv(s) && Shape(t) && j < |s.pharmacists| == |t.pharmacists| && !s.pharmacists[j].FDone?
    requires Offers(s, j, t)
    ensures DoctorOk(t) && PharmacistsOk(t) && MainOk(t)
  {
  }

  lemma MainKeepsInv(s: State)
    requires Inv(s) && MainReady(s)
    ensures Inv(MainStep(s))
  {
    PatientsFrame(s, MainStep(s));
    MainKeepsRest(s);
    hide Shape;
    hide Stock;
    hide Accounting;
    hide PatientsOk;
  }

  lemma MainKeepsRest(s: State)
    requires Inv(s) && MainReady(s) && Shape(MainStep(s))
    ensures DoctorOk(MainStep(s)) && PharmacistsOk(MainStep(s)) && MainOk(MainStep(s))
  {
    hide Accounting;
    hide PatientsOk;
  }

  /** Every step of every thread keeps the invariant. */
  lemma StepKeepsInv(s: State, a: Action, t: State)
    requires Inv(s) && Step(s, a, t)
    ensures Inv(t) && |t.patients| == |s.patients| && |t.pharmacists| == |s.pharmacists|
  {
    match a
    case Doctor => DoctorKeepsInv(s);
    case Patient(i) => PatientKeepsInv(s, i);
    case Pharmacist(j) => PharmacistKeepsInv(s, j);
    case Main => MainKeepsInv(s);
  }

  /** Every state of every run satisfies the invariant. */
  lemma {:induction false} RunInv(n: nat, m: nat, states: seq<State>, actions: seq<Action>, k: nat)
    requires IsRun(n, m, states, actions) && k < |states|
    ensures Inv(states[k]) && |states[k].patients| == n && |states[k].pharmacists| == m
  {
    if k == 0 {
      StartInv(n, m);
    } else {
      RunInv(n, m, states, actions, k - 1);
      StepKeepsInv(states[k - 1], actions[k - 1], states[k]);
    }
  }
}
