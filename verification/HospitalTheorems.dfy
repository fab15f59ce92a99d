/** What holds of every run of the hospital, for any number of patients and pharmacists. */
module HospitalTheorems {
  import opened Sequences
  import opened HospitalModel
  import opened HospitalInvariant

  // ------------------------------------------------------------ accounting

  function IdsOf(groups: seq<seq<int>>): set<int> {
    if groups == [] then {} else (set a | 0 <= a < |groups[0]| :: groups[0][a]) + IdsOf(groups[1..])
  }

  lemma {:induction false} IdsOfContains(groups: seq<seq<int>>, g: nat, id: int)
    requires g < |groups| && id in groups[g]
    ensures id in IdsOf(groups)
  {
    if g > 0 {
      IdsOfContains(groups[1..], g - 1, id);
    }
  }

  lemma {:induction false} ThreeIdsEach(groups: seq<seq<int>>)
    requires forall g :: 0 <= g < |groups| ==> |groups[g]| == 3
    ensures |IdsOf(groups)| <= 3 * |groups|
  {
    if groups != [] {
      var first := groups[0];
      assert (set a | 0 <= a < |first| :: first[a]) == {first[0], first[1], first[2]};
      ThreeIdsEach(groups[1..]);
    }
  }

  /** The identifiers of the treated patients among those numbered base + 1, base + 2, ... */
  function TreatedIds(ps: seq<PatientPc>, base: nat): set<int> {
    if ps == [] then {}
    else (if IsUntreated(ps[0]) then {} else {base + 1}) + TreatedIds(ps[1..], base + 1)
  }

  lemma {:induction false} TreatedIdsSize(ps: seq<PatientPc>, base: nat)
    ensures forall id :: id in TreatedIds(ps, base) ==> base < id <= base + |ps| && !IsUntreated(ps[id - base - 1])
    ensures |TreatedIds(ps, base)| == |ps| - Count(ps, IsUntreated)
  {
    if ps != [] {
      TreatedIdsSize(ps[1..], base + 1);
    }
  }

  lemma TreatedIdRecorded(s: State, id: int)
    requires Inv(s) && 0 < id <= |s.patients| && !IsUntreated(s.patients[id - 1])
    ensures id in IdsOf(s.history.groups)
  {
    assert PatientOk(s, id - 1);
    IdsOfContains(s.history.groups, s.history.seatedAt[id - 1], id);
  }

  /** Treated patients fit into the slots of the consultations held so far. */
  lemma TreatedFitConsultations(s: State)
    requires Inv(s)
    ensures |s.patients| - Untreated(s) <= 3 * |s.history.groups|
  {
    hide IdsOf;
    hide TreatedIds;
    ThreeIdsEach(s.history.groups);
    hide Inv;
    var treated := TreatedIds(s.patients, 0);
    TreatedIdsSize(s.patients, 0);
    forall id | id in treated
      ensures id in IdsOf(s.history.groups)
    {
      TreatedIdRecorded(s, id);
    }
    SubsetSize(treated, IdsOf(s.history.groups));
  }

  lemma {:induction false} SubsetSize<T>(a: set<T>, b: set<T>)
    requires a <= b
    ensures |a| <= |b|
    decreases a
  {
    if a != {} {
      var x :| x in a;
      SubsetSize(a - {x}, b - {x});
    }
  }

  /** The counter never drops below the number of untreated patients; a patient thread
      ends only treated, and whoever is treated was consulted after it last sat down. */
  lemma NobodyLeavesUntreated(n: nat, m: nat, states: seq<State>, actions: seq<Action>, k: nat, i: nat)
    requires IsRun(n, m, states, actions) && k < |states| && i < n
    ensures |states[k].patients| == n == |states[k].history.seatedAt|
    ensures states[k].shared.remaining >= Untreated(states[k])
    ensures states[k].patients[i].PDone? ==> states[k].patients[i].treated
    ensures !IsUntreated(states[k].patients[i]) ==> Consulted(states[k], i)
  {
    RunInv(n, m, states, actions, k);
    assert PatientOk(states[k], i);
  }

  lemma TreatedPerConsultation(n: nat, m: nat, states: seq<State>, actions: seq<Action>, k: nat)
    requires IsRun(n, m, states, actions) && k < |states|
    ensures n - Untreated(states[k]) <= 3 * |states[k].history.groups|
  {
    RunInv(n, m, states, actions, k);
    TreatedFitConsultations(states[k]);
  }

  /** The closing line is printed only once all n patients have been treated. */
  lemma AllServedMeansAllTreated(n: nat, m: nat, states: seq<State>, actions: seq<Action>, k: nat)
    requires IsRun(n, m, states, actions) && k < |states| && states[k].main.MAllServed?
    ensures states[k].patients == seq(n, _ => PDone(true))
    ensures states[k].pharmacists == seq(m, _ => FDone)
    ensures states[k].shared.remaining == 0 && states[k].history.missed == 0
    ensures n <= 3 * |states[k].history.groups|
  {
    var s := states[k];
    RunInv(n, m, states, actions, k);
    TreatedFitConsultations(s);
    CountSame(s.patients, seq(n, _ => PDone(true)), IsUntreated);
    CountConstant(n, PDone(true), IsUntreated);
  }

  // -------------------------------------------------- the counter, exactly

  /** The counter drifts from the number of untreated patients at one kind of step only: a
      consulted patient wakes and finds that somebody else has already sat down again. */
  lemma CounterDriftsExactly(s: State, a: Action, t: State)
    requires Inv(s) && Step(s, a, t)
    ensures t.shared.remaining - Untreated(t) == s.shared.remaining - Untreated(s) +
      if a.Patient? && s.patients[a.i].PWaiting? && !Seated(s, a.i) && s.shared.inHospital > 0 then 1 else 0
  {
    StepKeepsInv(s, a, t);
    if a.Patient? {
      assert PatientOk(s, a.i);
      assert s.shared.slots[0..s.shared.inHospital] == s.shared.slots[..s.shared.inHospital];
    }
  }

  // ---------------------------------------------------------- the medicine

  /** Stock is conserved; at most two consultations ahead of the deliveries; a consultation
      never overdraws and the clamp at the capacity never cuts a delivery. */
  lemma MedicineConserved(n: nat, m: nat, states: seq<State>, actions: seq<Action>, k: nat)
    requires IsRun(n, m, states, actions) && k < |states|
    ensures var s := states[k];
      && s.shared.medicine == 6 + 3 * s.history.deliveries - 3 * |s.history.groups|
      && s.shared.medicine in {0, 3, 6}
      && 0 <= |s.history.groups| - s.history.deliveries <= 2
      && (s.doctor.DConsulting? ==> FinishConsultation(s.shared).medicine >= 0)
      && (s.doctor.DDelivering? ==> FinishDelivery(s.shared).medicine == s.shared.medicine + DELIVERY)
  {
    RunInv(n, m, states, actions, k);
  }

  // ------------------------------------- stability while the mutex is free

  ghost predicate OthersOnly(actions: seq<Action>, k: nat, l: nat)
    requires k <= l <= |actions|
  {
    forall a :: k <= a < l ==> actions[a] != Doctor
  }

  /** Only the doctor thread leaves a consultation or a delivery. */
  lemma {:induction false} DoctorStays(n: nat, m: nat, states: seq<State>, actions: seq<Action>, k: nat, l: nat)
    requires IsRun(n, m, states, actions) && k <= l < |states| && OthersOnly(actions, k, l)
    requires states[k].doctor.DConsulting? || states[k].doctor.DDelivering?
    ensures states[l].doctor == states[k].doctor
    ensures states[l].history.groups == states[k].history.groups
    ensures states[l].history.deliveries == states[k].history.deliveries
  {
    if k < l {
      DoctorStays(n, m, states, actions, k, l - 1);
      RunInv(n, m, states, actions, l - 1);
      assert actions[l - 1] != Doctor;
    }
  }

  /** From the announcement to the end of a consultation the announced patients keep their
      slots, no matter what the others do, and it is they who are recorded as consulted. */
  lemma ConsultationStable(n: nat, m: nat, states: seq<State>, actions: seq<Action>, k: nat, l: nat)
    requires IsRun(n, m, states, actions) && k <= l < |states| && OthersOnly(actions, k, l)
    requires states[k].doctor.DConsulting?
    ensures var s := states[l]; var ids := states[k].doctor.announced;
      && s.shared.inHospital == 3 && s.shared.slots == ids && |ids| == 3 && Ids(ids, n)
      && s.shared.medicine == states[k].shared.medicine >= PER_CONSULTATION
    ensures l < |actions| && actions[l] == Doctor ==>
      states[l + 1].history.groups == states[k].history.groups + [states[k].doctor.announced]
  {
    DoctorStays(n, m, states, actions, k, l);
    RunInv(n, m, states, actions, k);
    RunInv(n, m, states, actions, l);
    assert states[l].shared.slots[..3] == states[l].shared.slots;
    if l < |actions| && actions[l] == Doctor {
      assert Step(states[l], actions[l], states[l + 1]);
    }
  }

  /** The same for a delivery: the offer stands, the cabinet stays low, and the pharmacist that
      made the offer is still waiting for it. */
  lemma DeliveryStable(n: nat, m: nat, states: seq<State>, actions: seq<Action>, k: nat, l: nat)
    requires IsRun(n, m, states, actions) && k <= l < |states| && OthersOnly(actions, k, l)
    requires states[k].doctor.DDelivering?
    ensures var s := states[l];
      && s.shared.pharmacistWaiting && s.shared.medicine == states[k].shared.medicine < PER_CONSULTATION
      && 1 <= s.shared.waitingPharmacist <= m == |s.pharmacists|
      && s.pharmacists[s.shared.waitingPharmacist - 1].FAwaitDelivery?
  {
    DoctorStays(n, m, states, actions, k, l);
    RunInv(n, m, states, actions, k);
    RunInv(n, m, states, actions, l);
  }

  // --------------------------------------------------------- no lost wakeup

  /** The doctor does not sleep through a group it could consult or a delivery it should take. */
  lemma DoctorSleepsWithoutWork(n: nat, m: nat, states: seq<State>, actions: seq<Action>, k: nat)
    requires IsRun(n, m, states, actions) && k < |states| && states[k].doctor == DBlocked(false)
    ensures !ConsultationReady(states[k].shared) && !DeliveryReady(states[k].shared)
  {
    RunInv(n, m, states, actions, k);
  }

  /** A waiting patient has been signalled exactly if it was consulted, which is when it lost its seat. */
  lemma PatientSleepsSeated(n: nat, m: nat, states: seq<State>, actions: seq<Action>, k: nat, i: nat)
    requires IsRun(n, m, states, actions) && k < |states| && i < n
    ensures |states[k].patients| == n == |states[k].history.seatedAt| && InBounds(states[k].shared)
    ensures var s := states[k]; s.patients[i].PWaiting? ==>
      (s.patients[i].signalled <==> Consulted(s, i)) && (Seated(s, i) <==> !Consulted(s, i))
  {
    RunInv(n, m, states, actions, k);
    assert PatientOk(states[k], i);
  }

  /** A pharmacist does not sleep through the end of its delivery: while it waits unsignalled an offer
      stands, and the doctor has been called to take it. */
  lemma PharmacistSleepsOffering(n: nat, m: nat, states: seq<State>, actions: seq<Action>, k: nat, j: nat)
    requires IsRun(n, m, states, actions) && k < |states| && j < m
    ensures |states[k].pharmacists| == m
    ensures var s := states[k]; s.pharmacists[j] == FAwaitDelivery(false) ==>
      s.shared.pharmacistWaiting && s.shared.medicine < PER_CONSULTATION && s.doctor != DBlocked(false)
  {
    RunInv(n, m, states, actions, k);
  }

  /** A pharmacist that has made an offer waits until medicine has been delivered since. */
  lemma {:induction false} OfferStandsUntilDelivery(
    n: nat, m: nat, states: seq<State>, actions: seq<Action>, k: nat, l: nat, j: nat)
    requires IsRun(n, m, states, actions) && k <= l < |states| && j < m == |states[k].pharmacists|
    requires states[k].pharmacists[j].FAwaitDelivery? && states[k].shared.pharmacistWaiting
    ensures |states[l].pharmacists| == m && states[l].history.deliveries >= states[k].history.deliveries
    ensures
      || states[l].history.deliveries > states[k].history.deliveries
      || (states[l].pharmacists[j].FAwaitDelivery? && states[l].shared.pharmacistWaiting)
  {
    if k < l {
      OfferStandsUntilDelivery(n, m, states, actions, k, l - 1, j);
      RunInv(n, m, states, actions, l - 1);
      RunInv(n, m, states, actions, l);
      OfferOutlastsStep(states[l - 1], actions[l - 1], states[l], j);
    }
  }

  lemma OfferOutlastsStep(s: State, a: Action, t: State, j: nat)
    requires Inv(s) && Step(s, a, t) && j < |s.pharmacists| == |t.pharmacists|
    ensures t.history.deliveries >= s.history.deliveries
    ensures
      s.pharmacists[j].FAwaitDelivery? && s.shared.pharmacistWaiting
      && t.history.deliveries == s.history.deliveries ==>
        t.pharmacists[j].FAwaitDelivery? && t.shared.pharmacistWaiting
  {
    if a.Pharmacist? {
      PharmacistEffect(s, a.j);
    }
    hide Inv;
  }

  /** Until main announces the end, the doctor leaves the mutex only to consult, to take a
      delivery, to sleep, or for good when nothing is left to do. */
  lemma EveryRoundWorks(n: nat, m: nat, states: seq<State>, actions: seq<Action>, k: nat)
    requires IsRun(n, m, states, actions) && k < |actions| && actions[k] == Doctor
    requires BeforeShutdown(states[k]) && (states[k].doctor.DAtLock? || states[k].doctor.DBlocked?)
    ensures match states[k + 1].doctor
      case DConsulting(ids) => ConsultationReady(states[k].shared) && ids == states[k].shared.slots
      case DDelivering => DeliveryReady(states[k].shared) && !ConsultationReady(states[k].shared)
      case DBlocked(signalled) => !signalled && states[k + 1].shared == states[k].shared
      case DDone => Finished(states[k].shared) && Untreated(states[k]) == 0
      case _ => false
  {
    RunInv(n, m, states, actions, k);
    assert Step(states[k], actions[k], states[k + 1]);
  }

  /** Tests that never decide: somebody seated is untreated, so the second half of the loop tests of the
      doctor and of the pharmacists always fails, a patient that is not treated always finds somebody
      untreated, and no patient waits at a position beyond the seats. */
  lemma TestsThatNeverDecide(n: nat, m: nat, states: seq<State>, actions: seq<Action>, k: nat)
    requires IsRun(n, m, states, actions) && k < |states|
    ensures var s := states[k];
      && (s.shared.remaining <= 0 ==> s.shared.inHospital == 0)
      && (s.doctor.DReadInHospital? ==> Finished(s.shared))
      && (forall j :: 0 <= j < |s.pharmacists| && s.pharmacists[j].FReadInHospital? ==> Finished(s.shared))
      && (forall i :: 0 <= i < |s.patients| && IsUntreated(s.patients[i]) ==> s.shared.remaining > 0)
      && (forall i :: 0 <= i < |s.patients| && s.patients[i].PWaiting? ==> s.patients[i].position < 3)
  {
    RunInv(n, m, states, actions, k);
    var s := states[k];
    forall i | 0 <= i < |s.patients|
      ensures IsUntreated(s.patients[i]) ==> s.shared.remaining > 0
      ensures s.patients[i].PWaiting? ==> s.patients[i].position < 3
    {
      assert PatientOk(s, i);
      if IsUntreated(s.patients[i]) {
        CountPositive(s.patients, IsUntreated, i);
      }
    }
    if s.shared.inHospital > 0 {
      var seats := s.shared.slots[..s.shared.inHospital];
      var i := seats[0] - 1;
      assert Seated(s, i) && PatientOk(s, i);
      assert IsUntreated(s.patients[i]);
    }
  }
}
