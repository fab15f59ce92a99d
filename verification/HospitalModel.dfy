/**
 The hospital of Lab 10: one doctor, any number of patients and pharmacists, one mutex and
 three condition variables.

 A region of code between taking the mutex (or waking on a condition variable) and the next
 release (or wait) runs as one step; every read made without the mutex is a step of its own.
 A blocked thread may wake at any time (spurious wakeups are allowed); its flag `signalled`
 records whether a signal or a broadcast has reached it since it blocked.
 */
module HospitalModel {
  const SEATS := 3               // MAX_PATIENTS_IN_HOSPITAL
  const CAPACITY := 6            // MEDICINE_CAPACITY
  const PER_CONSULTATION := 3    // MEDICINE_PER_CONSULTATION
  const DELIVERY := 3            // DELIVERY_AMOUNT

  /** The variables guarded by hospital_mutex. */
  datatype Shared = Shared(
    inHospital: int,
    medicine: int,
    remaining: int,
    slots: seq<int>,
    pharmacistWaiting: bool,
    waitingPharmacist: int,
    doctorSleeping: bool)

  datatype DoctorPc =
    | DReadRemaining               // first unlocked read of the loop test
    | DReadInHospital              // second unlocked read of the loop test
    | DAtLock
    | DBlocked(signalled: bool)    // waiting on doctor_sleep_cond
    | DConsulting(announced: seq<int>)
    | DDelivering
    | DDone

  datatype PatientPc =
    | PReadRemaining(treated: bool)  // loop test, with the local variable `treated`
    | PAtLock
    | PWaiting(position: int, signalled: bool)
    | PDone(treated: bool)

  datatype PharmacistPc =
    | FReadRemaining
    | FReadInHospital
    | FAtLock
    | FAwaitShortage(signalled: bool)
    | FAwaitDelivery(signalled: bool)
    | FDone

  datatype MainPc =
    | MJoinPatients(next: nat)
    | MJoinDoctor
    | MBroadcast
    | MJoinPharmacists(next: nat)
    | MAllServed

  /** What a run has done so far; no step reads it. */
  datatype History = History(
    groups: seq<seq<int>>,   // the patients consulted together, oldest first
    deliveries: nat,
    seatedAt: seq<nat>,      // per patient: consultations finished when it last sat down
    missed: nat)             // treated patients that left without decrementing the counter

  datatype State = State(
    shared: Shared,
    doctor: DoctorPc,
    patients: seq<PatientPc>,
    pharmacists: seq<PharmacistPc>,
    main: MainPc,
    history: History)

  predicate InBounds(s: Shared) {
    |s.slots| == SEATS && 0 <= s.inHospital <= SEATS
  }

  predicate ConsultationReady(s: Shared) {
    s.inHospital >= 3 && s.medicine >= PER_CONSULTATION
  }

  predicate DeliveryReady(s: Shared) {
    s.pharmacistWaiting && s.medicine < PER_CONSULTATION
  }

  predicate Finished(s: Shared) {
    s.remaining <= 0 && s.inHospital == 0
  }

  // ---------------------------------------------------------------- doctor

  /** From taking the mutex, or waking, to the next wait or release. */
  function DoctorSection(s: Shared): (Shared, DoctorPc)
    requires InBounds(s)
  {
    if s.doctorSleeping && !ConsultationReady(s) && !DeliveryReady(s) then
      (s, if Finished(s) then DDone else DBlocked(false))
    else if Finished(s) then
      (s, DDone)
    else if ConsultationReady(s) then
      (s.(doctorSleeping := false), DConsulting(s.slots))
    else if DeliveryReady(s) then
      (s.(doctorSleeping := false), DDelivering)
    else
      (s.(doctorSleeping := true), DReadRemaining)
  }

  function FinishConsultation(s: Shared): Shared {
    s.(medicine := s.medicine - PER_CONSULTATION, inHospital := 0, doctorSleeping := true)
  }

  function FinishDelivery(s: Shared): Shared {
    var stocked := s.medicine + DELIVERY;
    s.(medicine := if stocked > CAPACITY then CAPACITY else stocked,
       pharmacistWaiting := false,
       doctorSleeping := true)
  }

  // --------------------------------------------------------------- patient

  /** The scan of the occupied slots: the first one holding id, or -1. */
  function FindSeat(slots: seq<int>, n: nat, id: int, from: nat := 0): (at: int)
    requires from <= n <= |slots|
    ensures at == -1 || from <= at < n
    ensures at != -1 ==> slots[at] == id && id !in slots[from..at]
    ensures at == -1 <==> id !in slots[from..n]
    decreases n - from
  {
    if from == n then -1
    else if slots[from] == id then from
    else
      assert slots[from..n] == [slots[from]] + slots[from + 1..n];
      var at := FindSeat(slots, n, id, from + 1);
      assert at != -1 ==> slots[from..at] == [slots[from]] + slots[from + 1..at];
      at
  }

  /** The code after the waiting loop. */
  function PatientLeave(s: Shared, position: int, treated: bool): (Shared, PatientPc) {
    if position < 3 && s.inHospital == 0 then
      (s.(remaining := s.remaining - 1), PReadRemaining(true))
    else
      (s, PReadRemaining(treated))
  }

  /** The test of the waiting loop and what follows it. */
  function PatientLoop(s: Shared, position: int): (Shared, PatientPc) {
    if s.inHospital > 0 && (position >= 3 || s.inHospital < 3 || s.medicine < PER_CONSULTATION) && s.remaining > 0 then
      (s, PWaiting(position, false))
    else
      PatientLeave(s, position, false)
  }

  predicate TakesSeat(s: Shared) {
    s.remaining > 0 && s.inHospital < SEATS
  }

  function SitDown(s: Shared, id: int): Shared
    requires InBounds(s) && TakesSeat(s)
  {
    var seated := s.(slots := s.slots[s.inHospital := id], inHospital := s.inHospital + 1);
    if seated.inHospital == 3 && seated.medicine >= PER_CONSULTATION then seated.(doctorSleeping := false) else seated
  }

  predicate CallsDoctor(s: Shared) {
    TakesSeat(s) && s.inHospital + 1 == 3 && s.medicine >= PER_CONSULTATION
  }

  function PatientEnter(s: Shared, id: int): (Shared, PatientPc)
    requires InBounds(s)
  {
    if s.remaining <= 0 then (s, PDone(false))
    else if s.inHospital >= SEATS then (s, PReadRemaining(false))
    else PatientLoop(SitDown(s, id), s.inHospital)
  }

  function PatientWake(s: Shared, position: int, id: int): (Shared, PatientPc)
    requires InBounds(s)
  {
    var at := FindSeat(s.slots, s.inHospital, id);
    if at == -1 then PatientLeave(s, position, true) else PatientLoop(s, at)
  }

  // ------------------------------------------------------------ pharmacist

  predicate OffersDelivery(s: Shared) {
    s.medicine < PER_CONSULTATION && !Finished(s)
  }

  function Offer(s: Shared, id: int): Shared {
    s.(pharmacistWaiting := true, waitingPharmacist := id, doctorSleeping := false)
  }

  function PharmacistEnter(s: Shared, id: int): (Shared, PharmacistPc) {
    if Finished(s) then (s, FDone)
    else if s.medicine >= PER_CONSULTATION then PharmacistShortage(s, id)
    else (Offer(s, id), FAwaitDelivery(false))
  }

  /** The test of the loop that waits for the cabinet to run low, and what follows it. */
  function PharmacistShortage(s: Shared, id: int): (Shared, PharmacistPc) {
    if s.medicine >= PER_CONSULTATION && (s.remaining > 0 || s.inHospital > 0) then (s, FAwaitShortage(false))
    else if Finished(s) then (s, FDone)
    else if s.medicine < PER_CONSULTATION then (Offer(s, id), FAwaitDelivery(false))
    else (s, FReadRemaining)
  }

  function PharmacistDelivery(s: Shared): (Shared, PharmacistPc) {
    (s, if s.pharmacistWaiting then FAwaitDelivery(false) else FReadRemaining)
  }

  // --------------------------------------------------- signals, broadcasts

  function SignalDoctor(d: DoctorPc): DoctorPc {
    if d.DBlocked? then DBlocked(true) else d
  }

  function SignalPatient(p: PatientPc): PatientPc {
    if p.PWaiting? then p.(signalled := true) else p
  }

  function BroadcastPatients(ps: seq<PatientPc>): (r: seq<PatientPc>)
    ensures |r| == |ps| && forall i :: 0 <= i < |ps| ==> r[i] == SignalPatient(ps[i])
  {
    seq(|ps|, i requires 0 <= i < |ps| => SignalPatient(ps[i]))
  }

  function SignalPharmacist(f: PharmacistPc): PharmacistPc {
    match f
    case FAwaitShortage(_) => FAwaitShortage(true)
    case FAwaitDelivery(_) => FAwaitDelivery(true)
    case _ => f
  }

  function BroadcastPharmacists(fs: seq<PharmacistPc>): (r: seq<PharmacistPc>)
    ensures |r| == |fs| && forall j :: 0 <= j < |fs| ==> r[j] == SignalPharmacist(fs[j])
  {
    seq(|fs|, j requires 0 <= j < |fs| => SignalPharmacist(fs[j]))
  }

  // ----------------------------------------------------------- transitions

  datatype Action = Doctor | Patient(i: nat) | Pharmacist(j: nat) | Main

  function DoctorStep(s: State): State
    requires InBounds(s.shared)
  {
    match s.doctor
    case DReadRemaining => s.(doctor := if s.shared.remaining > 0 then DAtLock else DReadInHospital)
    case DReadInHospital => s.(doctor := if s.shared.inHospital > 0 then DAtLock else DDone)
    case DConsulting(_) =>
      s.(shared := FinishConsultation(s.shared),
         doctor := DReadRemaining,
         patients := BroadcastPatients(s.patients),
         history := s.history.(groups := s.history.groups + [s.shared.slots]))
    case DDelivering =>
      s.(shared := FinishDelivery(s.shared),
         doctor := DReadRemaining,
         pharmacists := BroadcastPharmacists(s.pharmacists),
         history := s.history.(deliveries := s.history.deliveries + 1))
    case DDone => s
    case _ =>
      var (shared, doctor) := DoctorSection(s.shared);
      s.(shared := shared, doctor := doctor)
  }

  predicate HasTurn(s: State, i: nat) {
    i < |s.patients| && i < |s.history.seatedAt| && !s.patients[i].PDone?
  }

  /** Thread i carries the identifier i + 1. */
  function PatientStep(s: State, i: nat): State
    requires InBounds(s.shared) && HasTurn(s, i)
  {
    match s.patients[i]
    case PReadRemaining(treated) =>
      s.(patients := s.patients[i := if !treated && s.shared.remaining > 0 then PAtLock else PDone(treated)])
    case PAtLock =>
      var (shared, pc) := PatientEnter(s.shared, i + 1);
      s.(shared := shared,
         patients := s.patients[i := pc],
         doctor := if CallsDoctor(s.shared) then SignalDoctor(s.doctor) else s.doctor,
         history := if TakesSeat(s.shared) then
           s.history.(seatedAt := s.history.seatedAt[i := |s.history.groups|]) else s.history)
    case PWaiting(position, _) =>
      var (shared, pc) := PatientWake(s.shared, position, i + 1);
      s.(shared := shared,
         patients := s.patients[i := pc],
         history := s.history.(missed := s.history.missed +
           if pc == PReadRemaining(true) && shared.remaining == s.shared.remaining then 1 else 0))
    case PDone(_) => s
  }

  function PharmacistStep(s: State, j: nat): State
    requires j < |s.pharmacists|
  {
    match s.pharmacists[j]
    case FReadRemaining =>
      s.(pharmacists := s.pharmacists[j := if s.shared.remaining > 0 then FAtLock else FReadInHospital])
    case FReadInHospital =>
      s.(pharmacists := s.pharmacists[j := if s.shared.inHospital > 0 then FAtLock else FDone])
    case FDone => s
    case pc =>
      var (shared, next) :=
        if pc.FAtLock? then PharmacistEnter(s.shared, j + 1)
        else if pc.FAwaitShortage? then PharmacistShortage(s.shared, j + 1)
        else PharmacistDelivery(s.shared);
      s.(shared := shared,
         pharmacists := s.pharmacists[j := next],
         doctor := if !pc.FAwaitDelivery? && OffersDelivery(s.shared) then SignalDoctor(s.doctor) else s.doctor)
  }

  predicate MainReady(s: State) {
    match s.main
    case MJoinPatients(k) => k < |s.patients| ==> s.patients[k].PDone?
    case MJoinDoctor => s.doctor.DDone?
    case MBroadcast => true
    case MJoinPharmacists(k) => k < |s.pharmacists| ==> s.pharmacists[k].FDone?
    case MAllServed => false
  }

  function MainStep(s: State): State
    requires MainReady(s)
  {
    match s.main
    case MJoinPatients(k) =>
      if k < |s.patients| then s.(main := MJoinPatients(k + 1))
      else
        s.(shared := s.shared.(doctorSleeping := false), doctor := SignalDoctor(s.doctor), main := MJoinDoctor)
    case MJoinDoctor => s.(main := MBroadcast)
    case MBroadcast => s.(pharmacists := BroadcastPharmacists(s.pharmacists), main := MJoinPharmacists(0))
    case MJoinPharmacists(k) => s.(main := if k < |s.pharmacists| then MJoinPharmacists(k + 1) else MAllServed)
    case MAllServed => s
  }

  predicate Enabled(s: State, a: Action) {
    match a
    case Doctor => !s.doctor.DDone?
    case Patient(i) => HasTurn(s, i)
    case Pharmacist(j) => j < |s.pharmacists| && !s.pharmacists[j].FDone?
    case Main => MainReady(s)
  }

  function Apply(s: State, a: Action): State
    requires InBounds(s.shared) && Enabled(s, a)
  {
    match a
    case Doctor => DoctorStep(s)
    case Patient(i) => PatientStep(s, i)
    case Pharmacist(j) => PharmacistStep(s, j)
    case Main => MainStep(s)
  }

  /** One step; once a counter has left the array, C promises nothing and anything may follow. */
  ghost predicate Step(s: State, a: Action, t: State) {
    Enabled(s, a) && (InBounds(s.shared) ==> t == Apply(s, a))
  }

  /** All threads at their first statement. */
  function Start(patients: nat, pharmacists: nat): State {
    State(
      Shared(0, CAPACITY, patients, [0, 0, 0], false, 0, true),
      DReadRemaining,
      seq(patients, _ => PReadRemaining(false)),
      seq(pharmacists, _ => FReadRemaining),
      MJoinPatients(0),
      History([], 0, seq(patients, _ => 0), 0))
  }

  /** A run: states[k + 1] follows states[k] by action actions[k]. */
  ghost predicate IsRun(n: nat, m: nat, states: seq<State>, actions: seq<Action>) {
    && |states| == |actions| + 1
    && states[0] == Start(n, m)
    && forall k :: 0 <= k < |actions| ==> Step(states[k], actions[k], states[k + 1])
  }
}
