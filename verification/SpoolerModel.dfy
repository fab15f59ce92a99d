/**
 The print spooler of Lab 8: users and printers share a ring buffer guarded by three System V
 semaphores. Every semaphore operation, every character copied and every index update is a
 step of its own. The capacity of the ring and the length of a job are parameters.
 */
module SpoolerModel {
  import opened Sequences

  type Job = seq<char>

  /** The shared memory segment. */
  datatype Ring = Ring(jobs: seq<Job>, head: int, tail: int)

  datatype UserPc =
    | UGenerate
    | UWaitEmpty(job: Job)
    | UWaitMutex(job: Job)
    | UCopy(job: Job, copied: nat)   // inside the critical section
    | USignalMutex                   // tail advanced
    | USignalFull

  datatype PrinterPc =
    | RWaitFull
    | RWaitMutex
    | RAdvance                       // inside the critical section
    | RSignalMutex                   // head advanced
    | RSignalEmpty

  datatype State = State(
    ring: Ring,
    mutex: int, full: int, empty: int,
    users: seq<UserPc>,
    printers: seq<PrinterPc>,
    added: seq<Job>,      // history: jobs in the order tail advanced past them
    retired: seq<Job>)    // history: contents of the slots head advanced past

  predicate InBounds(r: Ring) {
    0 <= r.head < |r.jobs| && 0 <= r.tail < |r.jobs|
  }

  function WriteChar(r: Ring, k: nat, c: char): Ring
    requires InBounds(r) && k < |r.jobs[r.tail]|
  {
    r.(jobs := r.jobs[r.tail := r.jobs[r.tail][k := c]])
  }

  function AdvanceTail(r: Ring): Ring
    requires InBounds(r)
  {
    r.(tail := (r.tail + 1) % |r.jobs|)
  }

  function AdvanceHead(r: Ring): Ring
    requires InBounds(r)
  {
    r.(head := (r.head + 1) % |r.jobs|)
  }

  /** A user's next step; only the step that generates a job looks at the action's job. */
  datatype Action = User(i: nat, job: Job) | Printer(j: nat)

  predicate UserReady(s: State, pc: UserPc, job: Job, length: nat) {
    match pc
    case UGenerate => |job| == length
    case UWaitEmpty(_) => s.empty > 0
    case UWaitMutex(_) => s.mutex > 0
    case _ => true
  }

  predicate PrinterReady(s: State, pc: PrinterPc) {
    match pc
    case RWaitFull => s.full > 0
    case RWaitMutex => s.mutex > 0
    case _ => true
  }

  predicate Enabled(s: State, a: Action, length: nat) {
    match a
    case User(i, job) => i < |s.users| && UserReady(s, s.users[i], job, length)
    case Printer(j) => j < |s.printers| && PrinterReady(s, s.printers[j])
  }

  /** Every access of the step lies inside the arrays. */
  predicate Safe(s: State, a: Action) {
    InBounds(s.ring) &&
    (a.User? && a.i < |s.users| && s.users[a.i].UCopy? && s.users[a.i].copied < |s.users[a.i].job| ==>
       s.users[a.i].copied < |s.ring.jobs[s.ring.tail]|)
  }

  function UserStep(s: State, i: nat, job: Job): State
    requires i < |s.users| && Safe(s, User(i, job))
  {
    match s.users[i]
    case UGenerate => s.(users := s.users[i := UWaitEmpty(job)])
    case UWaitEmpty(mine) => s.(empty := s.empty - 1, users := s.users[i := UWaitMutex(mine)])
    case UWaitMutex(mine) => s.(mutex := s.mutex - 1, users := s.users[i := UCopy(mine, 0)])
    case UCopy(mine, k) =>
      if k < |mine| then
        s.(ring := WriteChar(s.ring, k, mine[k]), users := s.users[i := UCopy(mine, k + 1)])
      else
        s.(ring := AdvanceTail(s.ring), users := s.users[i := USignalMutex],
           added := s.added + [s.ring.jobs[s.ring.tail]])
    case USignalMutex => s.(mutex := s.mutex + 1, users := s.users[i := USignalFull])
    case USignalFull => s.(full := s.full + 1, users := s.users[i := UGenerate])
  }

  function PrinterStep(s: State, j: nat): State
    requires j < |s.printers| && InBounds(s.ring)
  {
    match s.printers[j]
    case RWaitFull => s.(full := s.full - 1, printers := s.printers[j := RWaitMutex])
    case RWaitMutex => s.(mutex := s.mutex - 1, printers := s.printers[j := RAdvance])
    case RAdvance =>
      s.(ring := AdvanceHead(s.ring), printers := s.printers[j := RSignalMutex],
         retired := s.retired + [s.ring.jobs[s.ring.head]])
    case RSignalMutex => s.(mutex := s.mutex + 1, printers := s.printers[j := RSignalEmpty])
    case RSignalEmpty => s.(empty := s.empty + 1, printers := s.printers[j := RWaitFull])
  }

  function Apply(s: State, a: Action, length: nat): State
    requires Enabled(s, a, length) && Safe(s, a)
  {
    match a
    case User(i, job) => UserStep(s, i, job)
    case Printer(j) => PrinterStep(s, j)
  }

  /** One step; outside the arrays C promises nothing. */
  ghost predicate Step(s: State, a: Action, t: State, length: nat) {
    Enabled(s, a, length) && (Safe(s, a) ==> t == Apply(s, a, length))
  }

  ghost predicate Initial(s: State, capacity: nat, length: nat, n: nat, m: nat) {
    && |s.ring.jobs| == capacity && (forall k :: 0 <= k < capacity ==> |s.ring.jobs[k]| == length)
    && s.ring.head == s.ring.tail == 0
    && s.mutex == 1 && s.full == 0 && s.empty == capacity
    && s.users == seq(n, _ => UGenerate) && s.printers == seq(m, _ => RWaitFull)
    && s.added == s.retired == []
  }

  /** The dimensions of a system: ring slots, characters a job, users, printers. */
  datatype Size = Size(capacity: nat, length: nat, users: nat, printers: nat)

  ghost predicate IsRun(z: Size, states: seq<State>, actions: seq<Action>) {
    && |states| == |actions| + 1
    && Initial(states[0], z.capacity, z.length, z.users, z.printers)
    && forall k :: 0 <= k < |actions| ==> Step(states[k], actions[k], states[k + 1], z.length)
  }

  // -------------------------------------------------- who holds which token

  predicate Inside(u: UserPc) { u.UCopy? || u.USignalMutex? }

  predicate HoldsEmpty(u: UserPc) { u.UWaitMutex? || u.UCopy? }

  predicate Unpublished(u: UserPc) { u.USignalMutex? || u.USignalFull? }

  predicate PrinterInside(p: PrinterPc) { p.RAdvance? || p.RSignalMutex? }

  predicate HoldsFull(p: PrinterPc) { p.RWaitMutex? || p.RAdvance? }

  predicate Returning(p: PrinterPc) { p.RSignalMutex? || p.RSignalEmpty? }

  /** The number of jobs in the ring; head and tail alone cannot tell empty from full. */
  function Live(s: State): int {
    s.full + Count(s.printers, HoldsFull) + Count(s.users, Unpublished)
  }

  function Slot(head: int, k: int, capacity: int): (slot: int)
    requires capacity > 0
  {
    (head + k) % capacity
  }

  /** The queue the ring stands for. */
  function Queue(s: State): seq<Job>
    requires InBounds(s.ring) && Live(s) >= 0
  {
    seq(Live(s), k requires 0 <= k < Live(s) => s.ring.jobs[Slot(s.ring.head, k, |s.ring.jobs|)])
  }
}
