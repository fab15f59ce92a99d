/** The spooler's invariant: conservation of tokens, mutual exclusion, and the ring as a queue. */
module SpoolerInvariant {
  import opened Sequences
  import opened SpoolerModel

  /** Semaphore values and the threads that hold or owe a token. */
  predicate Tokens(s: State) {
    && s.full >= 0 && s.empty >= 0 && s.mutex >= 0
    && s.mutex + Count(s.users, Inside) + Count(s.printers, PrinterInside) == 1
    && s.empty + Count(s.users, HoldsEmpty) + Live(s) + Count(s.printers, Returning) == |s.ring.jobs|
  }

  predicate UserOk(s: State, u: UserPc, length: nat)
    requires InBounds(s.ring)
  {
    match u
    case UWaitEmpty(job) => |job| == length
    case UWaitMutex(job) => |job| == length
    case UCopy(job, k) =>
      && |job| == length && k <= length
      && length == |s.ring.jobs[s.ring.tail]| && s.ring.jobs[s.ring.tail][..k] == job[..k]
    case _ => true
  }

  predicate Layout(s: State, z: Size) {
    && |s.ring.jobs| == z.capacity && (forall k :: 0 <= k < z.capacity ==> |s.ring.jobs[k]| == z.length)
    && InBounds(s.ring)
    && |s.users| == z.users && |s.printers| == z.printers
  }

  predicate Inv(s: State, z: Size) {
    && Layout(s, z)
    && Tokens(s)
    && s.ring.tail == Slot(s.ring.head, Live(s), z.capacity)
    && (forall i :: 0 <= i < |s.users| ==> UserOk(s, s.users[i], z.length))
    && s.added == s.retired + Queue(s)
  }

  // ---------------------------------------------------------------- the ring

  lemma SlotValue(head: int, k: int, capacity: int)
    requires 0 <= head < capacity && 0 <= k <= capacity
    ensures Slot(head, k, capacity) == if head + k < capacity then head + k else head + k - capacity
  {
  }

  lemma SlotNext(head: int, k: int, capacity: int)
    requires 0 <= head < capacity && 0 <= k < capacity
    ensures Slot(head, k + 1, capacity) == (Slot(head, k, capacity) + 1) % capacity
    ensures Slot((head + 1) % capacity, k, capacity) == Slot(head, k + 1, capacity)
  {
    SlotValue(head, k, capacity);
    SlotValue(head, k + 1, capacity);
    SlotValue((head + 1) % capacity, k, capacity);
    SlotValue(head, 1, capacity);
  }

  /** While the ring is not full, its tail slot is none of the slots in use. */
  lemma TailSlotFree(s: State, z: Size, k: int)
    requires Layout(s, z) && 0 <= k < Live(s) < z.capacity && s.ring.tail == Slot(s.ring.head, Live(s), z.capacity)
    ensures Slot(s.ring.head, k, z.capacity) != s.ring.tail
  {
    SlotValue(s.ring.head, k, z.capacity);
    SlotValue(s.ring.head, Live(s), z.capacity);
  }

  // ---------------------------------------------------------------- counting

  function Bit(b: bool): nat { if b then 1 else 0 }

  lemma UserCounts(us: seq<UserPc>, i: nat, pc: UserPc)
    requires i < |us|
    ensures Count(us[i := pc], Inside) == Count(us, Inside) - Bit(Inside(us[i])) + Bit(Inside(pc))
    ensures Count(us[i := pc], HoldsEmpty) == Count(us, HoldsEmpty) - Bit(HoldsEmpty(us[i])) + Bit(HoldsEmpty(pc))
    ensures Count(us[i := pc], Unpublished) == Count(us, Unpublished) - Bit(Unpublished(us[i])) + Bit(Unpublished(pc))
  {
    CountUpdate(us, Inside, i, pc);
    CountUpdate(us, HoldsEmpty, i, pc);
    CountUpdate(us, Unpublished, i, pc);
  }

  lemma PrinterCounts(ps: seq<PrinterPc>, j: nat, pc: PrinterPc)
    requires j < |ps|
    ensures Count(ps[j := pc], PrinterInside) ==
      Count(ps, PrinterInside) - Bit(PrinterInside(ps[j])) + Bit(PrinterInside(pc))
    ensures Count(ps[j := pc], HoldsFull) == Count(ps, HoldsFull) - Bit(HoldsFull(ps[j])) + Bit(HoldsFull(pc))
    ensures Count(ps[j := pc], Returning) == Count(ps, Returning) - Bit(Returning(ps[j])) + Bit(Returning(pc))
  {
    CountUpdate(ps, PrinterInside, j, pc);
    CountUpdate(ps, HoldsFull, j, pc);
    CountUpdate(ps, Returning, j, pc);
  }

  /** At most one process is inside its critical section. */
  lemma Exclusive(s: State, i: nat)
    requires Tokens(s) && i < |s.users| && Inside(s.users[i])
    ensures forall k :: 0 <= k < |s.users| && k != i ==> !Inside(s.users[k])
    ensures forall j :: 0 <= j < |s.printers| ==> !PrinterInside(s.printers[j])
  {
    CountPositive(s.users, Inside, i);
    forall k | 0 <= k < |s.users| && k != i
      ensures !Inside(s.users[k])
    {
      if Inside(s.users[k]) {
        CountTwo(s.users, Inside, if i < k then i else k, if i < k then k else i);
      }
    }
    forall j | 0 <= j < |s.printers|
      ensures !PrinterInside(s.printers[j])
    {
      if PrinterInside(s.printers[j]) {
        CountPositive(s.printers, PrinterInside, j);
      }
    }
  }

  // ---------------------------------------------------------- user steps

  lemma UserKeepsInv(s: State, z: Size, i: nat, job: Job)
    requires Inv(s, z) && Enabled(s, User(i, job), z.length)
    ensures Safe(s, User(i, job)) && Inv(UserStep(s, i, job), z)
  {
    assert UserOk(s, s.users[i], z.length);
    match s.users[i]
    case UCopy(mine, k) =>
      if k < |mine| {
        CopyKeepsInv(s, z, i);
      } else {
        AddKeepsInv(s, z, i);
      }
    case _ => QuietUserKeepsInv(s, z, i, job);
  }

  lemma QuietUserKeepsInv(s: State, z: Size, i: nat, job: Job)
    requires Inv(s, z) && Enabled(s, User(i, job), z.length) && !s.users[i].UCopy?
    ensures Inv(UserStep(s, i, job), z)
  {
    var t := UserStep(s, i, job);
    UserCounts(s.users, i, t.users[i]);
    assert UserOk(s, s.users[i], z.length);
    assert Queue(t) == Queue(s);
    forall k | 0 <= k < |t.users|
      ensures UserOk(t, t.users[k], z.length)
    {
      assert UserOk(s, s.users[k], z.length);
    }
  }

  /** A user that copies a character holds a token for a slot that is not in use. */
  lemma RoomWhileCopying(s: State, z: Size, i: nat)
    requires Inv(s, z) && i < |s.users| && s.users[i].UCopy?
    ensures 0 <= Live(s) < z.capacity
  {
    CountPositive(s.users, HoldsEmpty, i);
  }

  lemma CopyKeepsInv(s: State, z: Size, i: nat)
    requires Inv(s, z) && i < |s.users| && s.users[i].UCopy? && s.users[i].copied < |s.users[i].job|
    ensures Safe(s, User(i, [])) && Inv(UserStep(s, i, []), z)
    ensures Queue(UserStep(s, i, [])) == Queue(s)
  {
    assert UserOk(s, s.users[i], z.length);
    var t := UserStep(s, i, []);
    UserCounts(s.users, i, t.users[i]);
    RoomWhileCopying(s, z, i);
    forall k | 0 <= k < Live(s)
      ensures Queue(t)[k] == Queue(s)[k]
    {
      TailSlotFree(s, z, k);
    }
    Exclusive(s, i);
    forall k | 0 <= k < |t.users|
      ensures UserOk(t, t.users[k], z.length)
    {
      assert UserOk(s, s.users[k], z.length);
      if k == i {
        var mine, c := s.users[i].job, s.users[i].copied;
        assert mine[..c + 1] == mine[..c] + [mine[c]];
        assert t.ring.jobs[t.ring.tail][..c + 1] == s.ring.jobs[s.ring.tail][..c] + [mine[c]];
      } else {
        assert !Inside(s.users[k]);
      }
    }
  }

  lemma AddKeepsInv(s: State, z: Size, i: nat)
    requires Inv(s, z) && i < |s.users| && s.users[i].UCopy? && s.users[i].copied >= |s.users[i].job|
    ensures Inv(UserStep(s, i, []), z)
    ensures Live(s) >= 0 && Queue(UserStep(s, i, [])) == Queue(s) + [s.users[i].job]
  {
    assert UserOk(s, s.users[i], z.length);
    var t := UserStep(s, i, []);
    UserCounts(s.users, i, t.users[i]);
    RoomWhileCopying(s, z, i);
    SlotNext(s.ring.head, Live(s), z.capacity);
    var mine := s.users[i].job;
    assert s.ring.jobs[s.ring.tail] == s.ring.jobs[s.ring.tail][..z.length] == mine[..z.length] == mine;
    assert Live(t) == Live(s) + 1;
    assert Queue(t) == Queue(s) + [mine];
    Exclusive(s, i);
    forall k | 0 <= k < |t.users|
      ensures UserOk(t, t.users[k], z.length)
    {
      assert UserOk(s, s.users[k], z.length);
      assert k != i ==> !Inside(s.users[k]);
    }
  }

  // -------------------------------------------------------- printer steps

  lemma PrinterKeepsInv(s: State, z: Size, j: nat)
    requires Inv(s, z) && Enabled(s, Printer(j), z.length)
    ensures Inv(PrinterStep(s, j), z)
  {
    if s.printers[j].RAdvance? {
      RetireKeepsInv(s, z, j);
    } else {
      var t := PrinterStep(s, j);
      PrinterCounts(s.printers, j, t.printers[j]);
      assert Queue(t) == Queue(s);
      forall k | 0 <= k < |t.users|
        ensures UserOk(t, t.users[k], z.length)
      {
        assert UserOk(s, s.users[k], z.length);
      }
    }
  }

  lemma RetireKeepsInv(s: State, z: Size, j: nat)
    requires Inv(s, z) && j < |s.printers| && s.printers[j].RAdvance?
    ensures Inv(PrinterStep(s, j), z)
    ensures Live(s) > 0 && PrinterStep(s, j).retired == s.retired + [Queue(s)[0]]
    ensures Queue(PrinterStep(s, j)) == Queue(s)[1..]
  {
    var t := PrinterStep(s, j);
    PrinterCounts(s.printers, j, t.printers[j]);
    CountPositive(s.printers, HoldsFull, j);
    assert Live(t) == Live(s) - 1;
    forall k | 0 <= k <= Live(t)
      ensures k < z.capacity && Slot(t.ring.head, k, z.capacity) == Slot(s.ring.head, k + 1, z.capacity)
    {
      SlotNext(s.ring.head, k, z.capacity);
    }
    SlotValue(s.ring.head, 0, z.capacity);
    assert Queue(t) == Queue(s)[1..];
    assert s.retired + Queue(s) == s.retired + [Queue(s)[0]] + Queue(s)[1..];
    forall k | 0 <= k < |t.users|
      ensures UserOk(t, t.users[k], z.length)
    {
      assert UserOk(s, s.users[k], z.length);
    }
  }

  // ------------------------------------------------------------------ runs

  lemma StepKeepsInv(s: State, z: Size, a: Action, t: State)
    requires Inv(s, z) && Step(s, a, t, z.length)
    ensures Inv(t, z) && Safe(s, a)
  {
    match a
    case User(i, job) => UserKeepsInv(s, z, i, job);
    case Printer(j) => PrinterKeepsInv(s, z, j);
  }

  lemma InitialInv(s: State, z: Size)
    requires z.capacity > 0 && Initial(s, z.capacity, z.length, z.users, z.printers)
    ensures Inv(s, z)
  {
    CountConstant(z.users, UGenerate, Inside);
    CountConstant(z.users, UGenerate, HoldsEmpty);
    CountConstant(z.users, UGenerate, Unpublished);
    CountConstant(z.printers, RWaitFull, PrinterInside);
    CountConstant(z.printers, RWaitFull, HoldsFull);
    CountConstant(z.printers, RWaitFull, Returning);
  }

  lemma {:induction false} RunInv(z: Size, states: seq<State>, actions: seq<Action>, k: nat)
    requires z.capacity > 0 && IsRun(z, states, actions) && k < |states|
    ensures Inv(states[k], z)
  {
    if k == 0 {
      InitialInv(states[0], z);
    } else {
      RunInv(z, states, actions, k - 1);
      StepKeepsInv(states[k - 1], z, actions[k - 1], states[k]);
    }
  }
}
