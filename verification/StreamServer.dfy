/**
 The threads of the Lab 11 server: main admits connections, one handler serves each of them, and
 the alive checker gives up silent clients. Descriptors are numbers the system hands out; a closed
 one may be handed out again.
 */
module StreamServer {
  import opened Sequences
  import opened Wire
  import ChatTable
  import opened StreamTable

  datatype HandlerPc =
    | HFirst                   // waiting for the first message
    | HRegister(id: string)    // has cut the identifier, about to take the mutex
    | HServing
    | HLeaving                 // out of the loop, about to call remove_client
    | HDone

  datatype Handler = Handler(socket: int, pc: HandlerPc)

  datatype MainPc = MAccepting | MAdmitting(socket: int)

  datatype State = State(
    table: Table,
    open: set<int>,           // descriptors in use
    main: MainPc,
    handlers: seq<Handler>,
    owners: seq<int>)         // history: which handler last registered a slot

  /** What a call of recv returns. */
  datatype Received = Failed | Message(text: string)

  datatype Action =
    | Accept(socket: int)
    | Admit(created: bool)
    | ReadFirst(h: nat, first: Received)
    | Enter(h: nat, now: int, sendOk: bool)
    | Read(h: nat, received: Received, now: int, sendOk: bool)
    | Leave(h: nat)
    | CheckAlive(now: int, pings: seq<bool>)

  predicate At(s: State, h: nat, pc: HandlerPc) {
    h < |s.handlers| && s.handlers[h].pc == pc
  }

  /** accept returns a positive descriptor that is not open. */
  predicate Enabled(s: State, a: Action) {
    match a
    case Accept(socket) => s.main.MAccepting? && socket > 0 && socket !in s.open
    case Admit(_) => s.main.MAdmitting?
    case ReadFirst(h, _) => At(s, h, HFirst)
    case Enter(h, _, _) => h < |s.handlers| && s.handlers[h].pc.HRegister?
    case Read(h, _, _, _) => At(s, h, HServing)
    case Leave(h) => At(s, h, HLeaving)
    case CheckAlive(_, pings) => |pings| == |s.table.slots|
  }

  function Goto(s: State, h: nat, pc: HandlerPc): State
    requires h < |s.handlers|
  {
    s.(handlers := s.handlers[h := s.handlers[h].(pc := pc)])
  }

  function Close(s: State, socket: int): State {
    s.(open := s.open - {socket})
  }

  function DoAdmit(s: State, created: bool): State
    requires s.main.MAdmitting?
  {
    var socket := s.main.socket;
    if s.table.count >= MAX_CLIENTS || !created then Close(s, socket).(main := MAccepting)
    else s.(main := MAccepting, handlers := s.handlers + [Handler(socket, HFirst)])
  }

  function DoReadFirst(s: State, h: nat, first: Received): State
    requires At(s, h, HFirst)
  {
    if first.Message? && StartsWith(first.text, "REGI|") then Goto(s, h, HRegister(ChatTable.Stored(first.text[5..])))
    else Goto(Close(s, s.handlers[h].socket), h, HDone)
  }

  function DoEnter(s: State, h: nat, now: int, sendOk: bool): State
    requires h < |s.handlers| && s.handlers[h].pc.HRegister?
  {
    var Handler(socket, HRegister(id)) := s.handlers[h];
    var (table, outcome) := Registration(s.table, socket, id, now, sendOk);
    var t := s.(table := table);
    match outcome
    case InUse => Goto(Close(t, socket), h, HDone)
    case NoSlot => Goto(t, h, HServing)
    case SendFailed => Goto(Close(t, socket), h, HServing)
    case Registered(i) =>
      Goto(t, h, HServing).(owners := if i < |s.owners| then s.owners[i := h] else s.owners)
  }

  /** One round of the serving loop; sends to clients leave the table alone. */
  function DoRead(s: State, h: nat, received: Received, now: int, sendOk: bool): State
    requires At(s, h, HServing)
  {
    match received
    case Failed => Goto(s, h, HLeaving)
    case Message(text) =>
      if StartsWith(text, "PONG") then s.(table := Touch(s.table, s.handlers[h].socket, now))
      else if StartsWith(text, "STOP") || (StartsWith(text, "LIST") && !sendOk) then Goto(s, h, HLeaving)
      else s
  }

  function DoLeave(s: State, h: nat): State
    requires At(s, h, HLeaving)
  {
    var socket := s.handlers[h].socket;
    var t := if First(s.table.slots, HasSocket(socket)) == -1 then s else Close(s, socket);
    Goto(t.(table := Remove(s.table, socket)), h, HDone)
  }

  function DoCheck(s: State, now: int, pings: seq<bool>): State
    requires |pings| == |s.table.slots|
  {
    var closed := set i | 0 <= i < |pings| && GivesUp(s.table.slots[i], now, pings[i]) :: s.table.slots[i].socket;
    s.(table := Check(s.table, now, pings), open := s.open - closed)
  }

  function Apply(s: State, a: Action): State
    requires Enabled(s, a)
  {
    match a
    case Accept(socket) => s.(open := s.open + {socket}, main := MAdmitting(socket))
    case Admit(created) => DoAdmit(s, created)
    case ReadFirst(h, first) => DoReadFirst(s, h, first)
    case Enter(h, now, sendOk) => DoEnter(s, h, now, sendOk)
    case Read(h, received, now, sendOk) => DoRead(s, h, received, now, sendOk)
    case Leave(h) => DoLeave(s, h)
    case CheckAlive(now, pings) => DoCheck(s, now, pings)
  }

  ghost predicate Initial(s: State) {
    && s.table == Table(seq(MAX_CLIENTS, _ => Slot(0, "", 0)), 0)
    && s.main.MAccepting? && s.handlers == [] && s.owners == seq(MAX_CLIENTS, _ => -1)
  }

  ghost predicate IsRun(states: seq<State>, actions: seq<Action>) {
    && |states| == |actions| + 1
    && Initial(states[0])
    && forall k :: 0 <= k < |actions| ==>
         Enabled(states[k], actions[k]) && states[k + 1] == Apply(states[k], actions[k])
  }

  // ---------------------------------------------------------------- invariant

  predicate InTable(t: Table, socket: int) {
    exists i :: 0 <= i < |t.slots| && t.slots[i].socket == socket
  }

  /** A descriptor between accept and registration: open, and in nobody's slot. */
  predicate Unclaimed(s: State, socket: int) {
    socket > 0 && socket in s.open && !InTable(s.table, socket)
  }

  predicate Fresh(d: Handler) {
    d.pc.HFirst? || d.pc.HRegister?
  }

  predicate FreshOk(s: State) {
    && (forall h :: 0 <= h < |s.handlers| && Fresh(s.handlers[h]) ==> Unclaimed(s, s.handlers[h].socket))
    && (forall g, h :: 0 <= g < h < |s.handlers| && Fresh(s.handlers[g]) && Fresh(s.handlers[h]) ==>
          s.handlers[g].socket != s.handlers[h].socket)
    && (s.main.MAdmitting? ==>
          && Unclaimed(s, s.main.socket)
          && forall h :: 0 <= h < |s.handlers| && Fresh(s.handlers[h]) ==> s.handlers[h].socket != s.main.socket)
  }

  predicate Owns(s: State, h: nat, i: nat) {
    i < |s.table.slots| && i < |s.owners| && Used(s.table.slots[i]) && s.owners[i] == h
  }

  predicate OwnersOk(s: State) {
    && |s.owners| == |s.table.slots|
    && forall i :: 0 <= i < |s.table.slots| && Used(s.table.slots[i]) ==>
         && s.table.slots[i].socket in s.open
         && 0 <= s.owners[i] < |s.handlers|
         && s.handlers[s.owners[i]].socket == s.table.slots[i].socket
         && (s.handlers[s.owners[i]].pc.HServing? || s.handlers[s.owners[i]].pc.HLeaving?)
  }

  predicate HandlersOk(s: State) {
    forall h :: 0 <= h < |s.handlers| ==>
      s.handlers[h].socket > 0 && (s.handlers[h].pc.HRegister? ==> |s.handlers[h].pc.id| < ID_LENGTH)
  }

  predicate ThreadsOk(s: State) {
    FreshOk(s) && OwnersOk(s) && HandlersOk(s)
  }

  predicate Inv(s: State) {
    Consistent(s.table) && ThreadsOk(s)
  }

  lemma InitialInv(s: State)
    requires Initial(s)
    ensures Inv(s)
  {
    CountNone(s.table.slots, Used);
  }

  /** A handler that gives up before it has a slot, or serves without one, disturbs nobody. */
  lemma FreshMovesOn(s: State, h: nat, pc: HandlerPc, closing: bool)
    requires ThreadsOk(s) && h < |s.handlers| && Fresh(s.handlers[h]) && (pc.HDone? || pc.HServing?)
    ensures ThreadsOk(Goto(if closing then Close(s, s.handlers[h].socket) else s, h, pc))
  {
    assert Unclaimed(s, s.handlers[h].socket);
  }

  /** What the failed answer leaves in a free slot does not matter. */
  lemma FreeSlotWritten(s: State, i: nat, c: Slot)
    requires ThreadsOk(s) && i < |s.table.slots| && !Used(s.table.slots[i]) && !Used(c)
    ensures ThreadsOk(s.(table := s.table.(slots := s.table.slots[i := c])))
  {
    var t := s.(table := s.table.(slots := s.table.slots[i := c]));
    assert forall socket :: socket > 0 && InTable(t.table, socket) ==> InTable(s.table, socket);
  }

  lemma Claims(s: State, h: nat, i: nat, c: Slot)
    requires ThreadsOk(s) && h < |s.handlers| && Fresh(s.handlers[h]) && c.socket == s.handlers[h].socket
    requires i < |s.table.slots| && !Used(s.table.slots[i])
    ensures ThreadsOk(Goto(s.(table := Table(s.table.slots[i := c], s.table.count + 1)), h, HServing).(
                        owners := s.owners[i := h]))
  {
    var slots := s.table.slots[i := c];
    assert forall socket :: InTable(Table(slots, s.table.count + 1), socket) ==>
        socket == c.socket || InTable(s.table, socket);
    assert Unclaimed(s, c.socket);
  }

  lemma EnterKeepsInv(s: State, h: nat, now: int, sendOk: bool)
    requires Inv(s) && h < |s.handlers| && s.handlers[h].pc.HRegister?
    ensures Inv(DoEnter(s, h, now, sendOk))
  {
    var Handler(socket, HRegister(id)) := s.handlers[h];
    var (table, outcome) := Registration(s.table, socket, id, now, sendOk);
    assert Unclaimed(s, socket);
    RegisterKeepsConsistent(s.table, socket, id, now, sendOk);
    assert |s.owners| == |s.table.slots|;
    var free := First(s.table.slots, (c: Slot) => !Used(c));
    hide ThreadsOk;
    hide Consistent;
    match outcome
    case InUse => FreshMovesOn(s, h, HDone, true);
    case NoSlot => FreshMovesOn(s, h, HServing, false);
    case SendFailed =>
      FreeSlotWritten(s, free, Slot(0, id, now));
      FreshMovesOn(s.(table := table), h, HServing, true);
    case Registered(i) => Claims(s, h, i, Slot(socket, id, now));
  }

  lemma AdmissionKeepsThreads(s: State, a: Action)
    requires ThreadsOk(s) && Enabled(s, a) && (a.Accept? || a.Admit?)
    ensures ThreadsOk(Apply(s, a))
  {
    assert s.main.MAdmitting? ==> Unclaimed(s, s.main.socket);
  }

  lemma ReadFirstKeepsThreads(s: State, h: nat, first: Received)
    requires ThreadsOk(s) && At(s, h, HFirst)
    ensures ThreadsOk(DoReadFirst(s, h, first))
  {
    if first.Message? && StartsWith(first.text, "REGI|") {
      assert Unclaimed(s, s.handlers[h].socket);
    } else {
      FreshMovesOn(s, h, HDone, true);
    }
  }

  lemma ReadKeepsInv(s: State, h: nat, received: Received, now: int, sendOk: bool)
    requires Inv(s) && At(s, h, HServing)
    ensures Inv(DoRead(s, h, received, now, sendOk))
  {
    assert s.handlers[h].socket > 0;
    hide ThreadsOk;
    TouchKeepsConsistent(s.table, s.handlers[h].socket, now);
    hide Consistent;
    TouchKeepsThreads(s, s.handlers[h].socket, now);
    LoopEnds(s, h);
    hide Touch;
  }

  lemma LoopEnds(s: State, h: nat)
    requires ThreadsOk(s) && At(s, h, HServing)
    ensures ThreadsOk(Goto(s, h, HLeaving))
  {
  }

  lemma TouchKeepsThreads(s: State, socket: int, now: int)
    requires ThreadsOk(s)
    ensures ThreadsOk(s.(table := Touch(s.table, socket, now)))
  {
    var t := s.(table := Touch(s.table, socket, now));
    assert forall c :: InTable(t.table, c) ==> InTable(s.table, c);
  }

  /** A handler that leaves closes the slot that holds its descriptor, whoever owns it. */
  lemma LeaveKeepsThreads(s: State, h: nat)
    requires Inv(s) && At(s, h, HLeaving)
    ensures ThreadsOk(DoLeave(s, h))
  {
    var socket := s.handlers[h].socket;
    var i := First(s.table.slots, HasSocket(socket));
    assert socket > 0;
    if i == -1 {
      LeaverWithoutSlot(s, h);
    } else {
      assert forall j :: 0 <= j < |s.table.slots| && j != i ==> s.table.slots[j].socket != socket;
      hide ThreadsOk;
      hide Consistent;
      SlotClosed(s, i, socket);
      LeaverWithoutSlot(Close(s.(table := Remove(s.table, socket)), socket), h);
    }
  }

  lemma LeaverWithoutSlot(s: State, h: nat)
    requires ThreadsOk(s) && At(s, h, HLeaving)
    requires forall j :: 0 <= j < |s.table.slots| ==> s.table.slots[j].socket != s.handlers[h].socket
    ensures ThreadsOk(Goto(s, h, HDone))
  {
  }

  lemma SlotClosed(s: State, i: nat, socket: int)
    requires ThreadsOk(s) && socket > 0 && i < |s.table.slots| && s.table.slots[i].socket == socket
    requires forall j :: 0 <= j < |s.table.slots| && j != i ==> s.table.slots[j].socket != socket
    ensures ThreadsOk(Close(s.(table := Table(s.table.slots[i := Freed(s.table.slots[i])], s.table.count - 1)), socket))
  {
    var slots := s.table.slots[i := Freed(s.table.slots[i])];
    assert InTable(s.table, socket);
    assert forall c :: c > 0 && InTable(Table(slots, s.table.count - 1), c) ==> InTable(s.table, c);
  }

  lemma CheckKeepsThreads(s: State, now: int, pings: seq<bool>)
    requires Inv(s) && |pings| == |s.table.slots|
    ensures ThreadsOk(DoCheck(s, now, pings))
  {
    var t := DoCheck(s, now, pings);
    assert forall c :: c > 0 && InTable(t.table, c) ==> InTable(s.table, c);
  }

  lemma StepKeepsInv(s: State, a: Action)
    requires Inv(s) && Enabled(s, a)
    ensures Inv(Apply(s, a))
  {
    match a
    case Accept(_) => AdmissionKeepsThreads(s, a); hide ThreadsOk;
    case Admit(_) => AdmissionKeepsThreads(s, a); hide ThreadsOk;
    case ReadFirst(h, first) => ReadFirstKeepsThreads(s, h, first); hide ThreadsOk;
    case Enter(h, now, sendOk) => EnterKeepsInv(s, h, now, sendOk);
    case Read(h, received, now, sendOk) => ReadKeepsInv(s, h, received, now, sendOk);
    case Leave(h) => LeaveKeepsInv(s, h);
    case CheckAlive(now, pings) => CheckKeepsInv(s, now, pings);
  }

  lemma LeaveKeepsInv(s: State, h: nat)
    requires Inv(s) && At(s, h, HLeaving)
    ensures Inv(DoLeave(s, h))
  {
    LeaveKeepsThreads(s, h);
    RemoveKeepsConsistent(s.table, s.handlers[h].socket);
    hide ThreadsOk;
    hide Consistent;
  }

  lemma CheckKeepsInv(s: State, now: int, pings: seq<bool>)
    requires Inv(s) && |pings| == |s.table.slots|
    ensures Inv(DoCheck(s, now, pings))
  {
    CheckKeepsThreads(s, now, pings);
    CheckKeepsConsistent(s.table, now, pings);
    hide ThreadsOk;
    hide Consistent;
  }

  lemma {:induction false} RunInv(states: seq<State>, actions: seq<Action>, k: nat)
    requires IsRun(states, actions) && k < |states|
    ensures Inv(states[k])
  {
    if k == 0 {
      InitialInv(states[0]);
    } else {
      RunInv(states, actions, k - 1);
      StepKeepsInv(states[k - 1], actions[k - 1]);
    }
  }

  // ---------------------------------------------------------------- theorems

  /** In every state of every run the counter equals the number of slots in use, between 0 and 10, and
      slots in use hold distinct identifiers and distinct open descriptors. */
  lemma CounterCounts(states: seq<State>, actions: seq<Action>, k: nat)
    requires IsRun(states, actions) && k < |states|
    ensures var slots := states[k].table.slots;
      && |slots| == MAX_CLIENTS
      && 0 <= states[k].table.count == Count(slots, Used) <= MAX_CLIENTS
      && (forall i, j :: 0 <= i < j < MAX_CLIENTS && Used(slots[i]) && Used(slots[j]) ==>
            slots[i].id != slots[j].id && slots[i].socket != slots[j].socket)
      && (forall i :: 0 <= i < MAX_CLIENTS && Used(slots[i]) ==> slots[i].socket in states[k].open)
  {
    RunInv(states, actions, k);
    CountIsUsed(states[k].table);
  }

  /** A newcomer is turned away for lack of room exactly if all slots are in use at that moment. */
  lemma AdmissionExactly(states: seq<State>, actions: seq<Action>, k: nat)
    requires IsRun(states, actions) && k < |actions| && actions[k] == Admit(true)
    ensures |states[k + 1].handlers| == |states[k].handlers| <==>
      forall i :: 0 <= i < |states[k].table.slots| ==> Used(states[k].table.slots[i])
  {
    RunInv(states, actions, k);
    CountIsUsed(states[k].table);
  }

  /** What remove_client frees is the handler's own slot, as long as the handler still owns one. */
  lemma LeaveFreesOwnSlot(states: seq<State>, actions: seq<Action>, k: nat, h: nat, i: nat)
    requires IsRun(states, actions) && k < |actions| && actions[k] == Leave(h) && Owns(states[k], h, i)
    ensures states[k + 1].table.slots == states[k].table.slots[i := Freed(states[k].table.slots[i])]
    ensures states[k + 1].open == states[k].open - {states[k].handlers[h].socket}
  {
    RunInv(states, actions, k);
  }

  /** It is somebody else's exactly if the handler has lost its slot and its descriptor number has been
      given to a client that has registered since. */
  lemma LeaveFreesForeignSlotExactly(states: seq<State>, actions: seq<Action>, k: nat, h: nat, g: nat, i: nat)
    requires IsRun(states, actions) && k < |actions| && actions[k] == Leave(h) && Owns(states[k], g, i) && g != h
    ensures |states[k + 1].table.slots| == |states[k].table.slots| && g < |states[k].handlers|
    ensures !Used(states[k + 1].table.slots[i]) <==> states[k].handlers[g].socket == states[k].handlers[h].socket
    ensures !Used(states[k + 1].table.slots[i]) ==> forall j: nat :: !Owns(states[k], h, j)
  {
    RunInv(states, actions, k);
  }

  function Empty(): Table {
    Table(seq(MAX_CLIENTS, _ => Slot(0, "", 0)), 0)
  }

  function Holding(c: Slot): Table {
    Table(Empty().slots[0 := c], 1)
  }

  const NOBODY := seq(MAX_CLIENTS, _ => -1)

  lemma Extended(states: seq<State>, actions: seq<Action>, a: Action) returns (longer: seq<State>, more: seq<Action>)
    requires IsRun(states, actions) && Enabled(states[|actions|], a)
    ensures IsRun(longer, more) && more == actions + [a] && longer == states + [Apply(states[|actions|], a)]
  {
    hide Apply;
    hide Enabled;
    longer, more := states + [Apply(states[|actions|], a)], actions + [a];
  }

  /** A client with descriptor 5 registers under an identifier. */
  lemma Registers(states: seq<State>, actions: seq<Action>, id: string, now: int)
    returns (longer: seq<State>, more: seq<Action>)
    requires IsRun(states, actions) && 0 < |id| < ID_LENGTH
    requires var s := states[|actions|];
      && s.table.slots == Empty().slots && s.table.count == 0 && s.main.MAccepting?
      && s.open == {} && |s.owners| == MAX_CLIENTS
    ensures IsRun(longer, more)
    ensures var s := states[|actions|];
      longer[|more|] == State(Holding(Slot(5, id, now)), {5}, MAccepting, s.handlers + [Handler(5, HServing)],
                              s.owners[0 := |s.handlers|])
  {
    var s := states[|actions|];
    var h := |s.handlers|;
    longer, more := Extended(states, actions, Accept(5));
    longer, more := Extended(longer, more, Admit(true));
    var first := "REGI|" + id;
    assert first[5..] == id;
    longer, more := Extended(longer, more, ReadFirst(h, Message(first)));
    var t := longer[|more|];
    assert t == State(s.table, {5}, MAccepting, s.handlers + [Handler(5, HRegister(id))], s.owners);
    hide IsRun;
    assert First(t.table.slots, (c: Slot) => !Used(c)) == 0;
    longer, more := Extended(longer, more, Enter(h, now, true));
    assert longer[|more|].handlers == s.handlers + [Handler(5, HServing)];
  }

  /** The alive checker closes the descriptor of a silent client; the next client is given it again. */
  lemma DescriptorReused() returns (states: seq<State>, actions: seq<Action>)
    ensures IsRun(states, actions) && |states| == |actions| + 1
    ensures states[|actions|] == State(Holding(Slot(5, "b", 61)), {5}, MAccepting,
                                       [Handler(5, HServing), Handler(5, HServing)], NOBODY[0 := 1])
  {
    states, actions := [State(Empty(), {}, MAccepting, [], NOBODY)], [];
    assert IsRun(states, actions);
    hide IsRun;
    states, actions := Registers(states, actions, "a", 0);
    var s, pings := states[|actions|], seq(MAX_CLIENTS, _ => true);
    Closed(s, pings);
    hide Empty;
    hide Holding;
    hide DoCheck;
    states, actions := Extended(states, actions, CheckAlive(61, pings));
    OnlyTableChecked(s, 61, pings);
    states, actions := Registers(states, actions, "b", 61);
    assert NOBODY[0 := 0][0 := 1] == NOBODY[0 := 1];
  }

  lemma OnlyTableChecked(s: State, now: int, pings: seq<bool>)
    requires |pings| == |s.table.slots|
    ensures DoCheck(s, now, pings) == s.(table := DoCheck(s, now, pings).table, open := DoCheck(s, now, pings).open)
  {
  }

  /** It does happen: the first client's handler, when it gives up, removes the second client. */
  lemma LeaveFreesForeignSlot()
    ensures exists states: seq<State>, actions: seq<Action> ::
              && IsRun(states, actions) && |actions| > 0 && actions[|actions| - 1] == Leave(0)
              && Owns(states[|actions| - 1], 1, 0) && At(states[|actions|], 1, HServing)
              && |states[|actions|].table.slots| > 0 && !Used(states[|actions|].table.slots[0])
  {
    var states, actions := DescriptorReused();
    hide IsRun;
    states, actions := Extended(states, actions, Read(0, Failed, 61, true));
    var s := states[|actions|];
    assert First(s.table.slots, HasSocket(5)) == 0;
    assert Owns(s, 1, 0);
    states, actions := Extended(states, actions, Leave(0));
    assert At(states[|actions|], 1, HServing);
  }

  lemma Closed(s: State, pings: seq<bool>)
    requires s.table == Holding(Slot(5, "a", 0)) && s.open == {5} && pings == seq(MAX_CLIENTS, _ => true)
    ensures var t := DoCheck(s, 61, pings); t.table.slots == Empty().slots && t.table.count == 0 && t.open == {}
  {
    var t := DoCheck(s, 61, pings);
    assert GivesUp(s.table.slots[0], 61, pings[0]);
    LossesCounted(s.table.slots, 61, pings);
    CountUpdate(Empty().slots, Used, 0, Slot(5, "a", 0));
    assert t.table.slots == Empty().slots;
    assert 5 !in t.open;
  }
}
