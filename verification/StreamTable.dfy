/**
 The client table of the Lab 11 server, which serves streams: a slot is free while its socket is 0,
 and a counter beside the table decides whether a newcomer is let in.
 */
module StreamTable {
  import opened Sequences
  import opened Wire

  const MAX_CLIENTS := 10
  const PING_TIMEOUT := 60

  datatype Slot = Slot(socket: int, id: string, lastActive: int)

  datatype Table = Table(slots: seq<Slot>, count: int)

  predicate Used(c: Slot) { c.socket != 0 }

  function HasId(id: string): Slot -> bool {
    (c: Slot) => Used(c) && c.id == id
  }

  /** The search of remove_client, which would also find a free slot for socket 0. */
  function HasSocket(socket: int): Slot -> bool {
    (c: Slot) => c.socket == socket
  }

  function Freed(c: Slot): Slot {
    c.(socket := 0, id := "")
  }

  datatype Outcome = InUse | NoSlot | Registered(slot: nat) | SendFailed

  /** Registration under an identifier that has already been cut to its field. */
  function Registration(t: Table, socket: int, id: string, now: int, sendOk: bool): (Table, Outcome) {
    var free := First(t.slots, (c: Slot) => !Used(c));
    if First(t.slots, HasId(id)) != -1 then (t, InUse)
    else if free == -1 then (t, NoSlot)
    else if sendOk then (Table(t.slots[free := Slot(socket, id, now)], t.count + 1), Registered(free))
    else (t.(slots := t.slots[free := Slot(0, id, now)]), SendFailed)
  }

  function Remove(t: Table, socket: int): Table {
    var i := First(t.slots, HasSocket(socket));
    if i == -1 then t else Table(t.slots[i := Freed(t.slots[i])], t.count - 1)
  }

  function Touch(t: Table, socket: int, now: int): Table {
    var i := First(t.slots, HasSocket(socket));
    if i == -1 then t else t.(slots := t.slots[i := t.slots[i].(lastActive := now)])
  }

  predicate GivesUp(c: Slot, now: int, pingOk: bool) {
    Used(c) && (now - c.lastActive > PING_TIMEOUT || !pingOk)
  }

  function CheckSlot(c: Slot, now: int, pingOk: bool): Slot {
    if GivesUp(c, now, pingOk) then Freed(c) else c
  }

  /** One pass of the alive checker; `pings` says for which slots a ping can be sent. */
  function CheckSlots(slots: seq<Slot>, now: int, pings: seq<bool>): (r: seq<Slot>)
    requires |pings| == |slots|
    ensures |r| == |slots| && forall i :: 0 <= i < |slots| ==> r[i] == CheckSlot(slots[i], now, pings[i])
  {
    seq(|slots|, i requires 0 <= i < |slots| => CheckSlot(slots[i], now, pings[i]))
  }

  function Losses(slots: seq<Slot>, now: int, pings: seq<bool>): nat
    requires |pings| == |slots|
  {
    if slots == [] then 0
    else (if GivesUp(slots[0], now, pings[0]) then 1 else 0) + Losses(slots[1..], now, pings[1..])
  }

  function Check(t: Table, now: int, pings: seq<bool>): Table
    requires |pings| == |t.slots|
  {
    Table(CheckSlots(t.slots, now, pings), t.count - Losses(t.slots, now, pings))
  }

  // ------------------------------------------------------------- consistency

  /** The counter counts; slots in use hold distinct open sockets and distinct identifiers. */
  predicate Consistent(t: Table) {
    && |t.slots| == MAX_CLIENTS && t.count == Count(t.slots, Used)
    && (forall i :: 0 <= i < |t.slots| && Used(t.slots[i]) ==> t.slots[i].socket > 0 && |t.slots[i].id| < ID_LENGTH)
    && (forall i, j :: 0 <= i < j < |t.slots| && Used(t.slots[i]) && Used(t.slots[j]) ==>
          t.slots[i].socket != t.slots[j].socket && t.slots[i].id != t.slots[j].id)
  }

  lemma {:induction false} CountAtMost<T>(s: seq<T>, p: T -> bool)
    ensures Count(s, p) <= |s|
    ensures Count(s, p) == |s| <==> forall i :: 0 <= i < |s| ==> p(s[i])
  {
    if s != [] {
      CountAtMost(s[1..], p);
      assert forall i :: 0 < i < |s| ==> s[i] == s[1..][i - 1];
    }
  }

  /** The counter is the number of slots in use, and full exactly when they all are. */
  lemma CountIsUsed(t: Table)
    requires Consistent(t)
    ensures 0 <= t.count <= MAX_CLIENTS
    ensures t.count == MAX_CLIENTS <==> First(t.slots, (c: Slot) => !Used(c)) == -1
  {
    CountAtMost(t.slots, Used);
  }

  /** A socket that is not in the table yet can be registered, whatever becomes of the answer. */
  lemma RegisterKeepsConsistent(t: Table, socket: int, id: string, now: int, sendOk: bool)
    requires Consistent(t) && socket > 0 && |id| < ID_LENGTH
    requires First(t.slots, HasSocket(socket)) == -1
    ensures Consistent(Registration(t, socket, id, now, sendOk).0)
  {
    var free := First(t.slots, (c: Slot) => !Used(c));
    if free != -1 {
      CountUpdate(t.slots, Used, free, Slot(socket, id, now));
      CountUpdate(t.slots, Used, free, Slot(0, id, now));
    }
  }

  lemma RemoveKeepsConsistent(t: Table, socket: int)
    requires Consistent(t) && socket > 0
    ensures Consistent(Remove(t, socket))
  {
    var i := First(t.slots, HasSocket(socket));
    if i != -1 {
      CountUpdate(t.slots, Used, i, Freed(t.slots[i]));
    }
  }

  lemma TouchKeepsConsistent(t: Table, socket: int, now: int)
    requires Consistent(t) && socket > 0
    ensures Consistent(Touch(t, socket, now))
  {
    var i := First(t.slots, HasSocket(socket));
    if i != -1 {
      CountUpdate(t.slots, Used, i, t.slots[i].(lastActive := now));
    }
  }

  lemma {:induction false} LossesCounted(slots: seq<Slot>, now: int, pings: seq<bool>)
    requires |pings| == |slots|
    ensures Count(CheckSlots(slots, now, pings), Used) == Count(slots, Used) - Losses(slots, now, pings)
  {
    if slots != [] {
      LossesCounted(slots[1..], now, pings[1..]);
      assert CheckSlots(slots, now, pings)[1..] == CheckSlots(slots[1..], now, pings[1..]);
    }
  }

  lemma CheckKeepsConsistent(t: Table, now: int, pings: seq<bool>)
    requires Consistent(t) && |pings| == MAX_CLIENTS
    ensures Consistent(Check(t, now, pings))
  {
    LossesCounted(t.slots, now, pings);
  }

  // ----------------------------------------------------------- the program's

  class Server {
    const clients: array<Slot>
    var clientCount: int

    ghost function View(): Table
      reads this, clients
    {
      Table(clients[..], clientCount)
    }

    constructor ()
      ensures fresh(clients) && Consistent(View()) && clientCount == 0
    {
      clients := new Slot[MAX_CLIENTS](_ => Slot(0, "", 0));
      clientCount := 0;
      new;
      CountNone(clients[..], Used);
    }

    /** The two loops of the registration. */
    method RegisterClient(socket: int, id: string, now: int, sendOk: bool) returns (outcome: Outcome)
      modifies this, clients
      ensures (View(), outcome) == Registration(old(View()), socket, id, now, sendOk)
    {
      ghost var t := View();
      for i := 0 to clients.Length
        invariant View() == t && First(t.slots, HasId(id)) == First(t.slots, HasId(id), i)
      {
        if clients[i].socket != 0 && clients[i].id == id {
          return InUse;
        }
      }
      ghost var free := (c: Slot) => !Used(c);
      for i := 0 to clients.Length
        invariant View() == t && First(t.slots, free) == First(t.slots, free, i)
      {
        if clients[i].socket == 0 {
          clients[i] := Slot(socket, id, now);
          clientCount := clientCount + 1;
          if !sendOk {
            clients[i] := clients[i].(socket := 0);
            clientCount := clientCount - 1;
            assert clients[..] == t.slots[i := Slot(0, id, now)];
            return SendFailed;
          }
          return Registered(i);
        }
      }
      return NoSlot;
    }

    method RemoveClient(socket: int)
      modifies this, clients
      ensures View() == Remove(old(View()), socket)
    {
      ghost var t := View();
      for i := 0 to clients.Length
        invariant View() == t && First(t.slots, HasSocket(socket)) == First(t.slots, HasSocket(socket), i)
      {
        if clients[i].socket == socket {
          clients[i] := clients[i].(socket := 0, id := "");
          clientCount := clientCount - 1;
          return;
        }
      }
    }

    /** One pass of the alive checker over the table. */
    method CheckAlive(now: int, pings: seq<bool>)
      requires |pings| == clients.Length
      modifies this, clients
      ensures View() == Check(old(View()), now, pings)
    {
      ghost var t := View();
      assert t.slots[0..] == t.slots && pings[0..] == pings;
      for i := 0 to clients.Length
        invariant clientCount - Losses(t.slots[i..], now, pings[i..]) == t.count - Losses(t.slots, now, pings)
        invariant forall j :: 0 <= j < i ==> clients[j] == CheckSlot(t.slots[j], now, pings[j])
        invariant forall j :: i <= j < clients.Length ==> clients[j] == t.slots[j]
      {
        assert t.slots[i..][1..] == t.slots[i + 1..] && pings[i..][1..] == pings[i + 1..];
        if clients[i].socket != 0 {
          if now - clients[i].lastActive > PING_TIMEOUT || !pings[i] {
            clients[i] := clients[i].(socket := 0, id := "");
            clientCount := clientCount - 1;
          }
        }
      }
    }
  }
}
