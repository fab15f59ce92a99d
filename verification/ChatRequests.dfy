/**
 What becomes of a datagram that the Lab 12 server receives, over runs in which the ping thread sweeps
 in between: from the datagram itself to the answers sent and the clients registered.
 */
module ChatRequests {
  import opened Wire
  import opened ChatTable
  import opened ChatServer
  import opened ChatLists

  // -------------------------------------------- the steps of main on a request

  ghost predicate OnlyPings(actions: seq<Action>, a: nat, b: nat)
    requires b <= |actions|
  {
    forall q :: a < q < b ==> actions[q].Ping?
  }

  /** Main receives a datagram in step k and takes its next step in step p. */
  ghost predicate Handles(actions: seq<Action>, k: nat, p: nat) {
    k < p < |actions| && actions[k].Receive? && actions[p].Proceed? && OnlyPings(actions, k, p)
  }

  ghost predicate GoesOn(actions: seq<Action>, p: nat, q: nat) {
    p < q < |actions| && actions[q].Proceed? && OnlyPings(actions, p, q)
  }

  /** Sweeps leave everything alone but slots that they give up. */
  predicate OnlySwept(s: State, t: State) {
    && t.main == s.main && t.registered == s.registered && t.forwards == s.forwards && |t.table| == |s.table|
    && (forall i :: 0 <= i < |s.table| ==>
          && t.table[i].id == s.table[i].id && t.table[i].addr == s.table[i].addr
          && t.table[i].lastActive == s.table[i].lastActive && (t.table[i].active ==> s.table[i].active))
    && s.sent <= t.sent
  }

  lemma {:induction false} Waits(states: seq<State>, actions: seq<Action>, a: nat, b: nat)
    requires IsRun(states, actions) && a <= b < |states| && forall q :: a <= q < b ==> actions[q].Ping?
    ensures OnlySwept(states[a], states[b])
    decreases b
  {
    if a < b {
      Waits(states, actions, a, b - 1);
      RunInv(states, actions, b - 1);
      assert Step(states[b - 1], actions[b - 1], states[b]);
    }
  }

  /** Main has looked the sender up in the table as it was when the datagram came. */
  lemma LookedUp(states: seq<State>, actions: seq<Action>, k: nat, p: nat)
    requires IsRun(states, actions) && Handles(actions, k, p)
    ensures |states[k].table| == |states[p].table| == MAX_CLIENTS
    ensures var a := actions[k];
      states[p].main == MLookedUp(a.addr, ServerParse(a.datagram), FindByAddr(states[k].table, a.addr))
    ensures forall i :: 0 <= i < MAX_CLIENTS ==>
      states[p].table[i].id == states[k].table[i].id && states[p].table[i].addr == states[k].table[i].addr
  {
    RunInv(states, actions, k);
    RunInv(states, actions, p);
    assert Step(states[k], actions[k], states[k + 1]);
    Waits(states, actions, k + 1, p);
    hide ServerParse;
  }

  /** The slot of the sender of the datagram received in step k: the first one in use with its address. */
  function SenderSlot(states: seq<State>, actions: seq<Action>, k: nat): int
    requires k < |actions| && k < |states| && actions[k].Receive?
  {
    FindByAddr(states[k].table, actions[k].addr)
  }

  /** A sweep gives up the clients that have been silent for more than 60 seconds and pings all others. */
  lemma SweepPings(states: seq<State>, actions: seq<Action>, k: nat) returns (slots: seq<nat>)
    requires IsRun(states, actions) && k < |actions| && actions[k].Ping?
    ensures |states[k].table| == |states[k + 1].table| == 10
    ensures var s, t, now := states[k], states[k + 1], actions[k].now;
      && SlotsOf(s.table, slots) && InOrder(slots)
      && (forall i: nat :: i in slots <==> i < 10 && s.table[i].active && now - s.table[i].lastActive <= 60)
      && t.sent == s.sent + SameText(Addresses(s.table, slots), "PING")
      && (forall i: nat :: i < 10 ==> t.table[i] == if i in slots then s.table[i] else s.table[i].(active := false))
  {
    RunInv(states, actions, k);
    assert Step(states[k], actions[k], states[k + 1]);
    slots := PingedExactly(states[k].table, actions[k].now);
  }

  // ------------------------------------------------------------ registration

  /** What registration does to the table and how it is answered, in terms of the map before. */
  lemma RegistrationEffect(t: seq<Client>, id: string, addr: Address, now: int)
    requires UniqueIds(t) && |id| < ID_LENGTH && |t| == MAX_CLIENTS
    ensures var m, r := Registry(t), Registration(t, id, addr, now);
      && (id in m ==> r == (t, InUse))
      && (id !in m && |m| == MAX_CLIENTS ==> r == (t, ServerFull))
      && (id !in m && |m| != MAX_CLIENTS ==>
            && r.1 == Accepted && Registry(r.0) == m[id := addr]
            && 0 <= FindById(r.0, id) < |r.0| && r.0[FindById(r.0, id)] == Client(id, addr, now, true))
  {
    hide Registry;
    hide UniqueIds;
    RegistrationRefines(t, id, addr, now);
    RegistryLookup(t, id);
    var (u, reply) := Registration(t, id, addr, now);
    if reply == Accepted {
      RegistryAt(u, FindFree(t));
    }
  }

  /** A request to register inserts the identifier, unless it is in use or the table is full, and is
      answered accordingly. */
  lemma RegistrationHandled(states: seq<State>, actions: seq<Action>, k: nat, p: nat, id: string)
    requires IsRun(states, actions) && ShortIds(actions) && Handles(actions, k, p)
    requires actions[k].datagram == "REGI|" + id
    ensures var s, t, addr := states[p], states[p + 1], actions[k].addr;
      var m := Registry(s.table);
      && |id| < 32 && t.main.MReceiving?
      && (id in m ==> t.table == s.table && t.sent == s.sent + [Datagram(addr, "ERROR|ID already in use")])
      && (id !in m && |m| == 10 ==>
            t.table == s.table && t.sent == s.sent + [Datagram(addr, "ERROR|Server is ful")])
      && (id !in m && |m| != 10 ==>
            && Registry(t.table) == m[id := addr] && t.sent == s.sent + [Datagram(addr, "OK")]
            && 0 <= FindById(t.table, id) < |t.table|
            && t.table[FindById(t.table, id)] == Client(id, addr, actions[p].now, true))
  {
    hide Registry;
    hide UniqueIds;
    hide ServerParse;
    hide Registration;
    RegisterParsed(id);
    LookedUp(states, actions, k, p);
    RunRefinesRegistry(states, actions, p);
    assert Step(states[p], actions[p], states[p + 1]);
    RegistrationEffect(states[p].table, id, actions[k].addr, actions[p].now);
    assert "ERROR|Server is full"[..19] == "ERROR|Server is ful";
  }

  /** Whatever its length, the identifier goes into the first free slot, cut to its field, unless an active
      slot holds it as it is or no slot is free. */
  lemma RegistrationStored(states: seq<State>, actions: seq<Action>, k: nat, p: nat, id: string) returns (i: nat)
    requires IsRun(states, actions) && Handles(actions, k, p) && actions[k].datagram == "REGI|" + id
    ensures |states[p].table| == 10
    ensures var s, t, addr := states[p], states[p + 1], actions[k].addr;
      var taken := exists j :: 0 <= j < 10 && s.table[j].active && s.table[j].id == id;
      var full := forall j :: 0 <= j < 10 ==> s.table[j].active;
      && t.main.MReceiving?
      && (taken ==> t.table == s.table && t.sent == s.sent + [Datagram(addr, "ERROR|ID already in use")])
      && (!taken && full ==> t.table == s.table && t.sent == s.sent + [Datagram(addr, "ERROR|Server is ful")])
      && (!taken && !full ==>
            && i < 10 && !s.table[i].active && (forall j :: 0 <= j < i ==> s.table[j].active)
            && t.table == s.table[i := Client(if |id| < 32 then id else id[..31], addr, actions[p].now, true)]
            && t.sent == s.sent + [Datagram(addr, "OK")])
  {
    hide ServerParse;
    RegisterParsed(id);
    LookedUp(states, actions, k, p);
    assert Step(states[p], actions[p], states[p + 1]);
    i := if FindFree(states[p].table) >= 0 then FindFree(states[p].table) else 0;
    assert "ERROR|Server is full"[..19] == "ERROR|Server is ful";
  }

  lemma RegisterParsed(id: string)
    ensures ServerParse("REGI|" + id) == Register(id)
  {
    hide ServerParse;
    var d := "REGI|" + id;
    ParsedExactly(d);
    assert d[5..] == id && ("REGI|" + ServerParse(d).id)[5..] == ServerParse(d).id;
  }

  // -------------------------------------------------- requests of clients

  /** Somebody unknown is told so. */
  lemma StrangerAnswered(states: seq<State>, actions: seq<Action>, k: nat, p: nat)
    requires IsRun(states, actions) && Handles(actions, k, p)
    requires !StartsWith(actions[k].datagram, "REGI|") && SenderSlot(states, actions, k) == -1
    ensures var s, t := states[p], states[p + 1];
      && t.main.MReceiving? && t.table == s.table
      && t.sent == s.sent + [Datagram(actions[k].addr, "ERROR|Not registered")]
  {
    ParsedExactly(actions[k].datagram);
    LookedUp(states, actions, k, p);
    RunInv(states, actions, p);
    assert Step(states[p], actions[p], states[p + 1]);
    hide ServerParse;
  }

  /** Any request refreshes its sender's slot and nothing else. */
  lemma RequestRefreshes(states: seq<State>, actions: seq<Action>, k: nat, p: nat)
    requires IsRun(states, actions) && Handles(actions, k, p)
    requires !StartsWith(actions[k].datagram, "REGI|") && SenderSlot(states, actions, k) != -1
    ensures |states[p].table| == |states[k].table| == MAX_CLIENTS
    ensures var s, t, a, i := states[p], states[p + 1], actions[k], SenderSlot(states, actions, k);
      && 0 <= i < MAX_CLIENTS && t.main == MKnown(a.addr, ServerParse(a.datagram), i)
      && t.table == s.table[i := s.table[i].(lastActive := actions[p].now)]
      && t.table[i].id == states[k].table[i].id && t.sent == s.sent
      && t.registered == s.registered && t.forwards == s.forwards
  {
    ParsedExactly(actions[k].datagram);
    LookedUp(states, actions, k, p);
    RunInv(states, actions, p);
    assert Step(states[p], actions[p], states[p + 1]);
    hide ServerParse;
  }

  /** A request from a known client on its way: received in step k, known in step p, dispatched in step q. */
  ghost predicate Dispatched(states: seq<State>, actions: seq<Action>, k: nat, p: nat, q: nat, datagram: string) {
    && IsRun(states, actions) && Handles(actions, k, p) && GoesOn(actions, p, q)
    && actions[k].datagram == datagram && !StartsWith(datagram, "REGI|") && SenderSlot(states, actions, k) != -1
  }

  lemma Arrived(states: seq<State>, actions: seq<Action>, k: nat, p: nat, q: nat, datagram: string)
    requires Dispatched(states, actions, k, p, q, datagram)
    ensures |states[q].table| == |states[k].table| == MAX_CLIENTS && 0 <= SenderSlot(states, actions, k) < MAX_CLIENTS
    ensures var i := SenderSlot(states, actions, k);
      && states[q].main == MKnown(actions[k].addr, ServerParse(datagram), i)
      && states[q].table[i].id == states[k].table[i].id
      && Inv(states[q]) && Step(states[q], actions[q], states[q + 1])
  {
    RequestRefreshes(states, actions, k, p);
    RunInv(states, actions, q);
    Waits(states, actions, p + 1, q);
    hide ServerParse;
  }

  /** STOP removes its sender's identifier, and only that, if the slot is still in use. */
  lemma StopRemoves(states: seq<State>, actions: seq<Action>, k: nat, p: nat, q: nat)
    requires Dispatched(states, actions, k, p, q, "STOP") && ShortIds(actions)
    ensures |states[q].table| == |states[k].table| == MAX_CLIENTS && 0 <= SenderSlot(states, actions, k) < MAX_CLIENTS
    ensures var s, t, i := states[q], states[q + 1], SenderSlot(states, actions, k);
      && t.main.MReceiving? && t.sent == s.sent
      && Registry(t.table) ==
           if s.table[i].active then Registry(s.table) - {states[k].table[i].id} else Registry(s.table)
  {
    hide Registry;
    hide UniqueIds;
    hide ServerParse;
    ParsedExactly("STOP");
    Arrived(states, actions, k, p, q, "STOP");
    RunRefinesRegistry(states, actions, q);
    DeactivateRefines(states[q].table, SenderSlot(states, actions, k));
  }

  /** PONG has no effect but the refreshed time. */
  lemma PongKeeps(states: seq<State>, actions: seq<Action>, k: nat, p: nat, q: nat)
    requires Dispatched(states, actions, k, p, q, "PONG")
    ensures var s, t := states[q], states[q + 1];
      t.main.MReceiving? && t.table == s.table && t.sent == s.sent && t.registered == s.registered
  {
    hide ServerParse;
    ParsedExactly("PONG");
    Arrived(states, actions, k, p, q, "PONG");
  }

  /** LIST is answered to its sender with the names of the clients in use at that moment. */
  lemma ListAnswered(states: seq<State>, actions: seq<Action>, k: nat, p: nat, q: nat)
    requires Dispatched(states, actions, k, p, q, "LIST")
    ensures var s, t := states[q], states[q + 1];
      && t.main.MReceiving? && t.table == s.table
      && t.sent == s.sent + [Datagram(actions[k].addr, "LIST|" + Names(s.table, true))]
  {
    hide ServerParse;
    ParsedExactly("LIST");
    Arrived(states, actions, k, p, q, "LIST");
  }

  /** What is no command is answered as such, and changes nothing. */
  lemma UnknownAnswered(states: seq<State>, actions: seq<Action>, k: nat, p: nat, q: nat, d: string)
    requires Dispatched(states, actions, k, p, q, d) && d != "LIST" && d != "PONG" && d != "STOP"
    requires !StartsWith(d, "2ALL|") && !StartsWith(d, "2ONE|")
    ensures var s, t := states[q], states[q + 1];
      && t.main.MReceiving? && t.table == s.table
      && t.sent == s.sent + [Datagram(actions[k].addr, "ERROR|Unknown command")]
  {
    hide ServerParse;
    ParsedExactly(d);
    Arrived(states, actions, k, p, q, d);
  }

  // ------------------------------------------------------------- messages

  /** A message on its way to everybody: from the datagram to the copies sent in step z. */
  lemma BroadcastDelivered(states: seq<State>, actions: seq<Action>, k: nat, p: nat, q: nat, z: nat, text: string)
    returns (slots: seq<nat>)
    requires Dispatched(states, actions, k, p, q, "2ALL|" + text) && GoesOn(actions, q, z)
    ensures |states[z].table| == |states[k].table| == MAX_CLIENTS && 0 <= SenderSlot(states, actions, k) < MAX_CLIENTS
    ensures var s, t := states[z], states[z + 1];
      var sender := states[k].table[SenderSlot(states, actions, k)].id;
      && SlotsOf(s.table, slots) && InOrder(slots)
      && (forall i: nat :: i in slots <==> i < MAX_CLIENTS && s.table[i].active && s.table[i].id != sender)
      && t.main.MReceiving? && t.table == s.table
      && t.sent == s.sent + SameText(Addresses(s.table, slots), FormatAll(sender, actions[q].timestamp, text))
    ensures states[q + 1].sent == states[q].sent && states[q + 1].table == states[q].table
  {
    hide ServerParse;
    var d := "2ALL|" + text;
    var i := SenderSlot(states, actions, k);
    ParsedExactly(d);
    assert ServerParse(d) == SendAll(text) by {
      assert d[5..] == text && ("2ALL|" + ServerParse(d).text)[5..] == ServerParse(d).text;
    }
    Arrived(states, actions, k, p, q, d);
    RunInv(states, actions, z);
    Waits(states, actions, q + 1, z);
    assert Step(states[z], actions[z], states[z + 1]);
    var sender := states[k].table[i].id;
    slots := RecipientsExactly(states[z].table, sender);
    CopiesExactly(Recipients(states[z].table, sender), FormatAll(sender, actions[q].timestamp, text));
  }

  /** A private message on its way: one datagram to whoever is registered under the recipient's identifier
      when it is passed on, with the sender's identifier and the text; or none. */
  lemma PrivateDelivered(
    states: seq<State>, actions: seq<Action>, k: nat, p: nat, q: nat, z: nat, recipient: string, text: string)
    requires Dispatched(states, actions, k, p, q, "2ONE|" + recipient + "|" + text) && GoesOn(actions, q, z)
    requires Clean(recipient, {'|'}) && text != ""
    ensures |states[z].table| == |states[k].table| == MAX_CLIENTS && 0 <= SenderSlot(states, actions, k) < MAX_CLIENTS
    ensures var s, t, m := states[z], states[z + 1], Registry(states[z].table);
      var sender := states[k].table[SenderSlot(states, actions, k)].id;
      && t.main.MReceiving? && t.table == s.table
      && t.sent == s.sent + if recipient in m
           then [Datagram(m[recipient], FormatOne(sender, actions[q].timestamp, text))] else []
    ensures states[q + 1].sent == states[q].sent && states[q + 1].table == states[q].table
  {
    hide ServerParse;
    hide Registry;
    var d := "2ONE|" + recipient + "|" + text;
    PrivateReadBack(recipient, text);
    Arrived(states, actions, k, p, q, d);
    RunInv(states, actions, z);
    Waits(states, actions, q + 1, z);
    assert Step(states[z], actions[z], states[z + 1]);
    RegistryLookup(states[z].table, recipient);
  }
}
