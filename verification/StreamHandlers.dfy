/** What each step of the Lab 11 server's threads does, over its runs. */
module StreamHandlers {
  import opened Sequences
  import opened Wire
  import opened StreamTable
  import opened StreamServer

  /** A connection that is let in gets a handler; any other is closed. */
  lemma AdmittedExactly(states: seq<State>, actions: seq<Action>, k: nat, created: bool)
    requires IsRun(states, actions) && k < |actions| && actions[k] == Admit(created)
    ensures states[k].main.MAdmitting?
    ensures var s, t, socket := states[k], states[k + 1], states[k].main.socket;
      && t.table == s.table && t.main.MAccepting?
      && if created && (exists i :: 0 <= i < |s.table.slots| && !Used(s.table.slots[i]))
         then t.handlers == s.handlers + [Handler(socket, HFirst)] && t.open == s.open
         else t.handlers == s.handlers && t.open == s.open - {socket}
  {
    RunInv(states, actions, k);
    CountIsUsed(states[k].table);
  }

  /** A first message that asks to register carries the identifier, cut to its field; any other, or none,
      ends the connection. */
  lemma FirstMessageExactly(states: seq<State>, actions: seq<Action>, k: nat, h: nat, first: Received)
    requires IsRun(states, actions) && k < |actions| && actions[k] == ReadFirst(h, first)
    ensures h < |states[k].handlers|
    ensures var s, t, socket := states[k], states[k + 1], states[k].handlers[h].socket;
      && t.table == s.table
      && (forall id: string :: first == Message("REGI|" + id) ==>
            && t.open == s.open
            && t.handlers == s.handlers[h := Handler(socket, HRegister(if |id| < ID_LENGTH then id else id[..31]))])
      && (!(first.Message? && StartsWith(first.text, "REGI|")) ==>
            t.open == s.open - {socket} && t.handlers == s.handlers[h := Handler(socket, HDone)])
  {
    forall id: string | first == Message("REGI|" + id)
      ensures first.text[5..] == id && StartsWith(first.text, "REGI|")
    {
    }
  }

  /** The identifier is in use by some client. */
  predicate Taken(t: Table, id: string) {
    exists i :: 0 <= i < |t.slots| && Used(t.slots[i]) && t.slots[i].id == id
  }

  predicate Full(t: Table) {
    forall i :: 0 <= i < |t.slots| ==> Used(t.slots[i])
  }

  /** A taken identifier ends the connection; a full table leaves it without a slot. */
  lemma RefusedExactly(states: seq<State>, actions: seq<Action>, k: nat, h: nat, now: int, sendOk: bool)
    requires IsRun(states, actions) && k < |actions| && actions[k] == Enter(h, now, sendOk)
    ensures h < |states[k].handlers| && states[k].handlers[h].pc.HRegister?
    ensures var s, t, Handler(socket, HRegister(id)) := states[k], states[k + 1], states[k].handlers[h];
      && (Taken(s.table, id) ==>
            t.table == s.table && t.open == s.open - {socket} && t.handlers == s.handlers[h := Handler(socket, HDone)])
      && (!Taken(s.table, id) && Full(s.table) ==>
            t.table == s.table && t.open == s.open && t.handlers == s.handlers[h := Handler(socket, HServing)])
  {
  }

  /** Otherwise the client gets a free slot, unless the answer cannot be sent: then no client's slot is
      touched and the connection is closed. */
  lemma RegisteredExactly(states: seq<State>, actions: seq<Action>, k: nat, h: nat, now: int, sendOk: bool)
    returns (i: nat)
    requires IsRun(states, actions) && k < |actions| && actions[k] == Enter(h, now, sendOk)
    requires h < |states[k].handlers| && states[k].handlers[h].pc.HRegister?
    requires !Taken(states[k].table, states[k].handlers[h].pc.id) && !Full(states[k].table)
    ensures var s, t, Handler(socket, HRegister(id)) := states[k], states[k + 1], states[k].handlers[h];
      && i < |s.table.slots| && !Used(s.table.slots[i])
      && t.handlers == s.handlers[h := Handler(socket, HServing)]
      && (sendOk ==> t.table == Table(s.table.slots[i := Slot(socket, id, now)], s.table.count + 1) && t.open == s.open
                     && Owns(t, h, i))
      && (!sendOk ==>
            t.table == Table(s.table.slots[i := Slot(0, id, now)], s.table.count) && t.open == s.open - {socket})
  {
    RunInv(states, actions, k);
    var s := states[k];
    i := First(s.table.slots, (c: Slot) => !Used(c));
    var socket := s.handlers[h].socket;
    assert Unclaimed(s, socket);
  }

  /** PONG refreshes the slot of the handler that reads it, and only that. */
  lemma PongRefreshes(
    states: seq<State>, actions: seq<Action>, k: nat, h: nat, text: string, now: int, sendOk: bool, i: nat)
    requires IsRun(states, actions) && k < |actions| && actions[k] == Read(h, Message(text), now, sendOk)
    requires StartsWith(text, "PONG") && Owns(states[k], h, i)
    ensures var s, slot := states[k], states[k].table.slots[i];
      states[k + 1] == s.(table := s.table.(slots := s.table.slots[i := slot.(lastActive := now)]))
  {
    RunInv(states, actions, k);
    var slots, socket := states[k].table.slots, states[k].handlers[h].socket;
    assert forall j :: 0 <= j < |slots| && j != i ==> slots[j].socket != socket;
  }

  /** A handler leaves its loop exactly when nothing more comes, on STOP, or when its answer to LIST cannot
      be sent; other messages leave table, descriptors and handlers alone. */
  lemma LoopEndsExactly(
    states: seq<State>, actions: seq<Action>, k: nat, h: nat, received: Received, now: int, sendOk: bool)
    requires IsRun(states, actions) && k < |actions| && actions[k] == Read(h, received, now, sendOk)
    requires received.Message? ==> !StartsWith(received.text, "PONG")
    ensures h < |states[k].handlers|
    ensures states[k + 1] ==
      if received.Failed? || StartsWith(received.text, "STOP") || (StartsWith(received.text, "LIST") && !sendOk)
      then states[k].(handlers := states[k].handlers[h := states[k].handlers[h].(pc := HLeaving)])
      else states[k]
  {
  }

  /** The alive checker frees exactly the slots that have been silent for more than 60 seconds or cannot be
      pinged, and closes exactly their descriptors. */
  lemma CheckedExactly(states: seq<State>, actions: seq<Action>, k: nat, now: int, pings: seq<bool>)
    requires IsRun(states, actions) && k < |actions| && actions[k] == CheckAlive(now, pings)
    ensures |states[k].table.slots| == |states[k + 1].table.slots| == |pings|
    ensures var before, after := states[k].table.slots, states[k + 1].table.slots;
      && (forall i :: 0 <= i < |before| && Used(before[i]) && now - before[i].lastActive <= 60 && pings[i] ==>
            after[i] == before[i] && before[i].socket in states[k + 1].open)
      && (forall i :: 0 <= i < |before| && Used(before[i]) && (now - before[i].lastActive > 60 || !pings[i]) ==>
            !Used(after[i]) && before[i].socket !in states[k + 1].open)
      && (forall i :: 0 <= i < |before| && !Used(before[i]) ==> after[i] == before[i])
    ensures states[k + 1].handlers == states[k].handlers && states[k + 1].open <= states[k].open
    ensures forall c :: c in states[k].open && !InTable(states[k].table, c) ==> c in states[k + 1].open
  {
    RunInv(states, actions, k);
  }
}
