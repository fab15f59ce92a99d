/** What the Lab 12 server sends to several clients, or says about them, slot by slot. */
module ChatLists {
  import opened Separated
  import opened Sequences
  import opened ChatTable

  predicate SlotsOf(t: seq<Client>, slots: seq<nat>) {
    forall k :: 0 <= k < |slots| ==> slots[k] < |t|
  }

  predicate InOrder(slots: seq<nat>) {
    forall a, b :: 0 <= a < b < |slots| ==> slots[a] < slots[b]
  }

  function Addresses(t: seq<Client>, slots: seq<nat>): seq<Address>
    requires SlotsOf(t, slots)
  {
    seq(|slots|, k requires 0 <= k < |slots| => t[slots[k]].addr)
  }

  function Ids(t: seq<Client>, slots: seq<nat>): seq<string>
    requires SlotsOf(t, slots)
  {
    seq(|slots|, k requires 0 <= k < |slots| => t[slots[k]].id)
  }

  /** One datagram with the text to each address. */
  function SameText(to: seq<Address>, text: string): seq<Datagram> {
    seq(|to|, k requires 0 <= k < |to| => Datagram(to[k], text))
  }

  function Others(sender: string): Client -> bool {
    (c: Client) => c.active && c.id != sender
  }

  function HeardOf(now: int): Client -> bool {
    (c: Client) => c.active && now - c.lastActive <= PING_TIMEOUT
  }

  function Registered(): Client -> bool {
    (c: Client) => c.active
  }

  lemma WhereSlots(t: seq<Client>, p: Client -> bool, from: nat)
    requires from <= |t|
    ensures SlotsOf(t, Where(t, p, from)) && InOrder(Where(t, p, from))
  {
    var slots := Where(t, p, from);
    assert forall k :: 0 <= k < |slots| ==> slots[k] in slots;
  }

  /** A slot in front of others. */
  lemma SlotInFront(t: seq<Client>, slot: nat, rest: seq<nat>)
    requires slot < |t| && SlotsOf(t, rest)
    ensures SlotsOf(t, [slot] + rest)
    ensures Addresses(t, [slot] + rest) == [t[slot].addr] + Addresses(t, rest)
    ensures Ids(t, [slot] + rest) == [t[slot].id] + Ids(t, rest)
  {
  }

  /** The first slot and the rest. */
  lemma WhereNext(t: seq<Client>, p: Client -> bool, from: nat)
    requires from < |t|
    ensures SlotsOf(t, Where(t, p, from)) && SlotsOf(t, Where(t, p, from + 1))
    ensures Where(t, p, from) == if p(t[from]) then [from] + Where(t, p, from + 1) else Where(t, p, from + 1)
    ensures Addresses(t, Where(t, p, from)) ==
      (if p(t[from]) then [t[from].addr] + Addresses(t, Where(t, p, from + 1)) else Addresses(t, Where(t, p, from + 1)))
    ensures Ids(t, Where(t, p, from)) ==
      (if p(t[from]) then [t[from].id] + Ids(t, Where(t, p, from + 1)) else Ids(t, Where(t, p, from + 1)))
    ensures t[from..][0] == t[from] && t[from..][1..] == t[from + 1..]
  {
    hide Addresses;
    hide Ids;
    WhereSlots(t, p, from);
    WhereSlots(t, p, from + 1);
    SlotInFront(t, from, Where(t, p, from + 1));
  }

  lemma WhereNone(t: seq<Client>, p: Client -> bool)
    ensures Where(t, p, |t|) == [] && t[|t|..] == []
  {
  }

  // ------------------------------------------------------------- recipients

  lemma {:induction false} RecipientsFrom(t: seq<Client>, sender: string, from: nat)
    requires from <= |t|
    ensures SlotsOf(t, Where(t, Others(sender), from))
    ensures Recipients(t[from..], sender) == Addresses(t, Where(t, Others(sender), from))
    decreases |t| - from
  {
    hide Where;
    hide Addresses;
    WhereSlots(t, Others(sender), from);
    if from == |t| {
      WhereNone(t, Others(sender));
      assert Addresses(t, []) == [] by { NoAddresses(t); }
    } else {
      WhereNext(t, Others(sender), from);
      RecipientsFrom(t, sender, from + 1);
    }
  }

  lemma NoAddresses(t: seq<Client>)
    ensures Addresses(t, []) == [] && Ids(t, []) == []
  {
  }

  /** A broadcast goes to the active slots with another identifier, once each and in slot order. */
  lemma RecipientsExactly(t: seq<Client>, sender: string) returns (slots: seq<nat>)
    ensures SlotsOf(t, slots) && InOrder(slots) && Recipients(t, sender) == Addresses(t, slots)
    ensures forall i: nat :: i in slots <==> i < |t| && t[i].active && t[i].id != sender
  {
    slots := Where(t, Others(sender));
    WhereSlots(t, Others(sender), 0);
    RecipientsFrom(t, sender, 0);
    assert t[0..] == t;
  }

  lemma {:induction false} CopiesExactly(to: seq<Address>, text: string)
    ensures Copies(to, text) == SameText(to, text)
  {
    if to != [] {
      CopiesExactly(to[1..], text);
    }
  }

  // ------------------------------------------------------------------ pings

  lemma {:induction false} PingedFrom(t: seq<Client>, now: int, from: nat)
    requires from <= |t|
    ensures SlotsOf(t, Where(t, HeardOf(now), from))
    ensures Pinged(t[from..], now) == SameText(Addresses(t, Where(t, HeardOf(now), from)), "PING")
    decreases |t| - from
  {
    hide Where;
    hide Addresses;
    WhereSlots(t, HeardOf(now), from);
    if from == |t| {
      WhereNone(t, HeardOf(now));
      assert Addresses(t, []) == [] by { NoAddresses(t); }
    } else {
      WhereNext(t, HeardOf(now), from);
      PingedFrom(t, now, from + 1);
    }
  }

  /** The sweep pings exactly the clients it keeps, once each and in slot order. */
  lemma PingedExactly(t: seq<Client>, now: int) returns (slots: seq<nat>)
    ensures SlotsOf(t, slots) && InOrder(slots) && Pinged(t, now) == SameText(Addresses(t, slots), "PING")
    ensures forall i: nat :: i in slots <==> i < |t| && t[i].active && now - t[i].lastActive <= PING_TIMEOUT
  {
    slots := Where(t, HeardOf(now));
    WhereSlots(t, HeardOf(now), 0);
    PingedFrom(t, now, 0);
    assert t[0..] == t;
  }

  // ------------------------------------------------------------------- LIST

  lemma JoinNext(id: string, rest: seq<string>)
    ensures Join([id] + rest, ',') == id + (if rest == [] then "" else ",") + Join(rest, ',')
    ensures Join([], ',') == ""
  {
    assert ([id] + rest)[1..] == rest;
  }

  /** The names of a table whose first slot stands before the listed ones. */
  lemma NamesNext(c: Client, rest: seq<Client>, first: bool, ids: seq<string>)
    requires Names(rest, false) == (if ids == [] then "" else ",") + Join(ids, ',')
    requires c.active
    ensures Names([c] + rest, first) == (if first then "" else ",") + Join([c.id] + ids, ',')
  {
    assert ([c] + rest)[1..] == rest;
    JoinNext(c.id, ids);
    hide Join;
  }

  lemma {:induction false} NamesFrom(t: seq<Client>, first: bool, from: nat)
    requires from <= |t|
    ensures var slots := Where(t, Registered(), from);
      && SlotsOf(t, slots)
      && Names(t[from..], first) == (if slots == [] || first then "" else ",") + Join(Ids(t, slots), ',')
    decreases |t| - from
  {
    hide Where;
    hide Ids;
    hide Join;
    WhereSlots(t, Registered(), from);
    if from == |t| {
      WhereNone(t, Registered());
      JoinNext("", []);
      NoAddresses(t);
    } else {
      WhereNext(t, Registered(), from);
      NamesFrom(t, first && !t[from].active, from + 1);
      if t[from].active {
        var rest := Where(t, Registered(), from + 1);
        IdsLength(t, rest);
        hide Names;
        NamesNext(t[from], t[from + 1..], first, Ids(t, rest));
        assert t[from..] == [t[from]] + t[from + 1..];
      }
    }
  }

  lemma IdsLength(t: seq<Client>, slots: seq<nat>)
    requires SlotsOf(t, slots)
    ensures |Ids(t, slots)| == |slots|
  {
  }

  /** The answer to LIST, cut at its commas, is the identifiers of the active slots in slot order; if these
      are unique, each registered identifier is there exactly once and nothing else is. */
  lemma NamesListed(t: seq<Client>) returns (slots: seq<nat>)
    ensures SlotsOf(t, slots) && InOrder(slots) && forall i: nat :: i in slots <==> i < |t| && t[i].active
    ensures slots == [] ==> Names(t, true) == ""
    ensures slots != [] && FreeOf(Ids(t, slots), ',') ==> Split(Names(t, true), ',') == Ids(t, slots)
    ensures UniqueIds(t) ==>
      && (forall id :: id in Ids(t, slots) <==> id in Registry(t))
      && (forall a, b :: 0 <= a < b < |slots| ==> Ids(t, slots)[a] != Ids(t, slots)[b])
  {
    hide Registry;
    hide UniqueIds;
    hide Join;
    hide Split;
    slots := Where(t, Registered());
    WhereSlots(t, Registered(), 0);
    NamesFrom(t, true, 0);
    JoinNext("", []);
    assert t[0..] == t;
    assert Names(t, true) == Join(Ids(t, slots), ',');
    IdsLength(t, slots);
    if slots != [] && FreeOf(Ids(t, slots), ',') {
      SplitJoin(Ids(t, slots), ',');
    }
    if UniqueIds(t) {
      IdsAreRegistered(t, slots);
    }
  }

  lemma IdsAreRegistered(t: seq<Client>, slots: seq<nat>)
    requires UniqueIds(t) && SlotsOf(t, slots) && InOrder(slots)
    requires forall i: nat :: i in slots <==> i < |t| && t[i].active
    ensures forall id :: id in Ids(t, slots) <==> id in Registry(t)
    ensures forall a, b :: 0 <= a < b < |slots| ==> Ids(t, slots)[a] != Ids(t, slots)[b]
  {
    hide Registry;
    forall k | 0 <= k < |slots|
      ensures t[slots[k]].active && Ids(t, slots)[k] in Registry(t)
    {
      assert slots[k] in slots;
      RegistryAt(t, slots[k]);
    }
    forall id | id in Registry(t)
      ensures id in Ids(t, slots)
    {
      RegistryLookup(t, id);
      var i: nat := FindById(t, id);
      assert i in slots;
      var k :| 0 <= k < |slots| && slots[k] == i;
      assert Ids(t, slots)[k] == id;
    }
  }
}
