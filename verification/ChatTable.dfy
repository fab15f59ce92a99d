/**
 The client table of the Lab 12 server: ten slots, written in place, standing for a map from
 identifiers to addresses.
 */
module ChatTable {
  import opened Sequences
  import opened Wire

  const MAX_CLIENTS := 10
  const PING_TIMEOUT := 60

  datatype Address = Address(ip: int, port: int)

  datatype Client = Client(id: string, addr: Address, lastActive: int, active: bool)

  datatype Datagram = Datagram(to: Address, text: string)

  // -------------------------------------------------------------- the table

  function FindById(t: seq<Client>, id: string): int {
    First(t, (c: Client) => c.active && c.id == id)
  }

  function FindByAddr(t: seq<Client>, addr: Address): int {
    First(t, (c: Client) => c.active && c.addr == addr)
  }

  function FindFree(t: seq<Client>): int {
    First(t, (c: Client) => !c.active)
  }

  /** What strncpy leaves of an identifier. */
  function Stored(id: string): string {
    if |id| < ID_LENGTH then id else id[..ID_LENGTH - 1]
  }

  datatype Reply = InUse | Accepted | ServerFull

  function ReplyText(reply: Reply): string {
    match reply
    case InUse => "ERROR|ID already in use"
    case Accepted => "OK"
    case ServerFull => "ERROR|Server is full"[..19]   // the call passes a length of 19
  }

  function Registration(t: seq<Client>, id: string, addr: Address, now: int): (seq<Client>, Reply) {
    if FindById(t, id) != -1 then (t, InUse)
    else if FindFree(t) == -1 then (t, ServerFull)
    else (t[FindFree(t) := Client(Stored(id), addr, now, true)], Accepted)
  }

  function TouchClient(c: Client, now: int): Client {
    c.(lastActive := now)
  }

  function SweepClient(c: Client, now: int): Client {
    if c.active && now - c.lastActive > PING_TIMEOUT then c.(active := false) else c
  }

  function Sweep(t: seq<Client>, now: int): (r: seq<Client>)
    ensures |r| == |t| && forall i :: 0 <= i < |t| ==> r[i] == SweepClient(t[i], now)
  {
    seq(|t|, i requires 0 <= i < |t| => SweepClient(t[i], now))
  }

  function Deactivate(t: seq<Client>, i: nat): seq<Client>
    requires i < |t|
  {
    t[i := t[i].(active := false)]
  }

  // --------------------------------------------------- the map it stands for

  predicate UniqueIds(t: seq<Client>) {
    forall i, j :: 0 <= i < j < |t| && t[i].active && t[j].active ==> t[i].id != t[j].id
  }

  function ActiveIds(t: seq<Client>): set<string> {
    set i | 0 <= i < |t| && t[i].active :: t[i].id
  }

  function Registry(t: seq<Client>): map<string, Address> {
    map id | id in ActiveIds(t) :: t[if FindById(t, id) == -1 then 0 else FindById(t, id)].addr
  }

  /** Every active slot is in the map under its identifier, and nothing else is. */
  lemma RegistryLookup(t: seq<Client>, id: string)
    ensures id in Registry(t) <==> FindById(t, id) != -1
    ensures id in Registry(t) ==> Registry(t)[id] == t[FindById(t, id)].addr
  {
  }

  lemma RegistryAt(t: seq<Client>, i: nat)
    requires UniqueIds(t) && i < |t| && t[i].active
    ensures t[i].id in Registry(t) && Registry(t)[t[i].id] == t[i].addr && FindById(t, t[i].id) == i
  {
    RegistryLookup(t, t[i].id);
  }

  /** Two tables stand for maps that agree on id if they hold it in equal slots. */
  lemma RegistrySame(t: seq<Client>, u: seq<Client>, id: string)
    requires UniqueIds(t) && UniqueIds(u) && |t| == |u|
    requires forall i :: 0 <= i < |t| && t[i].active && t[i].id == id ==>
               u[i].active && u[i].id == id && u[i].addr == t[i].addr
    requires forall i :: 0 <= i < |u| && u[i].active && u[i].id == id ==> t[i].active && t[i].id == id
    ensures id in Registry(t) <==> id in Registry(u)
    ensures id in Registry(t) ==> Registry(t)[id] == Registry(u)[id]
  {
    RegistryLookup(t, id);
    RegistryLookup(u, id);
    if FindById(t, id) != -1 {
      RegistryAt(u, FindById(t, id));
    }
  }

  /** Registering keeps identifiers unique exactly if nothing is written, because the identifier is in
      use or the table is full, or if what strncpy leaves of the identifier is not in use either. */
  lemma RegistrationKeepsUnique(t: seq<Client>, id: string, addr: Address, now: int)
    requires UniqueIds(t)
    ensures UniqueIds(Registration(t, id, addr, now).0) <==>
      id in Registry(t) || |Registry(t)| == |t| || Stored(id) !in Registry(t)
  {
    RegistryLookup(t, id);
    RegistryLookup(t, Stored(id));
    RegistrySize(t);
    hide Registry;
    var (u, reply) := Registration(t, id, addr, now);
    if reply == Accepted && Stored(id) in Registry(t) {
      var i, j := FindById(t, Stored(id)), FindFree(t);
      assert u[i].id == u[j].id && u[i].active && u[j].active;
    }
  }

  /** For identifiers that fit, registration is insertion into a map of at most ten entries. */
  lemma RegistrationRefines(t: seq<Client>, id: string, addr: Address, now: int)
    requires UniqueIds(t) && |id| < ID_LENGTH
    ensures var (u, reply) := Registration(t, id, addr, now);
      && UniqueIds(u) && |u| == |t|
      && (reply == InUse <==> id in Registry(t))
      && (reply == ServerFull <==> id !in Registry(t) && |Registry(t)| == |t|)
      && Registry(u) == if reply == Accepted then Registry(t)[id := addr] else Registry(t)
  {
    hide Registry;
    hide UniqueIds;
    RegistrationKeepsUnique(t, id, addr, now);
    RegistryLookup(t, id);
    RegistrySize(t);
    var (u, reply) := Registration(t, id, addr, now);
    if reply == Accepted {
      var j := FindFree(t);
      RegistryAt(u, j);
      forall other | other != id
        ensures other in Registry(t) <==> other in Registry(u)
        ensures other in Registry(t) ==> Registry(t)[other] == Registry(u)[other]
      {
        RegistrySame(t, u, other);
      }
    }
  }

  /** The map has one entry per active slot; so the table is full exactly when it has |t| entries. */
  lemma RegistrySize(t: seq<Client>)
    requires UniqueIds(t)
    ensures |Registry(t)| <= |t| && (|Registry(t)| == |t| <==> FindFree(t) == -1)
  {
    assert Registry(t).Keys == ActiveIds(t);
    assert |Registry(t)| == |ActiveIds(t)|;
    ActiveIdsSize(t);
  }

  lemma ActiveIdsCons(t: seq<Client>)
    requires t != []
    ensures ActiveIds(t) == ActiveIds(t[1..]) + if t[0].active then {t[0].id} else {}
    ensures UniqueIds(t) ==> UniqueIds(t[1..]) && (t[0].active ==> t[0].id !in ActiveIds(t[1..]))
  {
    var rest := t[1..];
    assert forall i :: 0 <= i < |rest| ==> rest[i] == t[i + 1];
    forall id
      ensures id in ActiveIds(t) <==> id in ActiveIds(rest) || (t[0].active && id == t[0].id)
    {
      if i :| 0 < i < |t| && t[i].active && t[i].id == id {
        assert rest[i - 1] == t[i];
      }
    }
  }

  lemma {:induction false} ActiveIdsSize(t: seq<Client>)
    requires UniqueIds(t)
    ensures |ActiveIds(t)| <= |t| && (|ActiveIds(t)| == |t| <==> forall i :: 0 <= i < |t| ==> t[i].active)
  {
    hide ActiveIds;
    if t == [] {
      assert ActiveIds(t) == {} by { ActiveIdsEmpty(); }
    } else {
      ActiveIdsCons(t);
      ActiveIdsSize(t[1..]);
      assert forall i :: 0 < i < |t| ==> t[i] == t[1..][i - 1];
    }
  }

  lemma ActiveIdsEmpty()
    ensures ActiveIds([]) == {}
  {
  }

  /** Leaving removes the entry, if the slot has not been given up before. */
  lemma DeactivateRefines(t: seq<Client>, i: nat)
    requires UniqueIds(t) && i < |t|
    ensures UniqueIds(Deactivate(t, i))
    ensures Registry(Deactivate(t, i)) == if t[i].active then Registry(t) - {t[i].id} else Registry(t)
  {
    hide Registry;
    var u := Deactivate(t, i);
    if t[i].active {
      RegistryLookup(u, t[i].id);
      forall other | other != t[i].id
        ensures other in Registry(t) <==> other in Registry(u)
        ensures other in Registry(t) ==> Registry(t)[other] == Registry(u)[other]
      {
        RegistrySame(t, u, other);
      }
    } else {
      assert u == t;
    }
  }

  /** The ping sweep removes exactly the entries that have been silent for too long. */
  lemma SweepRefines(t: seq<Client>, now: int, id: string)
    requires UniqueIds(t)
    ensures UniqueIds(Sweep(t, now))
    ensures id in Registry(Sweep(t, now)) <==>
      id in Registry(t) && now - t[FindById(t, id)].lastActive <= PING_TIMEOUT
    ensures id in Registry(Sweep(t, now)) ==> Registry(Sweep(t, now))[id] == Registry(t)[id]
  {
    hide Registry;
    var u := Sweep(t, now);
    RegistryLookup(t, id);
    RegistryLookup(u, id);
    var i, j := FindById(t, id), FindById(u, id);
    if j != -1 {
      assert u[j] == t[j];
      RegistryAt(t, j);
    }
    if i != -1 && now - t[i].lastActive <= PING_TIMEOUT {
      assert u[i] == t[i];
      RegistryAt(u, i);
    }
  }

  /** The identifiers a sweep at that time gives up. */
  function SilentIds(t: seq<Client>, now: int): set<string> {
    set i | 0 <= i < |t| && t[i].active && now - t[i].lastActive > PING_TIMEOUT :: t[i].id
  }

  lemma SweepDropsSilent(t: seq<Client>, now: int)
    requires UniqueIds(t)
    ensures UniqueIds(Sweep(t, now)) && Registry(Sweep(t, now)) == Registry(t) - SilentIds(t, now)
  {
    hide Registry;
    forall id
      ensures id in Registry(Sweep(t, now)) <==> id in Registry(t) && id !in SilentIds(t, now)
      ensures id in Registry(Sweep(t, now)) ==> Registry(Sweep(t, now))[id] == Registry(t)[id]
    {
      SweepRefines(t, now, id);
      RegistryLookup(t, id);
      if id in Registry(t) && id in SilentIds(t, now) {
        var i :| 0 <= i < |t| && t[i].active && now - t[i].lastActive > PING_TIMEOUT && t[i].id == id;
        RegistryAt(t, i);
      }
    }
    assert UniqueIds(Sweep(t, now)) by { SweepRefines(t, now, ""); }
  }

  lemma TouchKeepsRegistry(t: seq<Client>, i: nat, now: int)
    requires UniqueIds(t) && i < |t|
    ensures UniqueIds(t[i := TouchClient(t[i], now)])
    ensures Registry(t[i := TouchClient(t[i], now)]) == Registry(t)
  {
    hide Registry;
    var u := t[i := TouchClient(t[i], now)];
    forall id
      ensures id in Registry(t) <==> id in Registry(u)
      ensures id in Registry(t) ==> Registry(t)[id] == Registry(u)[id]
    {
      RegistrySame(t, u, id);
    }
  }

  // ---------------------------------------------------------------- recipients

  /** Who gets a broadcast: in slot order, the active slots with another identifier. */
  function Recipients(t: seq<Client>, sender: string): seq<Address> {
    if t == [] then []
    else (if t[0].active && t[0].id != sender then [t[0].addr] else []) + Recipients(t[1..], sender)
  }

  /** The same text to each address. */
  function Copies(to: seq<Address>, text: string): seq<Datagram> {
    if to == [] then [] else [Datagram(to[0], text)] + Copies(to[1..], text)
  }

  /** What the ping thread sends: a ping to everybody that stays. */
  function Pinged(t: seq<Client>, now: int): seq<Datagram> {
    if t == [] then []
    else (if SweepClient(t[0], now).active then [Datagram(t[0].addr, "PING")] else []) + Pinged(t[1..], now)
  }

  /** The answer to LIST: the active identifiers in slot order. */
  function Names(t: seq<Client>, first: bool): string {
    if t == [] then ""
    else if t[0].active then (if first then "" else ",") + t[0].id + Names(t[1..], false)
    else Names(t[1..], first)
  }

  lemma {:induction false} RecipientsCover(t: seq<Client>, sender: string)
    ensures forall addr :: addr in Recipients(t, sender) <==>
      exists i :: 0 <= i < |t| && t[i].active && t[i].id != sender && t[i].addr == addr
    ensures UniqueIds(t) ==> |Recipients(t, sender)| == |ActiveIds(t) - {sender}|
  {
    if t != [] {
      var rest := t[1..];
      RecipientsCover(rest, sender);
      forall addr
        ensures addr in Recipients(t, sender) <==>
          exists i :: 0 <= i < |t| && t[i].active && t[i].id != sender && t[i].addr == addr
      {
        if i :| 0 <= i < |t| && t[i].active && t[i].id != sender && t[i].addr == addr && i > 0 {
          assert rest[i - 1] == t[i];
        }
        if i :| 0 <= i < |rest| && rest[i].active && rest[i].id != sender && rest[i].addr == addr {
          assert t[i + 1] == rest[i];
        }
      }
      RecipientsCount(t, sender);
    }
  }

  lemma RecipientsCount(t: seq<Client>, sender: string)
    requires t != [] && (UniqueIds(t[1..]) ==> |Recipients(t[1..], sender)| == |ActiveIds(t[1..]) - {sender}|)
    ensures UniqueIds(t) ==> |Recipients(t, sender)| == |ActiveIds(t) - {sender}|
  {
    hide ActiveIds;
    hide UniqueIds;
    ActiveIdsCons(t);
    var rest := ActiveIds(t[1..]);
    if UniqueIds(t) && t[0].active {
      if t[0].id != sender {
        assert ActiveIds(t) - {sender} == (rest - {sender}) + {t[0].id};
      } else {
        assert ActiveIds(t) - {sender} == rest - {sender};
      }
    }
  }

  /** A broadcast goes to the address of everybody registered but the sender, once each. */
  lemma BroadcastReachesOthers(t: seq<Client>, sender: string)
    requires UniqueIds(t)
    ensures forall id :: id in Registry(t) && id != sender ==> Registry(t)[id] in Recipients(t, sender)
    ensures |Recipients(t, sender)| == |Registry(t)| - if sender in Registry(t) then 1 else 0
  {
    RecipientsCover(t, sender);
    forall id | id in Registry(t) && id != sender
      ensures Registry(t)[id] in Recipients(t, sender)
    {
      RegistryLookup(t, id);
      assert t[FindById(t, id)].active;
    }
    assert Registry(t).Keys == ActiveIds(t);
    assert |Registry(t)| == |ActiveIds(t)|;
  }
}
