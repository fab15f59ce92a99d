/**
 The Lab 12 server at work: the main thread handles one datagram at a time, taking and dropping
 the mutex several times on the way, while the ping thread sweeps the table in between.
 */
module ChatServer {
  import opened Wire
  import opened ChatTable

  datatype MainPc =
    | MReceiving
    | MLookedUp(addr: Address, command: Command, idx: int)   // find_client_by_addr has returned
    | MKnown(addr: Address, command: Command, idx: int)      // last_active refreshed
    | MBroadcasting(addr: Address, idx: int, sender: string, timestamp: string, text: string)
    | MForwarding(addr: Address, idx: int, sender: string, timestamp: string, recipient: string, text: string)

  /** A message passed on: who asked for it, under which identifier, and who got it. */
  datatype Forward = Forward(from: Address, sender: string, to: Address)

  datatype State = State(
    table: seq<Client>,
    main: MainPc,
    sent: seq<Datagram>,                   // history: everything sent
    registered: set<(Address, string)>,    // history: accepted registrations
    forwards: seq<Forward>)                // history: messages passed on

  datatype Action =
    | Receive(addr: Address, datagram: string)
    | Proceed(now: int, timestamp: string)
    | Ping(now: int)

  predicate InBounds(s: State) {
    match s.main
    case MReceiving => true
    case MLookedUp(_, _, idx) => -1 <= idx < |s.table|
    case _ => 0 <= s.main.idx < |s.table|
  }

  function Answer(s: State, addr: Address, text: string): State {
    s.(main := MReceiving, sent := s.sent + [Datagram(addr, text)])
  }

  function HandleKnown(s: State, timestamp: string): State
    requires s.main.MKnown? && InBounds(s)
  {
    var MKnown(addr, command, idx) := s.main;
    match command
    case List => Answer(s, addr, "LIST|" + Names(s.table, true))
    case SendAll(text) => s.(main := MBroadcasting(addr, idx, s.table[idx].id, timestamp, text))
    case SendOne(recipient, text) => s.(main := MForwarding(addr, idx, s.table[idx].id, timestamp, recipient, text))
    case Stop => s.(table := Deactivate(s.table, idx), main := MReceiving)
    case Unknown => Answer(s, addr, "ERROR|Unknown command")
    case _ => s.(main := MReceiving)
  }

  function HandleLookedUp(s: State, now: int): State
    requires s.main.MLookedUp? && InBounds(s)
  {
    var MLookedUp(addr, command, idx) := s.main;
    if command.Register? then
      var (table, reply) := Registration(s.table, command.id, addr, now);
      Answer(s, addr, ReplyText(reply)).(
        table := table,
        registered := s.registered + if reply == Accepted then {(addr, Stored(command.id))} else {})
    else if idx == -1 then Answer(s, addr, "ERROR|Not registered")
    else s.(table := s.table[idx := TouchClient(s.table[idx], now)], main := MKnown(addr, command, idx))
  }

  function Broadcast(s: State): State
    requires s.main.MBroadcasting? && InBounds(s)
  {
    var MBroadcasting(addr, idx, sender, timestamp, text) := s.main;
    var to := Recipients(s.table, s.table[idx].id);
    s.(main := MReceiving,
       sent := s.sent + Copies(to, FormatAll(sender, timestamp, text)),
       forwards := s.forwards + seq(|to|, k requires 0 <= k < |to| => Forward(addr, sender, to[k])))
  }

  function SendPrivate(s: State): State
    requires s.main.MForwarding? && InBounds(s)
  {
    var MForwarding(addr, idx, sender, timestamp, recipient, text) := s.main;
    var at := FindById(s.table, recipient);
    if at == -1 then s.(main := MReceiving)
    else
      s.(main := MReceiving,
         sent := s.sent + [Datagram(s.table[at].addr, FormatOne(sender, timestamp, text))],
         forwards := s.forwards + [Forward(addr, sender, s.table[at].addr)])
  }

  predicate Enabled(s: State, a: Action) {
    match a
    case Receive(_, _) => s.main.MReceiving?
    case Proceed(_, _) => !s.main.MReceiving?
    case Ping(_) => true
  }

  function Apply(s: State, a: Action): State
    requires Enabled(s, a) && InBounds(s)
  {
    match a
    case Receive(addr, datagram) => s.(main := MLookedUp(addr, ServerParse(datagram), FindByAddr(s.table, addr)))
    case Ping(now) => s.(table := Sweep(s.table, now), sent := s.sent + Pinged(s.table, now))
    case Proceed(now, timestamp) =>
      match s.main
      case MLookedUp(_, _, _) => HandleLookedUp(s, now)
      case MKnown(_, _, _) => HandleKnown(s, timestamp)
      case MBroadcasting(_, _, _, _, _) => Broadcast(s)
      case MForwarding(_, _, _, _, _, _) => SendPrivate(s)
      case MReceiving => s
  }

  /** One step; outside the array C promises nothing. */
  ghost predicate Step(s: State, a: Action, t: State) {
    Enabled(s, a) && (InBounds(s) ==> t == Apply(s, a))
  }

  ghost predicate Initial(s: State) {
    && |s.table| == MAX_CLIENTS && (forall i :: 0 <= i < MAX_CLIENTS ==> !s.table[i].active && s.table[i].id == "")
    && s.main.MReceiving? && s.sent == [] && s.registered == {} && s.forwards == []
  }

  ghost predicate IsRun(states: seq<State>, actions: seq<Action>) {
    && |states| == |actions| + 1
    && Initial(states[0])
    && forall k :: 0 <= k < |actions| ==> Step(states[k], actions[k], states[k + 1])
  }

  /** Every identifier that clients ask for fits into its field. */
  predicate ShortIds(actions: seq<Action>) {
    forall k :: 0 <= k < |actions| && actions[k].Receive? && ServerParse(actions[k].datagram).Register? ==>
      |ServerParse(actions[k].datagram).id| < ID_LENGTH
  }

  // ---------------------------------------------------------------- invariant

  /** The slot a pending request works on still belongs to whoever sent the request. */
  predicate RequestOk(s: State) {
    && InBounds(s)
    && (s.main.MLookedUp? || s.main.MKnown? ==> (s.main.command.SendOne? ==> s.main.command.text != ""))
    && (s.main.MForwarding? ==> s.main.text != "")
    && (match s.main
        case MReceiving => true
        case _ => s.main.idx != -1 ==>
          s.table[s.main.idx].addr == s.main.addr && (s.main.addr, s.table[s.main.idx].id) in s.registered)
    && (s.main.MBroadcasting? || s.main.MForwarding? ==> s.main.sender == s.table[s.main.idx].id)
  }

  predicate Inv(s: State) {
    && |s.table| == MAX_CLIENTS
    && (forall i :: 0 <= i < |s.table| ==> |s.table[i].id| < ID_LENGTH)
    && (forall i :: 0 <= i < |s.table| && s.table[i].active ==> (s.table[i].addr, s.table[i].id) in s.registered)
    && RequestOk(s)
    && (forall k :: 0 <= k < |s.forwards| ==> (s.forwards[k].from, s.forwards[k].sender) in s.registered)
  }

  /** strtok does not return an empty text. */
  lemma ParsedTextNotEmpty(datagram: string)
    ensures ServerParse(datagram).SendOne? ==> ServerParse(datagram).text != ""
  {
    if ServerParse(datagram).SendOne? {
      TokensAreClean(Strtok(datagram[5..], {'|'}).rest, {});
    }
  }

  lemma StepKeepsInv(s: State, a: Action, t: State)
    requires Inv(s) && Step(s, a, t)
    ensures Inv(t)
  {
    match a
    case Receive(_, datagram) => ParsedTextNotEmpty(datagram);
    case Proceed(now, timestamp) =>
      match s.main {
        case MKnown(_, _, _) => assert Inv(HandleKnown(s, timestamp));
        case MLookedUp(_, _, _) => LookedUpKeepsInv(s, now);
        case _ =>
      }
    case _ =>
  }

  lemma LookedUpKeepsInv(s: State, now: int)
    requires Inv(s) && s.main.MLookedUp?
    ensures Inv(HandleLookedUp(s, now))
  {
  }

  lemma {:induction false} RunInv(states: seq<State>, actions: seq<Action>, k: nat)
    requires IsRun(states, actions) && k < |states|
    ensures Inv(states[k])
  {
    if k > 0 {
      RunInv(states, actions, k - 1);
      StepKeepsInv(states[k - 1], actions[k - 1], states[k]);
    }
  }

  /** Every message passed on carries an identifier its sender registered, although the mutex is
      free between finding the sender's slot and reading the identifier from it. */
  lemma ForwardsCarryRegisteredId(states: seq<State>, actions: seq<Action>, k: nat)
    requires IsRun(states, actions) && k < |states|
    ensures forall f :: f in states[k].forwards ==> (f.from, f.sender) in states[k].registered
  {
    RunInv(states, actions, k);
  }

  /** While a request is pending, no step of either thread changes the identifier or the address
      of the slot it refers to. */
  lemma SlotStable(states: seq<State>, actions: seq<Action>, k: nat)
    requires IsRun(states, actions) && k < |actions|
    requires !states[k].main.MReceiving? && !states[k + 1].main.MReceiving? && states[k].main.idx != -1
    ensures var s, t := states[k], states[k + 1];
      && t.main.idx == s.main.idx && t.main.addr == s.main.addr
      && 0 <= s.main.idx < |s.table| == |t.table|
      && t.table[s.main.idx].id == s.table[s.main.idx].id
      && t.table[s.main.idx].addr == s.table[s.main.idx].addr == s.main.addr
  {
    RunInv(states, actions, k);
  }

  // ---------------------------------------------------------------- refinement

  /** What the step does to the map of registered clients. */
  function NextRegistry(s: State, a: Action): map<string, Address>
    requires InBounds(s)
  {
    var m := Registry(s.table);
    match a
    case Ping(now) => m - SilentIds(s.table, now)
    case Receive(_, _) => m
    case Proceed(_, _) =>
      match s.main
      case MLookedUp(addr, Register(id), _) => if id in m || |m| == MAX_CLIENTS then m else m[id := addr]
      case MKnown(_, Stop, idx) => if s.table[idx].active then m - {s.table[idx].id} else m
      case _ => m
  }

  /** The request being worked on is not a registration under an identifier cut short. */
  predicate ShortRequest(s: State) {
    s.main.MLookedUp? && s.main.command.Register? ==> |s.main.command.id| < ID_LENGTH
  }

  lemma StepRefinesRegistry(s: State, a: Action, t: State)
    requires Inv(s) && UniqueIds(s.table) && ShortRequest(s) && Step(s, a, t)
    ensures UniqueIds(t.table) && Registry(t.table) == NextRegistry(s, a)
  {
    hide Registry;
    hide UniqueIds;
    match a
    case Receive(_, _) =>
    case Ping(now) => SweepDropsSilent(s.table, now);
    case Proceed(now, timestamp) =>
      match s.main {
        case MLookedUp(addr, command, idx) =>
          if command.Register? {
            RegistrationRefines(s.table, command.id, addr, now);
            RegistryOfRegistration(s.table, command.id, addr, now);
          } else if idx != -1 {
            TouchKeepsRegistry(s.table, idx, now);
          }
        case MKnown(_, command, idx) => DeactivateRefines(s.table, idx);
        case _ =>
      }
  }

  lemma RegistryOfRegistration(t: seq<Client>, id: string, addr: Address, now: int)
    requires UniqueIds(t) && |id| < ID_LENGTH
    ensures Registration(t, id, addr, now).1 == Accepted <==> id !in Registry(t) && |Registry(t)| < |t|
  {
    RegistrationRefines(t, id, addr, now);
    RegistrySize(t);
  }

  /** As long as clients ask for identifiers that fit, active identifiers stay unique and the
      table follows the map step by step. */
  lemma {:induction false} RunRefinesRegistry(states: seq<State>, actions: seq<Action>, k: nat)
    requires IsRun(states, actions) && ShortIds(actions) && k < |states|
    ensures Inv(states[k]) && UniqueIds(states[k].table) && ShortRequest(states[k])
    ensures k == 0 ==> Registry(states[k].table) == map[]
    ensures k > 0 ==>
      InBounds(states[k - 1]) && Registry(states[k].table) == NextRegistry(states[k - 1], actions[k - 1])
  {
    RunInv(states, actions, k);
    if k == 0 {
      assert ActiveIds(states[0].table) == {};
    } else {
      RunRefinesRegistry(states, actions, k - 1);
      RequestStaysShort(states[k - 1], actions[k - 1], states[k]);
      StepRefinesRegistry(states[k - 1], actions[k - 1], states[k]);
    }
  }

  lemma RequestStaysShort(s: State, a: Action, t: State)
    requires Inv(s) && ShortRequest(s) && Step(s, a, t)
    requires a.Receive? && ServerParse(a.datagram).Register? ==> |ServerParse(a.datagram).id| < ID_LENGTH
    ensures ShortRequest(t)
  {
    hide ServerParse;
    hide Registration;
  }

  /** From end to end: a private message goes to the address registered under the recipient's
      identifier, and the client there shows it with the identifier that its author registered
      and the part of the text that fits; without such a recipient nothing is sent. */
  lemma PrivateMessageArrives(states: seq<State>, actions: seq<Action>, k: nat)
    requires IsRun(states, actions) && ShortIds(actions) && k < |actions|
    requires actions[k].Proceed? && states[k].main.MForwarding?
    ensures InBounds(states[k])
    ensures var s, t, m := states[k], states[k + 1], states[k].main;
      && (m.addr, m.sender) in s.registered
      && (m.recipient !in Registry(s.table) ==> t.sent == s.sent)
      && (m.recipient in Registry(s.table) ==>
            && |t.sent| == |s.sent| + 1 && s.sent <= t.sent
            && t.sent[|s.sent|].to == Registry(s.table)[m.recipient]
            && (Clean(m.sender, {'|'}) && Timestamp(m.timestamp) ==>
                  ClientParse(t.sent[|s.sent|].text) ==
                  Private(Text(m.sender), Text(m.timestamp), Text(FittingText(m.sender, m.text)))))
  {
    hide ClientParse;
    hide Registry;
    var s, m := states[k], states[k].main;
    RunRefinesRegistry(states, actions, k);
    RegistryLookup(s.table, m.recipient);
    if Clean(m.sender, {'|'}) && Timestamp(m.timestamp) {
      PrivateShown(m.sender, m.timestamp, m.text);
    }
  }

  /** An identifier of 32 characters is cut short, and registering it twice fills two slots with
      the same identifier. */
  lemma LongIdsCollide(addr: Address, now: int)
    ensures var t := seq(MAX_CLIENTS, _ => Client("", addr, 0, false));
      var id := seq(ID_LENGTH, _ => 'a');
      !UniqueIds(Registration(Registration(t, id, addr, now).0, id, addr, now).0)
  {
    var t := seq(MAX_CLIENTS, _ => Client("", addr, 0, false));
    var id := seq(ID_LENGTH, _ => 'a');
    assert t[0] == Client("", addr, 0, false) && FindFree(t) == 0;
    var u := Registration(t, id, addr, now).0;
    assert u[0] == Client(Stored(id), addr, now, true);
    assert |Stored(id)| == ID_LENGTH - 1;
    assert u[1] == t[1] && FindFree(u) == 1;
    var v := Registration(u, id, addr, now).0;
    assert v[0].id == v[1].id;
  }
}
