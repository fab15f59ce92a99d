/** The client array of Lab 12, searched and written in place under the mutex. */
module ChatClients {
  import opened Sequences
  import opened Wire
  import opened ChatTable

  class Server {
    const clients: array<Client>
    ghost var sent: seq<Datagram>

    constructor ()
      ensures fresh(clients) && clients.Length == MAX_CLIENTS && sent == []
      ensures Registry(clients[..]) == map[] && UniqueIds(clients[..])
    {
      clients := new Client[MAX_CLIENTS](_ => Client("", Address(0, 0), 0, false));
      sent := [];
      new;
      assert ActiveIds(clients[..]) == {};
    }

    /** Sends append to the log. */
    method SendTo(to: Address, text: string)
      modifies this`sent
      ensures sent == old(sent) + [Datagram(to, text)]
    {
      sent := sent + [Datagram(to, text)];
    }

    method FindClientById(id: string) returns (index: int)
      ensures index == FindById(clients[..], id)
      ensures index == -1 <==> id !in Registry(clients[..])
      ensures index != -1 ==> 0 <= index < clients.Length && clients[index].addr == Registry(clients[..])[id]
    {
      RegistryLookup(clients[..], id);
      ghost var p := (c: Client) => c.active && c.id == id;
      for i := 0 to clients.Length
        invariant First(clients[..], p) == First(clients[..], p, i)
      {
        if clients[i].active && clients[i].id == id {
          return i;
        }
      }
      return -1;
    }

    method FindClientByAddr(addr: Address) returns (index: int)
      ensures index == FindByAddr(clients[..], addr)
      ensures index != -1 ==> 0 <= index < clients.Length && clients[index].active && clients[index].addr == addr
    {
      ghost var p := (c: Client) => c.active && c.addr == addr;
      for i := 0 to clients.Length
        invariant First(clients[..], p) == First(clients[..], p, i)
      {
        if clients[i].active && clients[i].addr == addr {
          return i;
        }
      }
      return -1;
    }

    /** The REGI branch. */
    method Register(id: string, addr: Address, now: int) returns (reply: Reply)
      modifies this`sent, clients
      ensures (clients[..], reply) == Registration(old(clients[..]), id, addr, now)
      ensures sent == old(sent) + [Datagram(addr, ReplyText(reply))]
    {
      var index := FindClientById(id);
      if index != -1 {
        SendTo(addr, "ERROR|ID already in use");
        return InUse;
      }
      var newIndex := -1;
      ghost var free := (c: Client) => !c.active;
      var i := 0;
      while i < clients.Length
        invariant 0 <= i <= clients.Length && newIndex == -1
        invariant First(clients[..], free) == First(clients[..], free, i)
      {
        if !clients[i].active {
          newIndex := i;
          break;
        }
        i := i + 1;
      }
      assert newIndex == FindFree(clients[..]);
      if newIndex != -1 {
        clients[newIndex] := Client(Stored(id), addr, now, true);
        SendTo(addr, "OK");
        reply := Accepted;
      } else {
        SendTo(addr, "ERROR|Server is full"[..19]);
        reply := ServerFull;
      }
    }

    method Touch(index: nat, now: int)
      requires index < clients.Length
      modifies clients
      ensures clients[..] == old(clients[..])[index := TouchClient(old(clients[index]), now)]
    {
      clients[index] := clients[index].(lastActive := now);
    }

    /** The STOP branch. */
    method Leave(index: nat)
      requires index < clients.Length
      modifies clients
      ensures clients[..] == Deactivate(old(clients[..]), index)
    {
      clients[index] := clients[index].(active := false);
    }

    method PingSweep(now: int)
      modifies this`sent, clients
      ensures clients[..] == Sweep(old(clients[..]), now)
      ensures sent == old(sent) + Pinged(old(clients[..]), now)
    {
      ghost var t := clients[..];
      var i := 0;
      assert t[0..] == t;
      while i < clients.Length
        invariant 0 <= i <= clients.Length
        invariant old(sent) + Pinged(t, now) == sent + Pinged(t[i..], now)
        invariant forall j :: 0 <= j < i ==> clients[j] == SweepClient(t[j], now)
        invariant forall j :: i <= j < clients.Length ==> clients[j] == t[j]
      {
        assert t[i..][1..] == t[i + 1..];
        if clients[i].active {
          if now - clients[i].lastActive > PING_TIMEOUT {
            clients[i] := clients[i].(active := false);
          } else {
            SendTo(clients[i].addr, "PING");
          }
        }
        i := i + 1;
      }
    }

    /** The LIST branch. */
    method ListClients() returns (response: string)
      ensures response == "LIST|" + Names(clients[..], true)
    {
      response := "LIST|";
      var first := true;
      var i := 0;
      assert clients[..][0..] == clients[..];
      while i < clients.Length
        invariant 0 <= i <= clients.Length
        invariant "LIST|" + Names(clients[..], true) == response + Names(clients[..][i..], first)
      {
        assert clients[..][i..][1..] == clients[..][i + 1..];
        if clients[i].active {
          if !first {
            response := response + ",";
          }
          response := response + clients[i].id;
          first := false;
        }
        i := i + 1;
      }
    }

    method BroadcastMessage(sender: string, timestamp: string, message: string)
      modifies this`sent
      ensures sent == old(sent) + Copies(Recipients(clients[..], sender), FormatAll(sender, timestamp, message))
    {
      var text := FormatAll(sender, timestamp, message);
      ghost var all := Copies(Recipients(clients[..], sender), text);
      var i := 0;
      assert clients[..][0..] == clients[..];
      while i < clients.Length
        invariant 0 <= i <= clients.Length
        invariant old(sent) + all == sent + Copies(Recipients(clients[..][i..], sender), text)
      {
        ghost var rest := Recipients(clients[..][i + 1..], sender);
        assert clients[..][i..][1..] == clients[..][i + 1..];
        if clients[i].active && clients[i].id != sender {
          assert ([clients[i].addr] + rest)[1..] == rest;
          assert sent + Copies([clients[i].addr] + rest, text) ==
                 sent + [Datagram(clients[i].addr, text)] + Copies(rest, text);
          SendTo(clients[i].addr, text);
        } else {
          assert Recipients(clients[..][i..], sender) == rest;
        }
        i := i + 1;
      }
    }

    method SendPrivateMessage(sender: string, timestamp: string, recipient: string, message: string)
      modifies this`sent
      ensures sent == old(sent) + if recipient in Registry(clients[..])
        then [Datagram(Registry(clients[..])[recipient], FormatOne(sender, timestamp, message))] else []
    {
      var index := FindClientById(recipient);
      if index != -1 {
        SendTo(clients[index].addr, FormatOne(sender, timestamp, message));
      }
    }
  }
}
