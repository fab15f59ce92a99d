/** The message queue chat of Lab 7: a single server loop numbers the clients and passes every
    message on to all the others, which puts the messages into one order for everybody. */
module BroadcastServer {
  import opened Wire

  const MAX_QUEUES := 10

  datatype Entry = Entry(sender: int, text: string)

  datatype Input = Join | Post(sender: int, text: string) | Malformed

  predicate IsDigit(c: char) { '0' <= c <= '9' }

  function Digits(s: string, value: nat): nat {
    if s == "" || !IsDigit(s[0]) then value else Digits(s[1..], 10 * value + (s[0] as int - '0' as int))
  }

  /** atoi: white space, a sign, digits; 0 if there are none. */
  function Atoi(s: string): int {
    var t := SkipLeading(s, {' ', '\t', '\n', '\U{0B}', '\U{0C}', '\r'});
    if t != "" && t[0] == '-' then 0 - Digits(t[1..], 0)
    else if t != "" && t[0] == '+' then Digits(t[1..], 0)
    else Digits(t, 0)
  }

  /** How the server reads a message from its queue. */
  function Decode(buffer: string): Input {
    if StartsWith(buffer, "INIT") then
      match Strtok(buffer, {' '})
      case NoToken => Malformed
      case Token(_, rest) => if Strtok(rest, {' '}).NoToken? then Malformed else Join
    else
      match Strtok(buffer, {'|'})
      case NoToken => Malformed
      case Token(id, rest) =>
        match Strtok(rest, {})
        case NoToken => Malformed
        case Token(text, _) => Post(Atoi(id), text)
  }

  /** The decimal text of a number. */
  function Decimal(n: nat): (s: string)
    ensures s != "" && forall c :: c in s ==> IsDigit(c)
  {
    var digit := [('0' as int + n % 10) as char];
    if n < 10 then digit else Decimal(n / 10) + digit
  }

  /** The entries of a log that satisfy p, in their order. */
  function Keep(log: seq<Entry>, p: Entry -> bool): seq<Entry> {
    if log == [] then []
    else
      var last := |log| - 1;
      Keep(log[..last], p) + if p(log[last]) then [log[last]] else []
  }

  function NotFrom(i: int): Entry -> bool {
    (e: Entry) => e.sender != i
  }

  function Texts(log: seq<Entry>): seq<string> {
    seq(|log|, k requires 0 <= k < |log| => log[k].text)
  }

  /** What client i has been sent: its number, then every post since it joined but its own. */
  function Delivered(log: seq<Entry>, joined: nat, i: nat): seq<string>
    requires joined <= |log| && i < 10
  {
    [Decimal(i)] + Texts(Keep(log[joined..], NotFrom(i)))
  }

  /** The posts handled so far and, per client, how many there were when it joined. */
  datatype History = History(log: seq<Entry>, joinedAt: seq<nat>)

  /** What one received message does; `queueOpen` is the outcome of opening the client's queue. */
  function Handle(h: History, buffer: string, queueOpen: bool): History {
    match Decode(buffer)
    case Join => if queueOpen && |h.joinedAt| < MAX_QUEUES then h.(joinedAt := h.joinedAt + [|h.log|]) else h
    case Post(sender, text) => h.(log := h.log + [Entry(sender, text)])
    case Malformed => h
  }

  function HandleAll(h: History, inputs: seq<(string, bool)>): History {
    if inputs == [] then h
    else
      var last := |inputs| - 1;
      Handle(HandleAll(h, inputs[..last]), inputs[last].0, inputs[last].1)
  }

  class Server {
    var clientIds: seq<int>              // clients[0..num_clients].client_id
    ghost var delivered: seq<seq<string>> // per client, what was put into its queue
    ghost var joinedAt: seq<nat>          // per client, the length of the log when it joined
    ghost var log: seq<Entry>             // the posts handled so far

    ghost predicate Valid()
      reads this
    {
      && |clientIds| == |delivered| == |joinedAt| <= MAX_QUEUES
      && (forall i :: 0 <= i < |clientIds| ==> clientIds[i] == i)
      && (forall i :: 0 <= i < |joinedAt| ==> joinedAt[i] <= |log|)
      && (forall i, j :: 0 <= i < j < |joinedAt| ==> joinedAt[i] <= joinedAt[j])
      && forall i :: 0 <= i < |delivered| ==> delivered[i] == Delivered(log, joinedAt[i], i)
    }

    ghost function Past(): History
      reads this
    {
      History(log, joinedAt)
    }

    constructor ()
      ensures Valid() && clientIds == [] && Past() == History([], [])
    {
      clientIds, delivered, joinedAt, log := [], [], [], [];
    }

    /** The INIT branch, once the client's queue is open. */
    method Admit()
      requires Valid()
      modifies this
      ensures Valid() && log == old(log)
      ensures joinedAt == old(joinedAt) + if old(|joinedAt|) < MAX_QUEUES then [|log|] else []
      ensures if old(|clientIds|) < MAX_QUEUES
              then clientIds == old(clientIds) + [old(|clientIds|)]
                   && delivered == old(delivered) + [[Decimal(old(|clientIds|))]]
              else clientIds == old(clientIds) && delivered == old(delivered)
    {
      if |clientIds| < MAX_QUEUES {
        delivered := delivered + [[Decimal(|clientIds|)]];
        joinedAt := joinedAt + [|log|];
        clientIds := clientIds + [|clientIds|];
        assert log[|log|..] == [];
      }
    }

    /** Pass a message on to everybody else. */
    method Broadcast(sender: int, text: string)
      requires Valid()
      modifies this`delivered, this`log
      ensures Valid() && log == old(log) + [Entry(sender, text)]
      ensures |delivered| == old(|delivered|)
      ensures forall i :: 0 <= i < |delivered| ==>
        delivered[i] == old(delivered[i]) + if sender == i then [] else [text]
    {
      ghost var before := delivered;
      ghost var entry := Entry(sender, text);
      var i := 0;
      while i < |clientIds|
        invariant 0 <= i <= |clientIds| == |delivered| == |before|
        invariant log == old(log)
        invariant forall k :: 0 <= k < i ==> delivered[k] == before[k] + if sender == k then [] else [text]
        invariant forall k :: i <= k < |before| ==> delivered[k] == before[k]
      {
        if clientIds[i] != sender {
          delivered := delivered[i := delivered[i] + [text]];
        }
        i := i + 1;
      }
      forall k | 0 <= k < |before|
        ensures Delivered(log + [entry], joinedAt[k], k) ==
                Delivered(log, joinedAt[k], k) + if sender == k then [] else [text]
      {
        DeliveredMore(log, entry, joinedAt[k], k);
      }
      log := log + [entry];
    }

    /** One message from the server's queue: one client more, or one text more in everybody else's queue, or
        nothing. */
    method HandleMessage(buffer: string, queueOpen: bool)
      requires Valid()
      modifies this
      ensures Valid() && Past() == Handle(old(Past()), buffer, queueOpen)
      ensures Decode(buffer).Post? ==>
        && clientIds == old(clientIds) && |delivered| == old(|delivered|)
        && forall i :: 0 <= i < |delivered| ==>
             delivered[i] == old(delivered[i]) + if Decode(buffer).sender == i then [] else [Decode(buffer).text]
      ensures Decode(buffer).Join? && queueOpen && old(|clientIds|) < MAX_QUEUES ==>
        clientIds == old(clientIds) + [old(|clientIds|)] && delivered == old(delivered) + [[Decimal(old(|clientIds|))]]
      ensures !(Decode(buffer).Post? || (Decode(buffer).Join? && queueOpen && old(|clientIds|) < MAX_QUEUES)) ==>
        clientIds == old(clientIds) && delivered == old(delivered)
    {
      match Decode(buffer)
      case Join =>
        if queueOpen {
          Admit();
        }
      case Post(sender, text) => Broadcast(sender, text);
      case Malformed =>
    }

    /** The server loop over the messages it receives: who has joined when, and what has been
        posted, is what the messages say, and every queue holds what it should. */
    method Serve(inputs: seq<(string, bool)>)
      requires Valid()
      modifies this
      ensures Valid() && Past() == HandleAll(old(Past()), inputs)
    {
      assert inputs[..0] == [];
      for n := 0 to |inputs|
        invariant Valid() && Past() == HandleAll(old(Past()), inputs[..n])
      {
        assert inputs[..n + 1][..n] == inputs[..n];
        HandleMessage(inputs[n].0, inputs[n].1);
      }
      assert inputs[..|inputs|] == inputs;
    }
  }

  lemma DeliveredMore(log: seq<Entry>, entry: Entry, joined: nat, i: nat)
    requires joined <= |log| && i < 10
    ensures Delivered(log + [entry], joined, i) ==
      Delivered(log, joined, i) + if entry.sender == i then [] else [entry.text]
  {
    var suffix := (log + [entry])[joined..];
    assert suffix[..|suffix| - 1] == log[joined..];
  }

  lemma {:induction false} KeepAppend(a: seq<Entry>, b: seq<Entry>, p: Entry -> bool)
    ensures Keep(a + b, p) == Keep(a, p) + Keep(b, p)
  {
    if b == [] {
      assert a + b == a;
    } else {
      assert (a + b)[..|a + b| - 1] == a + b[..|b| - 1];
      KeepAppend(a, b[..|b| - 1], p);
    }
  }

  lemma {:induction false} KeepCommutes(log: seq<Entry>, p: Entry -> bool, q: Entry -> bool)
    ensures Keep(Keep(log, p), q) == Keep(Keep(log, q), p)
  {
    if log != [] {
      var last := |log| - 1;
      KeepCommutes(log[..last], p, q);
      KeepAppend(Keep(log[..last], p), if p(log[last]) then [log[last]] else [], q);
      KeepAppend(Keep(log[..last], q), if q(log[last]) then [log[last]] else [], p);
      assert forall r: Entry -> bool :: Keep([log[last]], r) == if r(log[last]) then [log[last]] else [];
    }
  }

  lemma TextsAppend(a: seq<Entry>, b: seq<Entry>)
    ensures Texts(a + b) == Texts(a) + Texts(b)
  {
  }

  lemma {:induction false} KeepSatisfies(log: seq<Entry>, p: Entry -> bool)
    ensures forall e :: e in Keep(log, p) ==> p(e)
  {
    if log != [] {
      KeepSatisfies(log[..|log| - 1], p);
    }
  }

  /** What the client that joined earlier has been sent before the other joined, and after. */
  lemma DeliveredParts(log: seq<Entry>, earlier: nat, later: nat, i: nat)
    requires earlier <= later <= |log| && i < 10
    ensures Delivered(log, earlier, i) ==
      [Decimal(i)] + Texts(Keep(log[earlier..later], NotFrom(i))) + Texts(Keep(log[later..], NotFrom(i)))
  {
    assert log[earlier..] == log[earlier..later] + log[later..];
    KeepAppend(log[earlier..later], log[later..], NotFrom(i));
    TextsAppend(Keep(log[earlier..later], NotFrom(i)), Keep(log[later..], NotFrom(i)));
  }

  /** Total order. Of two clients' queues, the earlier client's holds what it heard alone and then its
      share of the posts since the other joined; the other's holds its share of the same posts. The
      shares agree, in order, on everything that neither of the two posted. */
  lemma SameOrderForAll(server: Server, i: nat, j: nat) returns (alone: seq<Entry>, mine: seq<Entry>, yours: seq<Entry>)
    requires server.Valid() && i < j < |server.delivered|
    ensures j < MAX_QUEUES
    ensures server.delivered[i] == [Decimal(i)] + Texts(alone) + Texts(mine)
    ensures server.delivered[j] == [Decimal(j)] + Texts(yours)
    ensures Keep(mine, NotFrom(j)) == Keep(yours, NotFrom(i))
    ensures (forall e :: e in mine ==> e.sender != i) && (forall e :: e in yours ==> e.sender != j)
  {
    var log, earlier, later := server.log, server.joinedAt[i], server.joinedAt[j];
    assert earlier <= later <= |log| && j < MAX_QUEUES;
    assert server.delivered[i] == Delivered(log, earlier, i);
    assert server.delivered[j] == Delivered(log, later, j);
    alone := Keep(log[earlier..later], NotFrom(i));
    mine, yours := Keep(log[later..], NotFrom(i)), Keep(log[later..], NotFrom(j));
    hide Keep;
    hide Texts;
    DeliveredParts(log, earlier, later, i);
    KeepCommutes(log[later..], NotFrom(i), NotFrom(j));
    KeepSatisfies(log[later..], NotFrom(i));
    KeepSatisfies(log[later..], NotFrom(j));
  }

  // ------------------------------------------------- what the messages mean

  lemma {:induction false} DigitsAppend(s: string, c: char, value: nat)
    requires (forall d :: d in s ==> IsDigit(d)) && IsDigit(c)
    ensures Digits(s + [c], value) == 10 * Digits(s, value) + (c as int - '0' as int)
  {
    if s == "" {
      assert [c][1..] == "";
    } else {
      assert (s + [c])[1..] == s[1..] + [c];
      assert s[0] in s;
      DigitsAppend(s[1..], c, 10 * value + (s[0] as int - '0' as int));
    }
  }

  lemma {:induction false} DigitsOfDecimal(n: nat)
    ensures Digits(Decimal(n), 0) == n
  {
    var c := ('0' as int + n % 10) as char;
    if n < 10 {
      assert [c][1..] == "";
    } else {
      DigitsOfDecimal(n / 10);
      DigitsAppend(Decimal(n / 10), c, 0);
    }
  }

  /** Digits end at the first character that is none. */
  lemma {:induction false} DigitsStop(s: string, rest: string, value: nat)
    requires (forall d :: d in s ==> IsDigit(d)) && (rest != "" ==> !IsDigit(rest[0]))
    ensures Digits(s + rest, value) == Digits(s, value)
  {
    if s == "" {
      assert s + rest == rest;
    } else {
      assert (s + rest)[1..] == s[1..] + rest && s[0] in s;
      DigitsStop(s[1..], rest, 10 * value + (s[0] as int - '0' as int));
    }
  }

  lemma {:induction false} SkipsWhite(white: string, s: string, delimiters: set<char>)
    requires (forall c :: c in white ==> c in delimiters) && s != "" && s[0] !in delimiters
    ensures SkipLeading(white + s, delimiters) == s
  {
    if white == "" {
      assert white + s == s;
    } else {
      assert (white + s)[1..] == white[1..] + s && white[0] in white;
      SkipsWhite(white[1..], s, delimiters);
    }
  }

  /** atoi reads a number from its decimal text behind white space and a sign, up to the first character
      that is no digit; from any other text it reads 0. */
  lemma AtoiReads(white: string, n: nat, rest: string)
    requires forall c :: c in white ==> c in {' ', '\t', '\n', '\U{0B}', '\U{0C}', '\r'}
    requires rest != "" ==> !IsDigit(rest[0])
    ensures Atoi(white + (Decimal(n) + rest)) == n
    ensures Atoi(white + ("+" + (Decimal(n) + rest))) == n
    ensures Atoi(white + ("-" + (Decimal(n) + rest))) == 0 - n
    ensures rest != "" && rest[0] !in {' ', '\t', '\n', '\U{0B}', '\U{0C}', '\r', '+', '-'} ==> Atoi(white + rest) == 0
  {
    var delimiters := {' ', '\t', '\n', '\U{0B}', '\U{0C}', '\r'};
    var number := Decimal(n) + rest;
    DigitsOfDecimal(n);
    DigitsStop(Decimal(n), rest, 0);
    assert number[0] == Decimal(n)[0] && Decimal(n)[0] in Decimal(n);
    SkipsWhite(white, number, delimiters);
    SkipsWhite(white, "+" + number, delimiters);
    SkipsWhite(white, "-" + number, delimiters);
    assert ("+" + number)[1..] == number && ("-" + number)[1..] == number;
    if rest != "" && rest[0] !in delimiters {
      SkipsWhite(white, rest, delimiters);
    }
    hide SkipLeading;
  }

  /** A message made of a client's number and a text is read as that client's post. */
  lemma PostDecoded(n: nat, text: string)
    requires text != ""
    ensures Decode(Decimal(n) + "|" + text) == Post(n, text)
  {
    var id := Decimal(n);
    AtoiReads("", n, "");
    assert "" + (Decimal(n) + "") == Decimal(n);
    assert Decimal(n) + "|" + text == id + ['|'] + text;
    assert IsDigit((id + "|" + text)[0]) by { assert (id + "|" + text)[0] == id[0]; }
    StrtokWord(id, '|', text, {'|'});
    StrtokAll(text);
  }

  /** A message that starts with INIT joins exactly if a queue's name follows. */
  lemma JoinDecoded(name: string)
    requires Clean(name, {' '})
    ensures Decode("INIT " + name) == Join && Decode("INIT") == Malformed
  {
    assert "INIT " + name == "INIT" + [' '] + name;
    StrtokWord("INIT", ' ', name, {' '});
    assert ("INIT " + name)[..4] == "INIT";
    assert name[0] in name;
    assert Strtok(name, {' '}).Token?;
    LoneInit();
  }

  lemma LoneInit()
    ensures Strtok("INIT", {' '}) == Token("INIT", "") && Strtok("", {' '}) == NoToken
  {
    SpanAll("INIT", {' '});
  }

  lemma {:induction false} SpanAll(s: string, delimiters: set<char>)
    requires forall c :: c in s ==> c !in delimiters
    ensures Span(s, delimiters) == |s|
  {
    if s != "" {
      SpanAll(s[1..], delimiters);
    }
  }

  /** A message without a number or without a text is dropped. */
  lemma MalformedDecoded(n: nat)
    ensures Decode("") == Malformed && Decode(Decimal(n)) == Malformed && Decode(Decimal(n) + "|") == Malformed
  {
    var id := Decimal(n);
    assert IsDigit(id[0]) && (id + "|")[0] == id[0];
    SpanAll(id, {'|'});
    assert id + "|" == id + ['|'] + "";
    StrtokWord(id, '|', "", {'|'});
    StrtokAll("");
  }

  /** So a received "i|text" makes every queue but client i's end in text and leaves that one as it is. */
  lemma PostReaches(h: History, i: nat, text: string, queueOpen: bool, j: nat)
    requires text != "" && j < |h.joinedAt| <= MAX_QUEUES && h.joinedAt[j] <= |h.log|
    ensures var after := Handle(h, Decimal(i) + "|" + text, queueOpen);
      && after.joinedAt == h.joinedAt && h.joinedAt[j] <= |after.log|
      && Delivered(after.log, after.joinedAt[j], j) ==
         Delivered(h.log, h.joinedAt[j], j) + if i == j then [] else [text]
  {
    PostDecoded(i, text);
    DeliveredMore(h.log, Entry(i, text), h.joinedAt[j], j);
    hide Decode;
    hide Delivered;
  }

  /** And a received "INIT name", whose queue can be opened, starts a queue with the next number in it. */
  lemma JoinReaches(h: History, name: string)
    requires Clean(name, {' '}) && |h.joinedAt| < MAX_QUEUES
    ensures var after := Handle(h, "INIT " + name, true);
      && after.log == h.log && after.joinedAt == h.joinedAt + [|h.log|]
      && Delivered(after.log, |h.log|, |h.joinedAt|) == [Decimal(|h.joinedAt|)]
  {
    JoinDecoded(name);
    assert h.log[|h.log|..] == [];
    hide Decode;
  }
}
