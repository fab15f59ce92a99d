/** What the client sends and shows, whatever the order in which its two threads call strtok. */
module ClientTheorems {
  import opened Wire
  import opened Tokenizer
  import opened ClientThreads

  // ---------------------------------------------------------------- invariant

  predicate PointersOk(s: State) {
    Contents(s.mainBuffer) && Contents(s.receiverBuffer) && Safe(s)
  }

  predicate TaggedAs(datagram: string, toAll: bool) {
    |datagram| >= 7 && datagram[..7] == if toAll then "MSGALL|" else "MSGONE|"
  }

  /** The text behind the tag, and the tokens that lone calls would find there. */
  function Body(datagram: string): string {
    if |datagram| >= 7 then datagram[7..] else ""
  }

  function SenderToken(datagram: string): Token {
    Strtok(Body(datagram), {'|'})
  }

  function TimestampToken(datagram: string): Token {
    Strtok(RestOf(SenderToken(datagram)), {'|'})
  }

  /** The saved position is where the receiver left it exactly as long as main has not called since; after
      that, if it is in the receiver's buffer at all, nothing is left to read there. */
  predicate ReceiverSaved(s: State)
    requires PointersOk(s)
  {
    var mark := s.history.receiverMark;
    && s.saved.At? && mark.left < BUFFER_SIZE && CString(s.receiverBuffer, mark.left) == mark.rest
    && s.history.mainCalls >= mark.others
    && (s.history.mainCalls == mark.others ==> s.saved == At(Receiver, mark.left))
    && (s.history.mainCalls > mark.others && s.saved.who.Receiver? ==> CString(s.receiverBuffer, s.saved.at) == "")
  }

  predicate ReceiverOk(s: State)
    requires PointersOk(s)
  {
    match s.receiver
    case RReceiving => true
    case RReceived(datagram) => CString(s.receiverBuffer, 0) == datagram
    case RFirst(datagram, toAll) => CString(s.receiverBuffer, 0) == datagram && TaggedAs(datagram, toAll)
    case RSecond(datagram, toAll, sender) =>
      && TaggedAs(datagram, toAll) && TextAt(s, sender) == TextOf(SenderToken(datagram))
      && ReceiverSaved(s) && s.history.receiverAlone
      && s.history.receiverMark.rest == RestOf(SenderToken(datagram))
      && (sender.At? ==> sender.who.Receiver? && Behind(s.receiverBuffer, sender.at, s.history.receiverMark.left))
    case RThird(datagram, toAll, sender, timestamp) =>
      && TaggedAs(datagram, toAll) && TextAt(s, sender) == TextOf(SenderToken(datagram))
      && (sender.At? ==> sender.who.Receiver?)
      && (s.history.receiverAlone ==>
            && ReceiverSaved(s) && s.history.receiverMark.rest == RestOf(TimestampToken(datagram))
            && TextAt(s, timestamp) == TextOf(TimestampToken(datagram)) && (timestamp.At? ==> timestamp.who.Receiver?))
    case RShowing(datagram, toAll, sender, timestamp, message) =>
      && TaggedAs(datagram, toAll) && TextAt(s, sender) == TextOf(SenderToken(datagram))
      && (sender.At? ==> sender.who.Receiver?)
      && (s.history.receiverAlone ==>
            && TextAt(s, timestamp) == TextOf(TimestampToken(datagram)) && (timestamp.At? ==> timestamp.who.Receiver?)
            && TextAt(s, message) == TextOf(Strtok(RestOf(TimestampToken(datagram)), {}))
            && (message.At? ==> message.who.Receiver?))
  }

  function RecipientToken(line: string): Token {
    Strtok(if |line| >= 5 then line[5..] else "", {' '})
  }

  /** The receiver has not cut main's line between its being read and main's first call. */
  predicate LineKept(s: State) {
    s.history.parsedAt == s.history.typedAt
  }

  /** The same for main; a call of the receiver moves the position out of the buffer or further on in it. */
  predicate MainSaved(s: State)
    requires PointersOk(s)
  {
    var mark := s.history.mainMark;
    && s.saved.At? && mark.left < BUFFER_SIZE && s.history.receiverCalls >= mark.others
    && (s.history.receiverCalls == mark.others ==>
          s.saved == At(Main, mark.left) && CString(s.mainBuffer, mark.left) == mark.rest)
    && (s.history.receiverCalls > mark.others && s.saved.who.Main? && mark.rest != "" ==> s.saved.at > mark.left)
  }

  predicate MainOk(s: State)
    requires PointersOk(s)
  {
    match s.main
    case MTyping => true
    case MDone => true
    case MTyped(line) =>
      && s.history.intrusions >= s.history.typedAt
      && (s.history.intrusions == s.history.typedAt ==> CString(s.mainBuffer, 0) == line)
    case MFirst(line) =>
      && s.history.intrusions >= s.history.typedAt
      && (s.history.intrusions == s.history.typedAt ==> CString(s.mainBuffer, 0) == line && StartsWith(line, "2ONE "))
    case MSecond(line, recipient) =>
      && MainSaved(s)
      && (recipient.At? ==>
            recipient.who.Main? && (s.saved.who.Main? ==> Behind(s.mainBuffer, recipient.at, s.saved.at)))
      && (LineKept(s) ==>
            && StartsWith(line, "2ONE ") && TextAt(s, recipient) == TextOf(RecipientToken(line))
            && s.history.mainMark.rest == RestOf(RecipientToken(line)))
    case MFormatting(line, recipient, message) =>
      && (recipient.At? ==> recipient.who.Main?)
      && s.saved.At? && (s.saved.who.Main? ==> CString(s.mainBuffer, s.saved.at) == "")
      && (LineKept(s) ==> StartsWith(line, "2ONE ") && TextAt(s, recipient) == TextOf(RecipientToken(line)))
      && (s.history.mainAlone ==> (message.At? ==> message.who.Main?))
      && (LineKept(s) && s.history.mainAlone ==>
            TextAt(s, message) == TextOf(Strtok(RestOf(RecipientToken(line)), {})))
  }

  predicate Inv(s: State) {
    PointersOk(s) && MainOk(s) && ReceiverOk(s)
  }

  // ------------------------------------------------------- the buffers again

  /** Every place in a buffer has a null character behind it. */
  lemma {:induction false} TerminatedAt(b: seq<char>, at: nat)
    requires Contents(b) && at < BUFFER_SIZE
    ensures Terminated(b, at)
    decreases BUFFER_SIZE - at
  {
    if b[at] != '\0' {
      TerminatedAt(b, at + 1);
    }
  }

  lemma {:induction false} CStringOverwritten(b: seq<char>, s: string, from: nat)
    requires from <= |s| < |b| && b[..|s|] == s && '\0' !in s && b[|s|] == '\0'
    ensures CString(b, from) == s[from..]
    decreases |s| - from
  {
    if from < |s| {
      assert b[from] == b[..|s|][from] == s[from];
      CStringOverwritten(b, s, from + 1);
    }
  }

  lemma OverwriteReads(b: seq<char>, s: string)
    requires Contents(b) && CText(s)
    ensures Contents(Overwrite(b, s)) && CString(Overwrite(b, s), 0) == s
  {
    CStringOverwritten(Overwrite(b, s), s, 0);
    assert s[0..] == s;
  }

  lemma ReadLineReads(b: seq<char>, line: string, newline: bool)
    requires Contents(b) && CText(line) && (newline ==> |line| + 1 < BUFFER_SIZE)
    ensures Contents(ReadLine(b, line, newline)) && CString(ReadLine(b, line, newline), 0) == line
  {
    var c := ReadLine(b, line, newline);
    assert c[..|line|] == line && c[|line|] == '\0';
    CStringOverwritten(c, line, 0);
    assert line[0..] == line;
  }

  lemma BehindTag(b: seq<char>, text: string, k: nat)
    requires Contents(b) && CString(b, 0) == text && k <= |text|
    ensures CString(b, k) == text[k..]
  {
    TerminatedAt(b, 0);
    CStringAt(b, 0, k);
  }

  /** What a call does to the state: it moves the saved position on, and writes behind it at most. */
  lemma CallEffect(s: State, from: Pointer, delimiters: set<char>)
    requires Contents(s.mainBuffer) && Contents(s.receiverBuffer) && from.At? && from.at < BUFFER_SIZE
    ensures var (t, p) := Call(s, from, delimiters);
      && Contents(t.mainBuffer) && Contents(t.receiverBuffer)
      && t == s.(mainBuffer := t.mainBuffer, receiverBuffer := t.receiverBuffer, saved := t.saved)
      && t.saved.At? && t.saved.who == from.who && from.at <= t.saved.at < BUFFER_SIZE
      && (p.At? ==> p.who == from.who && from.at <= p.at < BUFFER_SIZE)
      && (from.who.Main? ==> t.receiverBuffer == s.receiverBuffer)
      && (from.who.Receiver? ==> t.mainBuffer == s.mainBuffer)
      && (delimiters == {} ==> t.mainBuffer == s.mainBuffer && t.receiverBuffer == s.receiverBuffer)
  {
    var b := BufferOf(s, from.who);
    TerminatedAt(b, from.at);
    StrtokOnWrites(b, from.at, delimiters);
    StrtokOnMeans(b, from.at, delimiters);
    if delimiters == {} {
      StrtokOnAll(b, from.at);
    }
    hide StrtokOn;
  }

  /** What it returns and leaves to read. */
  lemma CallMeans(s: State, from: Pointer, delimiters: set<char>)
    requires Contents(s.mainBuffer) && Contents(s.receiverBuffer) && from.At? && from.at < BUFFER_SIZE
    ensures var (t, p) := Call(s, from, delimiters);
      var text := CString(BufferOf(s, from.who), from.at);
      && InBuffer(t, p) && t.saved.At? && InBuffer(t, t.saved)
      && TextAt(t, p) == TextOf(Strtok(text, delimiters))
      && CString(BufferOf(t, from.who), t.saved.at) == RestOf(Strtok(text, delimiters))
      && (p.At? ==> p.who == from.who && Behind(BufferOf(t, from.who), p.at, t.saved.at))
      && (text == "" ==> t == s.(saved := from) && p.Nowhere?)
      && (text != "" ==> t.saved.at > from.at)
  {
    var b := BufferOf(s, from.who);
    CallEffect(s, from, delimiters);
    TerminatedAt(b, from.at);
    StrtokOnWrites(b, from.at, delimiters);
    StrtokOnMeans(b, from.at, delimiters);
    hide StrtokOn;
  }

  // ---------------------------------------------------------- main's steps

  lemma TypingKeepsInv(s: State, line: string, newline: bool)
    requires Inv(s) && Enabled(s, TypeLine(line, newline))
    ensures Inv(Apply(s, TypeLine(line, newline)))
  {
    ReadLineReads(s.mainBuffer, line, newline);
    hide ReadLine;
    hide CString;
    ReceiverKeptByMain(s, Apply(s, TypeLine(line, newline)));
  }

  /** What main does to its own buffer does not concern the receiver. */
  lemma ReceiverKeptByMain(s: State, t: State)
    requires PointersOk(s) && ReceiverOk(s) && PointersOk(t)
    requires t.receiverBuffer == s.receiverBuffer && t.receiver == s.receiver && t.saved == s.saved
    requires t.history.receiverMark == s.history.receiverMark && t.history.mainCalls == s.history.mainCalls
    requires t.history.receiverAlone == s.history.receiverAlone
    ensures ReceiverOk(t)
  {
  }

  lemma MainDispatchKeepsInv(s: State)
    requires Inv(s) && s.main.MTyped?
    ensures Inv(MainDispatches(s))
  {
    hide CString;
    hide ClientFormat;
    ReceiverKeptByMain(s, MainDispatches(s));
  }

  /** A call of main moves the saved position away from where the receiver left it. */
  lemma ReceiverAfterMainCall(s: State, t: State)
    requires PointersOk(s) && ReceiverOk(s) && PointersOk(t)
    requires t.receiverBuffer == s.receiverBuffer && t.receiver == s.receiver && t.saved.At?
    requires t.saved.who.Receiver? ==> CString(s.receiverBuffer, t.saved.at) == ""
    requires t.history.receiverMark == s.history.receiverMark && t.history.mainCalls == s.history.mainCalls + 1
    requires t.history.receiverAlone == s.history.receiverAlone
    ensures ReceiverOk(t)
  {
    hide CString;
    hide Behind;
  }

  lemma MainFirstKeepsInv(s: State)
    requires Inv(s) && s.main.MFirst?
    ensures Inv(MainFirstCall(s))
  {
    var t := MainFirstCall(s);
    CallEffect(s, At(Main, 5), {' '});
    assert PointersOk(t);
    MainFirstReads(s);
    hide Call;
    hide CString;
    hide Strtok;
    ReceiverAfterMainCall(s, t);
    hide ReceiverOk;
  }

  lemma MainFirstReads(s: State)
    requires Inv(s) && s.main.MFirst? && PointersOk(MainFirstCall(s))
    ensures MainOk(MainFirstCall(s))
  {
    CallEffect(s, At(Main, 5), {' '});
    CallMeans(s, At(Main, 5), {' '});
    if s.history.intrusions == s.history.typedAt {
      BehindTag(s.mainBuffer, s.main.line, 5);
      assert CString(s.mainBuffer, 5) == s.main.line[5..];
    }
    assert MainSaved(MainFirstCall(s));
    hide MainSaved;
    hide Call;
    hide CString;
    hide Strtok;
    hide ReceiverOk;
    hide Behind;
  }

  lemma MainSecondKeepsInv(s: State)
    requires Inv(s) && s.main.MSecond?
    ensures Inv(MainSecondCall(s))
  {
    CallEffect(s, s.saved, {});
    CallMeans(s, s.saved, {});
    var t := MainSecondCall(s);
    AllReadOut(s);
    hide Call;
    hide CString;
    ReceiverAfterMainCall(s, t);
    hide ReceiverOk;
    assert MainOk(t);
  }

  /** A call without delimiters leaves nothing to read. */
  lemma AllReadOut(s: State)
    requires PointersOk(s) && s.saved.At?
    ensures var t := Call(s, s.saved, {}).0;
      t.saved.At? && t.saved.who == s.saved.who && InBuffer(t, t.saved) &&
      CString(BufferOf(t, t.saved.who), t.saved.at) == ""
  {
    var b := BufferOf(s, s.saved.who);
    TerminatedAt(b, s.saved.at);
    StrtokOnAll(b, s.saved.at);
  }

  lemma MainFormatKeepsInv(s: State)
    requires Inv(s) && s.main.MFormatting?
    ensures Inv(MainFormats(s))
  {
    ReceiverKeptByMain(s, MainFormats(s));
  }

  // ------------------------------------------------------ the receiver's steps

  lemma ReceiveKeepsInv(s: State, datagram: string)
    requires Inv(s) && Enabled(s, Receive(datagram))
    ensures Inv(Apply(s, Receive(datagram)))
  {
    OverwriteReads(s.receiverBuffer, datagram);
    var t := Apply(s, Receive(datagram));
    hide Overwrite;
    hide CString;
    MainKeptByReceiver(s, t);
  }

  lemma MainKeptByReceiver(s: State, t: State)
    requires PointersOk(s) && MainOk(s) && PointersOk(t)
    requires t.mainBuffer == s.mainBuffer && t.main == s.main && t.saved == s.saved
    requires s.history == t.history.(
      receiverMark := s.history.receiverMark, shown := s.history.shown, sent := s.history.sent)
    ensures MainOk(t)
  {
  }

  lemma ReceiverDispatchKeepsInv(s: State)
    requires Inv(s) && s.receiver.RReceived?
    ensures Inv(ReceiverDispatches(s))
  {
    hide CString;
    hide ClientParse;
    MainKeptByReceiver(s, ReceiverDispatches(s));
  }

  /** A call of the receiver moves the saved position out of main's buffer or further on in it. */
  lemma MainAfterReceiverCall(s: State, t: State)
    requires PointersOk(s) && MainOk(s) && PointersOk(t)
    requires t.mainBuffer == s.mainBuffer && t.main == s.main && t.saved.At?
    requires t.saved.who.Main? ==>
               s.saved.At? && s.saved.who.Main? && s.saved.at <= t.saved.at
               && (CString(s.mainBuffer, s.saved.at) != "" ==> t.saved.at > s.saved.at)
               && CString(s.mainBuffer, t.saved.at) == ""
    requires t.history.mainMark == s.history.mainMark && t.history.receiverCalls == s.history.receiverCalls + 1
    requires t.history.intrusions >= s.history.intrusions && t.history.typedAt == s.history.typedAt
    requires t.history.parsedAt == s.history.parsedAt && t.history.mainAlone == s.history.mainAlone
    ensures MainOk(t)
  {
    hide CString;
  }

  lemma ReceiverFirstKeepsInv(s: State)
    requires Inv(s) && s.receiver.RFirst?
    ensures Inv(ReceiverFirstCall(s))
  {
    var t := ReceiverFirstCall(s);
    CallEffect(s, At(Receiver, 7), {'|'});
    assert PointersOk(t);
    ReceiverFirstReads(s);
    hide Call;
    hide CString;
    hide Strtok;
    MainAfterReceiverCall(s, t);
    hide MainOk;
  }

  lemma ReceiverFirstReads(s: State)
    requires Inv(s) && s.receiver.RFirst? && PointersOk(ReceiverFirstCall(s))
    ensures ReceiverOk(ReceiverFirstCall(s))
  {
    CallEffect(s, At(Receiver, 7), {'|'});
    CallMeans(s, At(Receiver, 7), {'|'});
    BehindTag(s.receiverBuffer, s.receiver.datagram, 7);
    hide Call;
    hide CString;
    hide Strtok;
    hide MainOk;
    hide Behind;
  }

  lemma ReceiverThirdKeepsInv(s: State)
    requires Inv(s) && s.receiver.RThird?
    ensures Inv(ReceiverThirdCall(s))
  {
    hide CString;
    hide Strtok;
    hide Call;
    var t := ReceiverThirdCall(s);
    CallEffect(s, s.saved, {});
    CallMeans(s, s.saved, {});
    AllReadOut(s);
    assert PointersOk(t);
    ReceiverThirdReads(s);
    MainAfterReceiverCall(s, t);
    hide MainOk;
    hide ReceiverOk;
  }

  lemma ReceiverThirdReads(s: State)
    requires Inv(s) && s.receiver.RThird?
    requires PointersOk(ReceiverThirdCall(s))
    ensures ReceiverOk(ReceiverThirdCall(s))
  {
    CallEffect(s, s.saved, {});
    CallMeans(s, s.saved, {});
    hide Call;
    hide CString;
    hide Strtok;
    hide MainOk;
    hide Behind;
    hide SenderToken;
    hide TimestampToken;
    hide TaggedAs;
    hide RestOf;
    hide TextOf;
  }

  /** The receiver's second call, if it goes on in its own buffer. */
  lemma ReceiverSecondAtHome(s: State)
    requires Inv(s) && s.receiver.RSecond? && s.saved.who.Receiver?
    ensures Inv(ReceiverSecondCall(s))
  {
    CallEffect(s, s.saved, {'|'});
    CallMeans(s, s.saved, {'|'});
    var t := ReceiverSecondCall(s);
    SenderKept(s);
    hide Call;
    hide CString;
    MainAfterReceiverCall(s, t);
    hide MainOk;
    assert ReceiverOk(t);
  }

  lemma SenderKept(s: State)
    requires Inv(s) && s.receiver.RSecond? && s.saved.who.Receiver?
    ensures InBuffer(Call(s, s.saved, {'|'}).0, s.receiver.sender)
    ensures TextAt(Call(s, s.saved, {'|'}).0, s.receiver.sender) == TextAt(s, s.receiver.sender)
  {
    var b, sender := s.receiverBuffer, s.receiver.sender;
    TerminatedAt(b, s.saved.at);
    StrtokOnWrites(b, s.saved.at, {'|'});
    if sender.At? && CString(b, s.saved.at) != "" {
      TerminatedAt(b, sender.at);
      TokenKept(b, sender.at, s.saved.at, {'|'});
    }
  }

  /** The receiver's second call, if it goes on in main's buffer. */
  lemma ReceiverSecondAbroad(s: State)
    requires Inv(s) && s.receiver.RSecond? && s.saved.who.Main?
    ensures Inv(ReceiverSecondCall(s))
  {
    CallEffect(s, s.saved, {'|'});
    CallMeans(s, s.saved, {'|'});
    var t := ReceiverSecondCall(s);
    RecipientKept(s);
    hide Call;
    hide CString;
    assert ReceiverOk(t);
    hide ReceiverOk;
    hide Strtok;
    assert MainOk(t);
  }

  /** It cannot spoil main's recipient, which lies in front of the saved position. */
  lemma RecipientKept(s: State)
    requires Inv(s) && s.receiver.RSecond? && s.saved.who.Main?
    ensures var t := Call(s, s.saved, {'|'}).0;
      s.main.MSecond? && s.main.recipient.At? ==>
        && TextAt(t, s.main.recipient) == TextAt(s, s.main.recipient)
        && t.saved.At? && InBuffer(t, t.saved) && Behind(t.mainBuffer, s.main.recipient.at, t.saved.at)
  {
    var b := s.mainBuffer;
    TerminatedAt(b, s.saved.at);
    StrtokOnWrites(b, s.saved.at, {'|'});
    CallEffect(s, s.saved, {'|'});
    if s.main.MSecond? && s.main.recipient.At? {
      TerminatedAt(b, s.main.recipient.at);
      TokenKept(b, s.main.recipient.at, s.saved.at, {'|'});
    }
  }

  lemma ReceiverShowKeepsInv(s: State)
    requires Inv(s) && s.receiver.RShowing?
    ensures Inv(ReceiverShows(s))
  {
    MainKeptByReceiver(s, ReceiverShows(s));
  }

  // -------------------------------------------------------------------- runs

  lemma StepKeepsInv(s: State, a: Action, t: State)
    requires Inv(s) && Step(s, a, t)
    ensures Inv(t)
  {
    hide MainOk;
    hide ReceiverOk;
    match a
    case TypeLine(line, newline) => TypingKeepsInv(s, line, newline);
    case Receive(datagram) => ReceiveKeepsInv(s, datagram);
    case MainStep =>
      match s.main {
        case MTyped(_) => MainDispatchKeepsInv(s);
        case MFirst(_) => MainFirstKeepsInv(s);
        case MSecond(_, _) => MainSecondKeepsInv(s);
        case MFormatting(_, _, _) => MainFormatKeepsInv(s);
        case _ =>
      }
    case ReceiverStep =>
      match s.receiver {
        case RReceived(_) => ReceiverDispatchKeepsInv(s);
        case RFirst(_, _) => ReceiverFirstKeepsInv(s);
        case RSecond(_, _, _) =>
          if s.saved.who.Receiver? {
            ReceiverSecondAtHome(s);
          } else {
            ReceiverSecondAbroad(s);
          }
        case RThird(_, _, _, _) => ReceiverThirdKeepsInv(s);
        case RShowing(_, _, _, _, _) => ReceiverShowKeepsInv(s);
        case _ =>
      }
  }

  lemma {:induction false} RunInv(states: seq<State>, actions: seq<Action>, k: nat)
    requires IsRun(states, actions) && k < |states|
    ensures Inv(states[k])
  {
    if k > 0 {
      RunInv(states, actions, k - 1);
      StepKeepsInv(states[k - 1], actions[k - 1], states[k]);
    }
  }

  // ---------------------------------------------------------------- theorems

  /** The receiver's calls of strtok. */
  predicate ReceiverCalls(s: State, a: Action) {
    a.ReceiverStep? && (s.receiver.RFirst? || s.receiver.RSecond? || s.receiver.RThird?)
  }

  predicate MainCalls(s: State, a: Action) {
    a.MainStep? && (s.main.MFirst? || s.main.MSecond?)
  }

  /** The receiver goes on cutting in main's buffer. */
  predicate Intrudes(s: State, a: Action) {
    a.ReceiverStep? && s.receiver.RSecond? && s.saved.At? && s.saved.who.Main?
  }

  lemma StepCounts(s: State, a: Action, t: State)
    requires Inv(s) && Step(s, a, t)
    ensures t.history.intrusions == s.history.intrusions + if Intrudes(s, a) then 1 else 0
    ensures t.history.receiverCalls == s.history.receiverCalls + if ReceiverCalls(s, a) then 1 else 0
    ensures t.history.mainCalls == s.history.mainCalls + if MainCalls(s, a) then 1 else 0
    ensures !MainCalls(s, a) ==> t.history.mainMark == s.history.mainMark
    ensures !ReceiverCalls(s, a) ==> t.history.receiverMark == s.history.receiverMark
  {
    hide StrtokOn;
    hide CString;
    hide MainOk;
    hide ReceiverOk;
  }

  /** Between main's two calls the count of the receiver's calls tells whether there has been one. */
  lemma {:induction false} MainAloneExactly(states: seq<State>, actions: seq<Action>, a: nat, b: nat)
    requires IsRun(states, actions) && a < b < |states|
    requires states[a].main.MFirst? && actions[a] == MainStep
    requires forall q :: a < q < b ==> !MainCalls(states[q], actions[q])
    ensures states[b].history.mainMark.others == states[a].history.receiverCalls <= states[b].history.receiverCalls
    ensures states[b].history.receiverCalls == states[b].history.mainMark.others <==>
            forall q :: a < q < b ==> !ReceiverCalls(states[q], actions[q])
    decreases b
  {
    RunInv(states, actions, b - 1);
    assert Step(states[b - 1], actions[b - 1], states[b]);
    if b > a + 1 {
      MainAloneExactly(states, actions, a, b - 1);
      StepCounts(states[b - 1], actions[b - 1], states[b]);
    }
  }

  /** Between the reading of a line and main's first call the count of intrusions tells whether the receiver
      has gone on cutting in main's buffer. */
  lemma {:induction false} LineKeptExactly(states: seq<State>, actions: seq<Action>, a: nat, b: nat)
    requires IsRun(states, actions) && a <= b < |states|
    ensures states[a].history.intrusions <= states[b].history.intrusions
    ensures states[a].history.intrusions == states[b].history.intrusions <==>
            forall q :: a <= q < b ==> !Intrudes(states[q], actions[q])
    decreases b
  {
    if a < b {
      LineKeptExactly(states, actions, a, b - 1);
      RunInv(states, actions, b - 1);
      assert Step(states[b - 1], actions[b - 1], states[b]);
      hide Step;
      hide Inv;
      StepCounts(states[b - 1], actions[b - 1], states[b]);
    }
  }

  /** Between two successive calls of the receiver the count of main's calls tells the same. */
  lemma {:induction false} ReceiverAloneExactly(states: seq<State>, actions: seq<Action>, a: nat, b: nat)
    requires IsRun(states, actions) && a < b < |states|
    requires (states[a].receiver.RFirst? || states[a].receiver.RSecond?) && actions[a] == ReceiverStep
    requires forall q :: a < q < b ==> !ReceiverCalls(states[q], actions[q])
    ensures states[b].history.receiverMark.others == states[a].history.mainCalls <= states[b].history.mainCalls
    ensures states[b].history.mainCalls == states[b].history.receiverMark.others <==>
            forall q :: a < q < b ==> !MainCalls(states[q], actions[q])
    decreases b
  {
    RunInv(states, actions, b - 1);
    assert Step(states[b - 1], actions[b - 1], states[b]);
    if b > a + 1 {
      ReceiverAloneExactly(states, actions, a, b - 1);
      StepCounts(states[b - 1], actions[b - 1], states[b]);
    }
  }

  /** As long as there is something left of the line, main goes on in its own buffer where it left off exactly
      if the receiver has not called strtok in between. */
  lemma MainGoesOnExactly(states: seq<State>, actions: seq<Action>, k: nat)
    requires IsRun(states, actions) && k < |states| && states[k].main.MSecond? && states[k].history.mainMark.rest != ""
    ensures states[k].saved == At(Main, states[k].history.mainMark.left) <==>
            states[k].history.receiverCalls == states[k].history.mainMark.others
  {
    RunInv(states, actions, k);
  }

  /** So main's text is its own exactly then. */
  lemma MessageOwnExactly(states: seq<State>, actions: seq<Action>, k: nat)
    requires IsRun(states, actions) && k < |actions| && actions[k] == MainStep
    requires states[k].main.MSecond? && states[k].history.mainMark.rest != ""
    ensures states[k + 1].main.MFormatting?
    ensures states[k + 1].main.message == At(Main, states[k].history.mainMark.left) <==>
            states[k].history.receiverCalls == states[k].history.mainMark.others
  {
    var s := states[k];
    RunInv(states, actions, k);
    assert Step(s, MainStep, states[k + 1]);
    TerminatedAt(BufferOf(s, s.saved.who), s.saved.at);
    StrtokOnAll(BufferOf(s, s.saved.who), s.saved.at);
    hide StrtokOn;
    hide ReceiverOk;
  }

  /** The same for the receiver, as long as it has gone on where it left off so far. */
  lemma ReceiverGoesOnExactly(states: seq<State>, actions: seq<Action>, k: nat)
    requires IsRun(states, actions) && k < |states| && states[k].history.receiverMark.rest != ""
    requires states[k].receiver.RSecond? || (states[k].receiver.RThird? && states[k].history.receiverAlone)
    ensures states[k].saved == At(Receiver, states[k].history.receiverMark.left) <==>
            states[k].history.mainCalls == states[k].history.receiverMark.others
  {
    RunInv(states, actions, k);
  }

  /** What lone calls find in a line is what the client is meant to send. */
  lemma FormattedAsTyped(line: string)
    requires StartsWith(line, "2ONE ")
    ensures Formatted(TextOf(RecipientToken(line)), TextOf(Strtok(RestOf(RecipientToken(line)), {}))) ==
            Sends(ClientFormat(line))
  {
    assert line[..5] == "2ONE ";
    assert line[0] == '2' && line[1] == 'O';
    assert !StartsWith(line, "LIST") by { assert "LIST"[0] != line[0]; }
    assert !StartsWith(line, "2ALL ") by { assert "2ALL "[1] != line[1]; }
    StrtokAll("");
    hide Strtok;
  }

  /** Main sends what was typed, if no call of the receiver fell between main's two calls and the receiver
      did not cut main's line before the first. */
  lemma TypedIsSent(states: seq<State>, actions: seq<Action>, k: nat)
    requires IsRun(states, actions) && k < |actions| && actions[k] == MainStep
    requires states[k].main.MFormatting? && LineKept(states[k]) && states[k].history.mainAlone
    ensures states[k + 1].history.sent == states[k].history.sent + Sends(ClientFormat(states[k].main.line))
  {
    RunInv(states, actions, k);
    assert Step(states[k], MainStep, states[k + 1]);
    FormattedAsTyped(states[k].main.line);
    hide CString;
    hide Strtok;
    hide ClientFormat;
    hide Formatted;
    hide ReceiverOk;
  }

  /** The other commands need no more than a line that the receiver has not cut. */
  lemma CommandIsSent(states: seq<State>, actions: seq<Action>, k: nat)
    requires IsRun(states, actions) && k < |actions| && actions[k] == MainStep
    requires states[k].main.MTyped? && states[k].history.intrusions == states[k].history.typedAt
    ensures if StartsWith(states[k].main.line, "2ONE ") then states[k + 1].main == MFirst(states[k].main.line)
            else
              && states[k + 1].history.sent == states[k].history.sent + Sends(ClientFormat(states[k].main.line))
              && states[k + 1].main == if StartsWith(states[k].main.line, "STOP") then MDone else MTyping
  {
    RunInv(states, actions, k);
    assert Step(states[k], MainStep, states[k + 1]);
    hide CString;
    hide ClientFormat;
    hide ReceiverOk;
  }

  /** What lone calls find in a datagram is what the client is meant to show. */
  lemma ShownAsReceived(datagram: string, toAll: bool)
    requires TaggedAs(datagram, toAll)
    ensures var sender, timestamp := TextOf(SenderToken(datagram)), TextOf(TimestampToken(datagram));
      var message := TextOf(Strtok(RestOf(TimestampToken(datagram)), {}));
      ClientParse(datagram) == if toAll then ToAll(sender, timestamp, message) else Private(sender, timestamp, message)
  {
    assert datagram[0] == datagram[..7][0] && datagram[3] == datagram[..7][3];
    assert !StartsWith(datagram, "PING") by { assert "PING"[0] != datagram[0]; }
    assert toAll ==> datagram[3] == 'A';
    assert !toAll ==> !StartsWith(datagram, "MSGALL|") by {
      assert "MSGALL|"[3] != 'O' && (!toAll ==> datagram[3] == 'O');
    }
    hide Strtok;
  }

  /** The receiver shows a message as the pure parser reads it, if no call of main fell between its calls. */
  lemma ReceivedIsShown(states: seq<State>, actions: seq<Action>, k: nat)
    requires IsRun(states, actions) && k < |actions| && actions[k] == ReceiverStep
    requires states[k].receiver.RShowing? && states[k].history.receiverAlone
    ensures states[k + 1].history.shown == states[k].history.shown + [ClientParse(states[k].receiver.datagram)]
  {
    RunInv(states, actions, k);
    assert Step(states[k], ReceiverStep, states[k + 1]);
    ShownAsReceived(states[k].receiver.datagram, states[k].receiver.toAll);
    hide CString;
    hide Strtok;
    hide ClientParse;
    hide MainOk;
  }

  /** The sender is shown as received in any case. */
  lemma SenderIsShown(states: seq<State>, actions: seq<Action>, k: nat)
    requires IsRun(states, actions) && k < |actions| && actions[k] == ReceiverStep && states[k].receiver.RShowing?
    ensures var shown, parsed := states[k + 1].history.shown, ClientParse(states[k].receiver.datagram);
      && shown != [] && (shown[|shown| - 1].ToAll? || shown[|shown| - 1].Private?) && (parsed.ToAll? || parsed.Private?)
      && shown[|shown| - 1].sender == parsed.sender
  {
    RunInv(states, actions, k);
    assert Step(states[k], ReceiverStep, states[k + 1]);
    ShownAsReceived(states[k].receiver.datagram, states[k].receiver.toAll);
    hide CString;
    hide Strtok;
    hide ClientParse;
    hide MainOk;
  }

  /** A ping is answered, and anything else that is no message is shown as the pure parser reads it. */
  lemma AnswerIsShown(states: seq<State>, actions: seq<Action>, k: nat)
    requires IsRun(states, actions) && k < |actions| && actions[k] == ReceiverStep && states[k].receiver.RReceived?
    requires !StartsWith(states[k].receiver.datagram, "MSGALL|") && !StartsWith(states[k].receiver.datagram, "MSGONE|")
    ensures var s, t, datagram := states[k], states[k + 1], states[k].receiver.datagram;
      && t.receiver.RReceiving?
      && (StartsWith(datagram, "PING") ==>
            t.history.sent == s.history.sent + ["PONG"] && t.history.shown == s.history.shown)
      && (!StartsWith(datagram, "PING") ==>
            t.history.sent == s.history.sent && t.history.shown == s.history.shown + [ClientParse(datagram)])
  {
    hide CString;
    hide ClientParse;
    hide MainOk;
    RunInv(states, actions, k);
    assert Step(states[k], ReceiverStep, states[k + 1]);
  }
}
