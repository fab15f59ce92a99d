/** Runs of the Lab 12 client in which a message arrives while another one is being parsed. */
module ClientRuns {
  import opened Wire
  import opened Tokenizer
  import opened ClientThreads
  import opened ClientTheorems

  /** One more step of a run. */
  lemma Extended(states: seq<State>, actions: seq<Action>, a: Action)
    returns (longer: seq<State>, more: seq<Action>, t: State)
    requires IsRun(states, actions) && |states| == |actions| + 1 && Enabled(states[|actions|], a)
    ensures Inv(states[|actions|]) && Inv(t) && t == Apply(states[|actions|], a)
    ensures IsRun(longer, more) && more == actions + [a] && |longer| == |more| + 1 && longer[|more|] == t
  {
    var s := states[|actions|];
    RunInv(states, actions, |actions|);
    assert PointersOk(s);
    t := Apply(s, a);
    assert Step(s, a, t);
    StepKeepsInv(s, a, t);
    hide Apply;
    hide Enabled;
    hide Inv;
    longer, more := states + [t], actions + [a];
  }

  /** A line to be typed and a message to arrive. */
  datatype Case = Case(recipient: string, typed: string, sender: string, timestamp: string, other: string)

  function Line(c: Case): string {
    "2ONE " + c.recipient + " " + c.typed
  }

  function Datagram(c: Case): string {
    "MSGONE|" + c.sender + "|" + c.timestamp + "|" + c.other
  }

  predicate Plausible(c: Case) {
    && Clean(c.recipient, {' '}) && Clean(c.sender, {'|'}) && Timestamp(c.timestamp)
    && c.typed != "" && c.other != ""
    && CText(Line(c)) && |Line(c)| + 1 < BUFFER_SIZE && CText(Datagram(c))
  }

  lemma LineTokens(c: Case)
    requires Plausible(c)
    ensures StartsWith(Line(c), "2ONE ") && RecipientToken(Line(c)) == Token(c.recipient, c.typed)
  {
    var body := c.recipient + [' '] + c.typed;
    assert Line(c) == "2ONE " + body;
    Tagged("2ONE ", body);
    StrtokWord(c.recipient, ' ', c.typed, {' '});
  }

  lemma DatagramTokens(c: Case)
    requires Plausible(c)
    ensures TaggedAs(Datagram(c), false) && SenderToken(Datagram(c)) == Token(c.sender, c.timestamp + "|" + c.other)
    ensures TimestampToken(Datagram(c)) == Token(c.timestamp, c.other)
  {
    var body := c.sender + ['|'] + (c.timestamp + "|" + c.other);
    assert Datagram(c) == "MSGONE|" + body;
    Tagged("MSGONE|", body);
    assert c.timestamp + "|" + c.other == c.timestamp + ['|'] + c.other;
    StrtokWord(c.sender, '|', c.timestamp + "|" + c.other, {'|'});
    StrtokWord(c.timestamp, '|', c.other, {'|'});
  }

  function Fresh(): State {
    var empty := seq(BUFFER_SIZE, _ => '\0');
    State(empty, empty, Nowhere, MTyping, RReceiving,
          History([], [], 0, 0, 0, 0, 0, Mark(0, "", 0), Mark(0, "", 0), false, false))
  }

  // ------------------------------------------------------------- single steps

  lemma TypesLine(s: State, c: Case)
    requires Inv(s) && s.main.MTyping? && Plausible(c)
    ensures var t := Apply(s, TypeLine(Line(c), true));
      && t.main == MTyped(Line(c)) && t.receiver == s.receiver
      && t.history == s.history.(typedAt := s.history.intrusions)
  {
  }

  lemma MainReady(s: State, c: Case)
    requires Inv(s) && Plausible(c) && s.main == MTyped(Line(c)) && s.history.intrusions == s.history.typedAt
    ensures var t := Apply(s, MainStep);
      t.main == MFirst(Line(c)) && t.receiver == s.receiver && t.history == s.history
  {
    LineTokens(c);
    hide CString;
    hide Line;
  }

  lemma MessageArrives(s: State, c: Case)
    requires Inv(s) && Plausible(c) && s.receiver.RReceiving?
    ensures var t := Apply(s, Receive(Datagram(c)));
      t.receiver == RReceived(Datagram(c)) && t.main == s.main && t.history == s.history
  {
  }

  lemma DatagramTagged(c: Case)
    ensures var d := Datagram(c);
      !StartsWith(d, "PING") && !StartsWith(d, "MSGALL|") && StartsWith(d, "MSGONE|")
  {
    Tagged("MSGONE|", c.sender + "|" + c.timestamp + "|" + c.other);
    assert Datagram(c) == "MSGONE|" + (c.sender + "|" + c.timestamp + "|" + c.other);
    assert "PING"[0] != "MSGONE|"[0] && "MSGALL|"[3] != "MSGONE|"[3];
  }

  lemma ReceiverReady(s: State, c: Case)
    requires Inv(s) && Plausible(c) && s.receiver == RReceived(Datagram(c))
    ensures var t := Apply(s, ReceiverStep);
      t.receiver == RFirst(Datagram(c), false) && t.main == s.main && t.history == s.history
  {
    DatagramTagged(c);
    hide CString;
    hide Datagram;
    hide StartsWith;
    hide MainOk;
    hide Plausible;
  }

  /** Nothing is sent, shown or cut. */
  predicate Quiet(s: State, t: State) {
    && t.history.sent == s.history.sent && t.history.shown == s.history.shown
    && t.history.intrusions == s.history.intrusions && t.history.typedAt == s.history.typedAt
  }

  lemma MainBegins(s: State)
    requires Inv(s) && s.main.MFirst?
    ensures var t := Apply(s, MainStep);
      && t.main.MSecond? && t.main.line == s.main.line && t.receiver == s.receiver
      && Quiet(s, t) && t.history.parsedAt == s.history.intrusions
  {
    hide StrtokOn;
  }

  lemma ReceiverBegins(s: State)
    requires Inv(s) && s.receiver.RFirst?
    ensures var t := Apply(s, ReceiverStep);
      && t.receiver.RSecond? && t.receiver.datagram == s.receiver.datagram && t.receiver.toAll == s.receiver.toAll
      && t.main == s.main && Quiet(s, t) && t.history.parsedAt == s.history.parsedAt
      && t.history.mainCalls == t.history.receiverMark.others
  {
    hide StrtokOn;
  }

  lemma ReceiverContinues(s: State)
    requires Inv(s) && s.receiver.RSecond? && s.history.mainCalls == s.history.receiverMark.others
    ensures var t := Apply(s, ReceiverStep);
      && t.receiver.RThird? && t.receiver.datagram == s.receiver.datagram && t.receiver.toAll == s.receiver.toAll
      && t.main == s.main && Quiet(s, t) && t.history.parsedAt == s.history.parsedAt
      && t.history.mainCalls == t.history.receiverMark.others && t.history.receiverAlone
  {
    hide StrtokOn;
  }

  /** Main has found the recipient, the receiver the sender and the timestamp; strtok would go on with the
      text of the message that has arrived. */
  predicate Crossed(s: State, c: Case) {
    && Inv(s) && Plausible(c) && s.history.sent == [] && s.history.shown == []
    && s.main.MSecond? && s.main.line == Line(c) && LineKept(s)
    && s.receiver.RThird? && s.receiver.datagram == Datagram(c) && !s.receiver.toAll
    && s.history.receiverAlone && s.history.mainCalls == s.history.receiverMark.others
  }

  lemma CrossedTokens(s: State, c: Case)
    requires Crossed(s, c)
    ensures s.saved.At? && s.saved.who.Receiver? && CString(s.receiverBuffer, s.saved.at) == c.other
    ensures TextAt(s, s.main.recipient) == Text(c.recipient) && TextAt(s, s.receiver.sender) == Text(c.sender)
    ensures TextAt(s, s.receiver.timestamp) == Text(c.timestamp)
    ensures s.main.recipient.At? ==> s.main.recipient.who.Main?
    ensures s.receiver.sender.At? ==> s.receiver.sender.who.Receiver?
    ensures s.receiver.timestamp.At? ==> s.receiver.timestamp.who.Receiver?
  {
    LineTokens(c);
    DatagramTokens(c);
    hide CString;
    hide Strtok;
    hide Behind;
  }

  predicate NothingLeft(s: State) {
    s.saved.At? && s.saved.who.Receiver? && InBuffer(s, s.saved) && CString(s.receiverBuffer, s.saved.at) == ""
  }

  /** Reading out what is left at the saved position in the receiver's buffer. */
  lemma ReadsOut(s: State)
    requires PointersOk(s) && s.saved.At? && s.saved.who.Receiver?
    ensures var (t, p) := Call(s, s.saved, {});
      && t == s.(saved := t.saved) && t.saved.At? && t.saved.who.Receiver? && t.saved.at < BUFFER_SIZE
      && CString(s.receiverBuffer, t.saved.at) == ""
      && p == if CString(s.receiverBuffer, s.saved.at) == "" then Nowhere else s.saved
  {
    TerminatedAt(s.receiverBuffer, s.saved.at);
    StrtokOnAll(s.receiverBuffer, s.saved.at);
  }

  /** Main reads out the text that has arrived; nothing is left for the receiver. */
  lemma MainReadsOther(s: State, c: Case)
    requires Crossed(s, c)
    ensures var t := Apply(s, MainStep);
      && t.main == MFormatting(Line(c), s.main.recipient, s.saved) && t.receiver == s.receiver
      && t.mainBuffer == s.mainBuffer && t.receiverBuffer == s.receiverBuffer
      && NothingLeft(t) && t.history.sent == [] && t.history.shown == []
  {
    CrossedTokens(s, c);
    ReadsOut(s);
    hide Call;
    hide CString;
    hide MainOk;
    hide ReceiverOk;
  }

  /** The receiver reads out the text; nothing is left for main. */
  lemma ReceiverReadsOther(s: State)
    requires Inv(s) && s.receiver.RThird? && s.saved.At? && s.saved.who.Receiver?
    ensures var t := Apply(s, ReceiverStep);
      && t.main == s.main && t.receiver.RShowing? && NothingLeft(t)
      && t.history.sent == s.history.sent && t.history.shown == s.history.shown
  {
    ReadsOut(s);
    hide Call;
    hide CString;
    hide MainOk;
    hide ReceiverOk;
  }

  lemma MainReadsNothing(s: State)
    requires Inv(s) && s.main.MSecond? && NothingLeft(s)
    ensures var t := Apply(s, MainStep);
      && t.main == MFormatting(s.main.line, s.main.recipient, Nowhere)
      && t.history.sent == s.history.sent
  {
    ReadsOut(s);
    hide Call;
    hide CString;
    hide MainOk;
    hide ReceiverOk;
  }

  lemma ReceiverReadsNothing(s: State)
    requires Inv(s) && s.receiver.RThird? && NothingLeft(s)
    ensures var t := Apply(s, ReceiverStep); var r := s.receiver;
      && t.receiver == RShowing(r.datagram, r.toAll, r.sender, r.timestamp, Nowhere)
      && t.receiverBuffer == s.receiverBuffer && t.history.sent == s.history.sent && t.history.shown == s.history.shown
  {
    ReadsOut(s);
    hide Call;
    hide CString;
    hide MainOk;
    hide ReceiverOk;
  }

  // -------------------------------------------------------------------- runs

  function Opening(c: Case): seq<Action> {
    [TypeLine(Line(c), true), MainStep, Receive(Datagram(c)), ReceiverStep, MainStep, ReceiverStep, ReceiverStep]
  }

  lemma FreshRun() returns (states: seq<State>, actions: seq<Action>, s: State)
    ensures IsRun(states, actions) && |states| == |actions| + 1 && states[|actions|] == s && Inv(s)
    ensures actions == [] && s == Fresh()
  {
    states, actions, s := [Fresh()], [], Fresh();
    assert IsRun(states, actions);
    RunInv(states, actions, 0);
  }

  /** A line is typed, a message arrives. */
  lemma BothReady(c: Case) returns (states: seq<State>, actions: seq<Action>, s: State)
    requires Plausible(c)
    ensures IsRun(states, actions) && |states| == |actions| + 1 && states[|actions|] == s && Inv(s)
    ensures actions == [TypeLine(Line(c), true), MainStep, Receive(Datagram(c)), ReceiverStep]
    ensures s.main == MFirst(Line(c)) && s.receiver == RFirst(Datagram(c), false) && s.history == Fresh().history
  {
    hide IsRun;
    hide Apply;
    hide Inv;
    states, actions, s := FreshRun();
    TypesLine(s, c);
    states, actions, s := Extended(states, actions, TypeLine(Line(c), true));
    MainReady(s, c);
    states, actions, s := Extended(states, actions, MainStep);
    MessageArrives(s, c);
    states, actions, s := Extended(states, actions, Receive(Datagram(c)));
    ReceiverReady(s, c);
    states, actions, s := Extended(states, actions, ReceiverStep);
  }

  lemma MainAhead(c: Case) returns (states: seq<State>, actions: seq<Action>, s: State)
    requires Plausible(c)
    ensures IsRun(states, actions) && |states| == |actions| + 1 && states[|actions|] == s && Inv(s)
    ensures actions == [TypeLine(Line(c), true), MainStep, Receive(Datagram(c)), ReceiverStep, MainStep]
    ensures s.main.MSecond? && s.main.line == Line(c) && LineKept(s) && s.receiver == RFirst(Datagram(c), false)
    ensures s.history.sent == [] && s.history.shown == []
  {
    hide IsRun;
    hide Apply;
    hide Inv;
    states, actions, s := BothReady(c);
    MainBegins(s);
    states, actions, s := Extended(states, actions, MainStep);
  }

  /** Then main calls strtok once and the receiver twice. */
  lemma ThreadsCross(c: Case) returns (states: seq<State>, actions: seq<Action>, s: State)
    requires Plausible(c)
    ensures IsRun(states, actions) && |states| == |actions| + 1 && states[|actions|] == s
    ensures actions == Opening(c) && Crossed(s, c)
  {
    hide IsRun;
    hide Apply;
    hide Inv;
    states, actions, s := MainAhead(c);
    ReceiverBegins(s);
    states, actions, s := Extended(states, actions, ReceiverStep);
    ReceiverContinues(s);
    states, actions, s := Extended(states, actions, ReceiverStep);
  }

  lemma MainSendsOther(s: State, c: Case)
    requires Inv(s) && s.main.MFormatting? && s.history.sent == []
    requires TextAt(s, s.main.recipient) == Text(c.recipient) && TextAt(s, s.main.message) == Text(c.other)
    ensures var t := Apply(s, MainStep);
      && t.history.sent == [Fit("2ONE|" + c.recipient + "|" + c.other)]
      && t == s.(main := MTyping, history := t.history) && t.history.shown == s.history.shown
  {
    hide CString;
    hide Fit;
    hide MainOk;
    hide ReceiverOk;
  }

  lemma ReceiverShowsNothing(s: State, c: Case)
    requires Inv(s) && s.receiver.RShowing? && !s.receiver.toAll && s.receiver.message.Nowhere? && s.history.shown == []
    requires TextAt(s, s.receiver.sender) == Text(c.sender) && TextAt(s, s.receiver.timestamp) == Text(c.timestamp)
    ensures var t := Apply(s, ReceiverStep);
      t.history.shown == [Private(Text(c.sender), Text(c.timestamp), Null)] && t.history.sent == s.history.sent
  {
    hide CString;
    hide MainOk;
    hide ReceiverOk;
  }

  lemma MainStealsText(c: Case) returns (states: seq<State>, actions: seq<Action>, s: State)
    requires Plausible(c)
    ensures IsRun(states, actions) && |states| == |actions| + 1 && states[|actions|] == s
    ensures actions == Opening(c) + [MainStep, MainStep]
    ensures Inv(s) && NothingLeft(s) && s.receiver.RThird? && !s.receiver.toAll
    ensures TextAt(s, s.receiver.sender) == Text(c.sender) && TextAt(s, s.receiver.timestamp) == Text(c.timestamp)
    ensures s.receiver.sender.At? ==> s.receiver.sender.who.Receiver?
    ensures s.receiver.timestamp.At? ==> s.receiver.timestamp.who.Receiver?
    ensures s.history.sent == [Fit("2ONE|" + c.recipient + "|" + c.other)] && s.history.shown == []
  {
    states, actions, s := ThreadsCross(c);
    CrossedTokens(s, c);
    MainReadsOther(s, c);
    assert s.main.MSecond? && s.receiver.RThird? && !s.receiver.toAll && PointersOk(s);
    hide IsRun;
    hide CString;
    hide Inv;
    hide Crossed;
    hide Apply;
    hide Plausible;
    hide Opening;
    states, actions, s := Extended(states, actions, MainStep);
    MainSendsOther(s, c);
    states, actions, s := Extended(states, actions, MainStep);
  }

  /** The typed text is replaced by the one that arrives, and the one that arrives is lost. */
  lemma TypedTextReplaced(c: Case) returns (states: seq<State>, actions: seq<Action>)
    requires Plausible(c)
    ensures IsRun(states, actions) && |states| == |actions| + 1
    ensures actions == Opening(c) + [MainStep, MainStep, ReceiverStep, ReceiverStep]
    ensures states[|actions|].history.sent == [Fit("2ONE|" + c.recipient + "|" + c.other)]
    ensures states[|actions|].history.shown == [Private(Text(c.sender), Text(c.timestamp), Null)]
  {
    hide IsRun;
    hide CString;
    hide Inv;
    hide Apply;
    hide Opening;
    var s;
    states, actions, s := MainStealsText(c);
    ReceiverReadsNothing(s);
    states, actions, s := Extended(states, actions, ReceiverStep);
    ReceiverShowsNothing(s, c);
    states, actions, s := Extended(states, actions, ReceiverStep);
  }

  lemma ReceiverTakesText(c: Case) returns (states: seq<State>, actions: seq<Action>, s: State)
    requires Plausible(c)
    ensures IsRun(states, actions) && |states| == |actions| + 1 && states[|actions|] == s
    ensures actions == Opening(c) + [ReceiverStep]
    ensures Inv(s) && NothingLeft(s) && s.main.MSecond? && s.history.sent == []
  {
    states, actions, s := ThreadsCross(c);
    CrossedTokens(s, c);
    ReceiverReadsOther(s);
    assert s.main.MSecond? && s.receiver.RThird?;
    hide IsRun;
    hide CString;
    hide Inv;
    hide Crossed;
    hide Apply;
    states, actions, s := Extended(states, actions, ReceiverStep);
  }

  /** The typed text is lost: main believes that none was typed and sends nothing. */
  lemma TypedTextLost(c: Case) returns (states: seq<State>, actions: seq<Action>)
    requires Plausible(c)
    ensures IsRun(states, actions) && |states| == |actions| + 1
    ensures actions == Opening(c) + [ReceiverStep, MainStep, MainStep]
    ensures states[|actions|].history.sent == [] && states[|actions|].main.MTyping?
  {
    hide IsRun;
    hide CString;
    hide Inv;
    var s;
    states, actions, s := ReceiverTakesText(c);
    MainReadsNothing(s);
    states, actions, s := Extended(states, actions, MainStep);
    states, actions, s := Extended(states, actions, MainStep);
  }

  /** What is sent then is not what was typed. */
  lemma ReplacedDiffers(c: Case)
    requires Plausible(c) && c.other != c.typed
    requires |c.recipient| + |c.other| + 6 < BUFFER_SIZE
    ensures Sends(ClientFormat(Line(c))) == ["2ONE|" + c.recipient + "|" + c.typed]
    ensures Sends(ClientFormat(Line(c))) != [Fit("2ONE|" + c.recipient + "|" + c.other)]
  {
    TypedPrivate(c.recipient, c.typed);
    var head := "2ONE|" + c.recipient + "|";
    assert (head + c.typed)[|head|..] == c.typed && (head + c.other)[|head|..] == c.other;
  }

  // ------------------------------------------------- a line that is cut short

  /** Behind the recipient strtok stands at the text. */
  lemma StandsAtText(b: seq<char>, c: Case)
    requires Contents(b) && Plausible(c) && CString(b, 0) == Line(c)
    ensures var r := StrtokOn(b, 5, {' '});
      && r.save == 6 + |c.recipient| && r.save <= |r.buffer| && CString(r.buffer, r.save) == c.typed
  {
    hide CString;
    BehindTag(b, Line(c), 5);
    TerminatedAt(b, 5);
    LineTokens(c);
    FirstWord(c.recipient, c.typed);
    var body := c.recipient + [' '] + c.typed;
    assert Line(c)[5..] == body;
    StrtokOnMeans(b, 5, {' '});
    hide Plausible;
    hide Line;
    hide SkipLeading;
    hide Span;
  }

  lemma FirstWord(word: string, text: string)
    requires Clean(word, {' '})
    ensures var body := word + [' '] + text; SkipLeading(body, {' '}) == body && Span(body, {' '}) == |word|
  {
    SpanStops(word, ' ', text, {' '});
    assert (word + [' '] + text)[0] == word[0] && word[0] in word;
  }

  /** Main's two calls on a line, with nobody in between: strtok then stands at the end of the line. */
  lemma LineParsedAlone(s: State, c: Case)
    requires Inv(s) && Plausible(c) && s.main == MFirst(Line(c)) && s.history.intrusions == s.history.typedAt
    ensures var t := Apply(s, MainStep);
      && t.main.MSecond? && t.saved == At(Main, 6 + |c.recipient|)
      && t.saved.at <= |t.mainBuffer| && CString(t.mainBuffer, t.saved.at) == c.typed
      && t.main.line == s.main.line && t.receiver == s.receiver && Quiet(s, t) && LineKept(t)
      && t.history.receiverCalls == t.history.mainMark.others
  {
    StandsAtText(s.mainBuffer, c);
    hide StrtokOn;
    hide CString;
    hide ReceiverOk;
    hide Plausible;
    hide Line;
  }

  lemma RestReadAlone(s: State, text: string)
    requires Inv(s) && s.main.MSecond? && s.saved.At? && s.saved.who.Main?
    requires s.saved.at <= |s.mainBuffer| && CString(s.mainBuffer, s.saved.at) == text
    requires s.history.receiverCalls == s.history.mainMark.others
    ensures var t := Apply(s, MainStep);
      && t.main.MFormatting? && t.saved == At(Main, s.saved.at + |text|) && t.history.mainAlone
      && t.main.line == s.main.line && t.receiver == s.receiver && Quiet(s, t)
      && t.history.parsedAt == s.history.parsedAt
  {
    TerminatedAt(s.mainBuffer, s.saved.at);
    StrtokOnAll(s.mainBuffer, s.saved.at);
    hide StrtokOn;
    hide MainOk;
    hide ReceiverOk;
  }

  lemma MainSendsTyped(s: State, c: Case)
    requires Inv(s) && Plausible(c) && s.main.MFormatting? && s.main.line == Line(c)
    requires LineKept(s) && s.history.mainAlone
    ensures var t := Apply(s, MainStep);
      && t == s.(main := MTyping, history := t.history) && t.history.shown == s.history.shown
      && t.history.sent == s.history.sent + [Fit("2ONE|" + c.recipient + "|" + c.typed)]
      && t.history.intrusions == s.history.intrusions
  {
    LineTokens(c);
    StrtokAll(c.typed);
    hide CString;
    hide Strtok;
    hide ReceiverOk;
    hide Fit;
  }

  /** A command to everybody, long enough to reach over the line before it. */
  predicate Longer(c: Case, text: string, rest: string) {
    && '|' !in text && CText("2ALL " + text + "|" + rest)
    && |Line(c)| < 5 + |text| && |text| + |rest| + 7 < BUFFER_SIZE
  }

  /** The receiver's second call, going on where main's last line ended, cuts main's next line. */
  lemma CutsNextLine(s: State, c: Case, text: string, rest: string)
    requires Inv(s) && Longer(c, text, rest) && s.main.MTyped? && s.main.line == "2ALL " + text + "|" + rest
    requires s.history.intrusions == s.history.typedAt && s.receiver.RSecond? && s.saved == At(Main, |Line(c)|)
    ensures var t := Apply(s, ReceiverStep);
      && t.main == s.main && CString(t.mainBuffer, 0) == "2ALL " + text && t.history.sent == s.history.sent
  {
    var b, from, line := s.mainBuffer, s.saved.at, s.main.line;
    BehindTag(b, line, from);
    TerminatedAt(b, 0);
    TerminatedAt(b, from);
    var word := ("2ALL " + text)[from..];
    assert line[from..] == word + ['|'] + rest;
    SpanStops(word, '|', rest, {'|'});
    assert line[from..][0] == word[0] && word[0] in text;
    var r := StrtokOn(b, from, {'|'});
    assert r.buffer == b[5 + |text| := '\0'];
    CutString(b, r.buffer, 0, 5 + |text|);
    assert line[..5 + |text|] == "2ALL " + text;
    hide StrtokOn;
    hide MainOk;
    hide ReceiverOk;
  }

  lemma SendsWhatIsLeft(s: State, text: string)
    requires Inv(s) && s.main.MTyped? && CString(s.mainBuffer, 0) == "2ALL " + text && |text| + 5 < BUFFER_SIZE
    ensures Apply(s, MainStep).history.sent == s.history.sent + ["2ALL|" + text]
  {
    AllReadBack(text);
    Tagged("2ALL ", text);
    assert "2ONE "[1] != "2ALL "[1];
    hide CString;
    hide MainOk;
    hide ReceiverOk;
  }

  /** A message arrives and the receiver begins to read it; then a line is typed and sent. */
  function FirstLine(c: Case): seq<Action> {
    [Receive(Datagram(c)), ReceiverStep, ReceiverStep, TypeLine(Line(c), true), MainStep, MainStep, MainStep, MainStep]
  }

  /** A first line is sent as typed while the receiver is in the middle of a message. */
  lemma FirstLineSent(c: Case) returns (states: seq<State>, actions: seq<Action>, s: State)
    requires Plausible(c)
    ensures IsRun(states, actions) && |states| == |actions| + 1 && states[|actions|] == s && Inv(s)
    ensures actions == FirstLine(c)
    ensures s.main.MTyping? && s.receiver.RSecond? && s.saved == At(Main, |Line(c)|)
    ensures s.history.sent == [Fit("2ONE|" + c.recipient + "|" + c.typed)]
  {
    states, actions, s := FirstLineParsed(c);
    assert |Line(c)| == 6 + |c.recipient| + |c.typed|;
    hide IsRun;
    hide Apply;
    hide Inv;
    hide Line;
    hide Datagram;
    hide Plausible;
    RestReadAlone(s, c.typed);
    states, actions, s := Extended(states, actions, MainStep);
    MainSendsTyped(s, c);
    states, actions, s := Extended(states, actions, MainStep);
  }

  lemma FirstLineParsed(c: Case) returns (states: seq<State>, actions: seq<Action>, s: State)
    requires Plausible(c)
    ensures IsRun(states, actions) && |states| == |actions| + 1 && states[|actions|] == s && Inv(s)
    ensures actions == FirstLine(c)[..6]
    ensures s.main.MSecond? && s.saved == At(Main, 6 + |c.recipient|) && s.main.line == Line(c)
    ensures s.saved.at <= |s.mainBuffer| && CString(s.mainBuffer, s.saved.at) == c.typed
    ensures s.receiver.RSecond? && LineKept(s) && s.history.receiverCalls == s.history.mainMark.others
    ensures s.history.sent == []
  {
    hide IsRun;
    hide Apply;
    hide Inv;
    states, actions, s := LineBegun(c);
    LineParsedAlone(s, c);
    states, actions, s := Extended(states, actions, MainStep);
  }

  lemma LineBegun(c: Case) returns (states: seq<State>, actions: seq<Action>, s: State)
    requires Plausible(c)
    ensures IsRun(states, actions) && |states| == |actions| + 1 && states[|actions|] == s && Inv(s)
    ensures actions == FirstLine(c)[..5]
    ensures s.main == MFirst(Line(c)) && s.receiver.RSecond? && s.history.sent == []
    ensures s.history.intrusions == s.history.typedAt
  {
    hide IsRun;
    hide Apply;
    hide Inv;
    states, actions, s := MessageBegun(c);
    TypesLine(s, c);
    states, actions, s := Extended(states, actions, TypeLine(Line(c), true));
    MainReady(s, c);
    states, actions, s := Extended(states, actions, MainStep);
  }

  lemma MessageBegun(c: Case) returns (states: seq<State>, actions: seq<Action>, s: State)
    requires Plausible(c)
    ensures IsRun(states, actions) && |states| == |actions| + 1 && states[|actions|] == s && Inv(s)
    ensures actions == FirstLine(c)[..3] && s.main.MTyping? && s.receiver.RSecond? && s.history.sent == []
  {
    hide IsRun;
    hide Apply;
    hide Inv;
    states, actions, s := FreshRun();
    MessageArrives(s, c);
    states, actions, s := Extended(states, actions, Receive(Datagram(c)));
    ReceiverReady(s, c);
    states, actions, s := Extended(states, actions, ReceiverStep);
    ReceiverBegins(s);
    states, actions, s := Extended(states, actions, ReceiverStep);
  }

  /** The receiver then cuts the next line before main looks at it, and only its beginning is sent. */
  lemma NextLineCut(c: Case, text: string, rest: string) returns (states: seq<State>, actions: seq<Action>)
    requires Plausible(c) && Longer(c, text, rest)
    ensures IsRun(states, actions) && |states| == |actions| + 1
    ensures actions == FirstLine(c) + [TypeLine("2ALL " + text + "|" + rest, true), ReceiverStep, MainStep]
    ensures states[|actions|].history.sent == [Fit("2ONE|" + c.recipient + "|" + c.typed), "2ALL|" + text]
  {
    var s;
    states, actions, s := FirstLineSent(c);
    hide FirstLine;
    hide IsRun;
    hide Inv;
    hide CString;
    var line := "2ALL " + text + "|" + rest;
    states, actions, s := Extended(states, actions, TypeLine(line, true));
    hide Apply;
    CutsNextLine(s, c, text, rest);
    states, actions, s := Extended(states, actions, ReceiverStep);
    SendsWhatIsLeft(s, text);
    states, actions, s := Extended(states, actions, MainStep);
  }
}
