/**
 The text protocol of Lab 12: strtok (section 7.24.5.8 of ISO C11), the formatters that write
 into buffers of 1024 bytes, and the parsers on both sides. A string here is a C string without
 its terminating null character.
 */
module Wire {

  const BUFFER_SIZE := 1024
  const ID_LENGTH := 32
  const TIMESTAMP_LENGTH := 19

  // ----------------------------------------------------------------- strtok

  datatype Token = NoToken | Token(text: string, rest: string)

  function SkipLeading(s: string, delimiters: set<char>): (t: string)
    ensures |t| <= |s|
  {
    if s != "" && s[0] in delimiters then SkipLeading(s[1..], delimiters) else s
  }

  /** The number of characters before the first delimiter. */
  function Span(s: string, delimiters: set<char>): (n: nat)
    ensures n <= |s|
  {
    if s == "" || s[0] in delimiters then 0 else 1 + Span(s[1..], delimiters)
  }

  /** The next token and what a following call starts from. */
  function Strtok(s: string, delimiters: set<char>): Token {
    var t := SkipLeading(s, delimiters);
    if t == "" then NoToken
    else
      var n := Span(t, delimiters);
      Token(t[..n], if n < |t| then t[n + 1..] else "")
  }

  predicate Clean(w: string, delimiters: set<char>) {
    w != "" && forall c :: c in w ==> c !in delimiters
  }

  // ------------------------------------------------------------- formatting

  /** snprintf into a buffer of BUFFER_SIZE bytes. */
  function Fit(s: string): string {
    if |s| < BUFFER_SIZE then s else s[..BUFFER_SIZE - 1]
  }

  predicate StartsWith(s: string, prefix: string) {
    prefix <= s
  }

  // ----------------------------------------------------------------- client

  datatype Typed = Nothing | Send(message: string) | Usage | UnknownCommand

  /** What the client makes of a line typed by its user. */
  function ClientFormat(line: string): Typed {
    if line == "" then Nothing
    else if StartsWith(line, "LIST") then Send("LIST")
    else if StartsWith(line, "2ALL ") then Send(Fit("2ALL|" + line[5..]))
    else if StartsWith(line, "2ONE ") then
      match Strtok(line[5..], {' '})
      case NoToken => Usage
      case Token(recipient, rest) =>
        match Strtok(rest, {})
        case NoToken => Usage
        case Token(message, _) => Send(Fit("2ONE|" + recipient + "|" + message))
    else if StartsWith(line, "STOP") then Send("STOP")
    else UnknownCommand
  }

  datatype Text = Null | Text(chars: string)

  datatype Shown =
    | AnswerPing
    | ToAll(sender: Text, timestamp: Text, message: Text)
    | Private(sender: Text, timestamp: Text, message: Text)
    | Listing(names: string)
    | ServerError(reason: string)
    | Other(line: string)

  function TextOf(t: Token): Text {
    if t.NoToken? then Null else Text(t.text)
  }

  function RestOf(t: Token): string {
    if t.NoToken? then "" else t.rest
  }

  /** The three strtok calls of the receiver on what follows the tag. */
  function Fields(body: string): (Text, Text, Text) {
    var sender := Strtok(body, {'|'});
    var timestamp := Strtok(RestOf(sender), {'|'});
    var message := Strtok(RestOf(timestamp), {});
    (TextOf(sender), TextOf(timestamp), TextOf(message))
  }

  /** What the client's receiver does with a datagram. */
  function ClientParse(datagram: string): Shown {
    if StartsWith(datagram, "PING") then AnswerPing
    else if StartsWith(datagram, "MSGALL|") then
      var (sender, timestamp, message) := Fields(datagram[7..]);
      ToAll(sender, timestamp, message)
    else if StartsWith(datagram, "MSGONE|") then
      var (sender, timestamp, message) := Fields(datagram[7..]);
      Private(sender, timestamp, message)
    else if StartsWith(datagram, "LIST|") then Listing(datagram[5..])
    else if StartsWith(datagram, "ERROR|") then ServerError(datagram[6..])
    else Other(datagram)
  }

  // ----------------------------------------------------------------- server

  datatype Command =
    | Register(id: string)
    | List
    | SendAll(text: string)
    | SendOne(recipient: string, text: string)
    | Ignored
    | Pong
    | Stop
    | Unknown

  /** What the server makes of a datagram. */
  function ServerParse(datagram: string): Command {
    if StartsWith(datagram, "REGI|") then Register(datagram[5..])
    else if datagram == "LIST" then List
    else if StartsWith(datagram, "2ALL|") then SendAll(datagram[5..])
    else if StartsWith(datagram, "2ONE|") then
      match Strtok(datagram[5..], {'|'})
      case NoToken => Ignored
      case Token(recipient, rest) =>
        match Strtok(rest, {})
        case NoToken => Ignored
        case Token(text, _) => SendOne(recipient, text)
    else if datagram == "PONG" then Pong
    else if datagram == "STOP" then Stop
    else Unknown
  }

  function FormatAll(sender: string, timestamp: string, text: string): string {
    Fit("MSGALL|" + sender + "|" + timestamp + "|" + text)
  }

  function FormatOne(sender: string, timestamp: string, text: string): string {
    Fit("MSGONE|" + sender + "|" + timestamp + "|" + text)
  }

  // --------------------------------------------------------- what is what

  /** Each command of the protocol is told from the datagram alone. */
  lemma ParsedExactly(d: string)
    ensures ServerParse(d).Register? <==> StartsWith(d, "REGI|")
    ensures StartsWith(d, "REGI|") ==> d == "REGI|" + ServerParse(d).id
    ensures ServerParse(d).SendAll? <==> StartsWith(d, "2ALL|")
    ensures StartsWith(d, "2ALL|") ==> d == "2ALL|" + ServerParse(d).text
    ensures ServerParse(d).SendOne? || ServerParse(d).Ignored? <==> StartsWith(d, "2ONE|")
    ensures ServerParse(d) == List <==> d == "LIST"
    ensures ServerParse(d) == Pong <==> d == "PONG"
    ensures ServerParse(d) == Stop <==> d == "STOP"
  {
    var tags := ["REGI|", "2ALL|", "2ONE|", "LIST", "PONG", "STOP"];
    assert forall i, j :: 0 <= i < j < 6 ==> tags[i][0] != tags[j][0] || tags[i][1] != tags[j][1];
    forall i | 0 <= i < 6 && StartsWith(d, tags[i])
      ensures d[0] == tags[i][0] && d[1] == tags[i][1]
    {
      assert d[..|tags[i]|] == tags[i];
    }
    assert tags[0] == "REGI|" && tags[1] == "2ALL|" && tags[2] == "2ONE|";
    assert tags[3] == "LIST" && tags[4] == "PONG" && tags[5] == "STOP";
    assert forall tag: string :: StartsWith(tag, tag);
    hide Strtok;
  }

  /** Whatever is typed behind them, LIST and STOP reach the server as such. */
  lemma TypedCommands(line: string)
    ensures StartsWith(line, "LIST") ==>
      ClientFormat(line) == Send("LIST") && ServerParse(ClientFormat(line).message) == List
    ensures StartsWith(line, "STOP") ==>
      ClientFormat(line) == Send("STOP") && ServerParse(ClientFormat(line).message) == Stop
    ensures ClientFormat(line) == Nothing <==> line == ""
    ensures ClientFormat(line) == Usage ==> StartsWith(line, "2ONE ")
    ensures ClientFormat(line) == UnknownCommand <==>
      line != "" && !StartsWith(line, "LIST") && !StartsWith(line, "STOP")
      && !StartsWith(line, "2ALL ") && !StartsWith(line, "2ONE ")
  {
    ParsedExactly("LIST");
    ParsedExactly("STOP");
    if StartsWith(line, "STOP") {
      assert line[..4] == "STOP";
      assert line[0] == "STOP"[0];
      assert "LIST"[0] != "STOP"[0] && "2ALL "[0] != "STOP"[0] && "2ONE "[0] != "STOP"[0];
    }
    hide Strtok;
    hide ServerParse;
  }

  /** The client tells the server's answers apart by their tags and shows what follows. */
  lemma AnswersShown(rest: string)
    ensures ClientParse("LIST|" + rest) == Listing(rest)
    ensures ClientParse("ERROR|" + rest) == ServerError(rest)
    ensures ClientParse("PING" + rest) == AnswerPing
  {
    Tagged("LIST|", rest);
    Tagged("ERROR|", rest);
    Tagged("PING", rest);
    assert "PING"[0] != "LIST|"[0] && "MSGALL|"[0] != "LIST|"[0] && "MSGONE|"[0] != "LIST|"[0];
    assert "PING"[0] != "ERROR|"[0] && "MSGALL|"[0] != "ERROR|"[0] && "MSGONE|"[0] != "ERROR|"[0];
    assert "LIST|"[0] != "ERROR|"[0];
    hide Fields;
  }

  /** What carries no tag is shown as it is. */
  lemma UntaggedShown(d: string)
    requires !StartsWith(d, "PING") && !StartsWith(d, "LIST|") && !StartsWith(d, "ERROR|")
    requires !StartsWith(d, "MSGALL|") && !StartsWith(d, "MSGONE|")
    ensures ClientParse(d) == Other(d)
  {
  }

  // ------------------------------------------------------- lemmas on strtok

  lemma {:induction false} SpanStops(w: string, c: char, rest: string, delimiters: set<char>)
    requires (forall x :: x in w ==> x !in delimiters) && c in delimiters
    ensures Span(w + [c] + rest, delimiters) == |w|
  {
    var s := w + [c] + rest;
    if w == "" {
      assert s[0] == c;
    } else {
      assert s[0] == w[0] && s[1..] == w[1..] + [c] + rest;
      SpanStops(w[1..], c, rest, delimiters);
    }
  }

  /** A clean word before a delimiter is the next token, whatever follows. */
  lemma StrtokWord(w: string, c: char, rest: string, delimiters: set<char>)
    requires Clean(w, delimiters) && c in delimiters
    ensures Strtok(w + [c] + rest, delimiters) == Token(w, rest)
  {
    var s := w + [c] + rest;
    SpanStops(w, c, rest, delimiters);
    assert s[0] == w[0] && s[0] in w;
    assert s[..|w|] == w && s[|w| + 1..] == rest;
  }

  lemma {:induction false} SpanWhole(s: string)
    ensures Span(s, {}) == |s|
  {
    if s != "" {
      SpanWhole(s[1..]);
    }
  }

  /** Without delimiters strtok returns all that is left, or nothing. */
  lemma StrtokAll(s: string)
    ensures Strtok(s, {}) == if s == "" then NoToken else Token(s, "")
  {
    SpanWhole(s);
  }

  lemma {:induction false} SkipLeadingStops(s: string, delimiters: set<char>)
    ensures var t := SkipLeading(s, delimiters); t == "" || t[0] !in delimiters
  {
    if s != "" && s[0] in delimiters {
      SkipLeadingStops(s[1..], delimiters);
    }
  }

  lemma {:induction false} SpanAvoids(s: string, delimiters: set<char>)
    ensures forall i :: 0 <= i < Span(s, delimiters) ==> s[i] !in delimiters
    ensures Span(s, delimiters) < |s| ==> s[Span(s, delimiters)] in delimiters
  {
    if s != "" && s[0] !in delimiters {
      SpanAvoids(s[1..], delimiters);
      forall i | 0 <= i < Span(s, delimiters)
        ensures s[i] !in delimiters
      {
        assert i > 0 ==> s[i] == s[1..][i - 1];
      }
    }
  }

  /** Every token is a non-empty word without delimiters. */
  lemma TokensAreClean(s: string, delimiters: set<char>)
    requires Strtok(s, delimiters).Token?
    ensures Clean(Strtok(s, delimiters).text, delimiters)
  {
    SkipLeadingStops(s, delimiters);
    SpanAvoids(SkipLeading(s, delimiters), delimiters);
  }

  // --------------------------------------------------------- the round trip

  predicate Timestamp(t: string) {
    |t| == TIMESTAMP_LENGTH && Clean(t, {'|'})
  }

  /** The part of a text that fits behind a sender, a timestamp and the tag. */
  function FittingText(sender: string, text: string): string {
    var room := BUFFER_SIZE - 1 - 7 - |sender| - TIMESTAMP_LENGTH - 2;
    if 0 <= room < |text| then text[..room] else text
  }

  lemma FitForward(tag: string, sender: string, timestamp: string, text: string)
    requires |tag| == 7 && |sender| < ID_LENGTH && |timestamp| == TIMESTAMP_LENGTH
    ensures Fit(tag + sender + "|" + timestamp + "|" + text) ==
      tag + (sender + "|" + timestamp + "|" + FittingText(sender, text))
  {
    var head := tag + sender + "|" + timestamp + "|";
    assert tag + sender + "|" + timestamp + "|" + text == head + text;
    assert |head| + |FittingText(sender, text)| <= BUFFER_SIZE - 1;
    assert tag + (sender + "|" + timestamp + "|" + FittingText(sender, text)) == head + FittingText(sender, text);
  }

  /** The receiver's fields are the sender, the timestamp and the text that were formatted. */
  lemma FieldsOfForward(sender: string, timestamp: string, text: string)
    requires Clean(sender, {'|'}) && Timestamp(timestamp)
    ensures Fields(sender + "|" + timestamp + "|" + text) ==
      (Text(sender), Text(timestamp), if text == "" then Null else Text(text))
  {
    assert sender + "|" + timestamp + "|" + text == sender + ['|'] + (timestamp + "|" + text);
    StrtokWord(sender, '|', timestamp + "|" + text, {'|'});
    StrtokWord(timestamp, '|', text, {'|'});
    StrtokAll(text);
  }

  /** A tag can be told apart from any other by the first place where they differ. */
  lemma Tagged(tag: string, body: string)
    ensures (tag + body)[..|tag|] == tag && (tag + body)[|tag|..] == body
    ensures forall i :: 0 <= i < |tag| ==> (tag + body)[i] == tag[i]
    ensures StartsWith(tag + body, tag)
    ensures forall other: string, i | 0 <= i < |other| && i < |tag| && other[i] != tag[i] ::
      !StartsWith(tag + body, other)
  {
  }

  /** A datagram from the server shows exactly the sender it was formatted with if and only if
      that identifier is not empty and has no separator in it. */
  lemma PrivateShown(sender: string, timestamp: string, text: string)
    requires |sender| < ID_LENGTH && Timestamp(timestamp) && text != ""
    ensures ClientParse(FormatOne(sender, timestamp, text)).Private?
    ensures ClientParse(FormatOne(sender, timestamp, text)).sender == Text(sender) <==> Clean(sender, {'|'})
    ensures Clean(sender, {'|'}) ==>
      ClientParse(FormatOne(sender, timestamp, text)) ==
      Private(Text(sender), Text(timestamp), Text(FittingText(sender, text)))
  {
    FitForward("MSGONE|", sender, timestamp, text);
    var body := sender + "|" + timestamp + "|" + FittingText(sender, text);
    assert FormatOne(sender, timestamp, text) == "MSGONE|" + body;
    Tagged("MSGONE|", body);
    assert "PING"[0] != "MSGONE|"[0] && "MSGALL|"[3] != "MSGONE|"[3];
    ShownSender(body);
    if Clean(sender, {'|'}) {
      FieldsOfForward(sender, timestamp, FittingText(sender, text));
    }
  }

  lemma ShownSender(body: string)
    ensures Fields(body).0.Text? ==> Clean(Fields(body).0.chars, {'|'})
  {
    if Strtok(body, {'|'}).Token? {
      TokensAreClean(body, {'|'});
    }
  }

  /** The same for a message to everybody, whose text may be empty: then the third token is missing. */
  lemma ToAllShown(sender: string, timestamp: string, text: string)
    requires |sender| < ID_LENGTH && Timestamp(timestamp)
    ensures ClientParse(FormatAll(sender, timestamp, text)).ToAll?
    ensures ClientParse(FormatAll(sender, timestamp, text)).sender == Text(sender) <==> Clean(sender, {'|'})
    ensures Clean(sender, {'|'}) ==>
      ClientParse(FormatAll(sender, timestamp, text)) ==
      ToAll(Text(sender), Text(timestamp), if text == "" then Null else Text(FittingText(sender, text)))
  {
    FitForward("MSGALL|", sender, timestamp, text);
    var body := sender + "|" + timestamp + "|" + FittingText(sender, text);
    assert FormatAll(sender, timestamp, text) == "MSGALL|" + body;
    Tagged("MSGALL|", body);
    assert "PING"[0] != "MSGALL|"[0];
    ShownSender(body);
    if Clean(sender, {'|'}) {
      FieldsOfForward(sender, timestamp, FittingText(sender, text));
    }
  }

  /** What fits is a non-empty beginning of the text, and all of it exactly when there is room. */
  lemma FittingTextIsPrefix(sender: string, text: string)
    requires |sender| < ID_LENGTH && text != ""
    ensures FittingText(sender, text) <= text && FittingText(sender, text) != ""
    ensures FittingText(sender, text) == text <==> |sender| + |text| + 28 <= BUFFER_SIZE - 1
  {
  }

  /** A word, a separator and a text are read back as two tokens. */
  lemma TwoTokens(word: string, c: char, text: string)
    requires Clean(word, {c}) && text != ""
    ensures Strtok(word + [c] + text, {c}) == Token(word, text) && Strtok(text, {}) == Token(text, "")
  {
    StrtokWord(word, c, text, {c});
    StrtokAll(text);
  }

  lemma PrivateCommand(line: string)
    requires StartsWith(line, "2ONE ")
    ensures line != "" && !StartsWith(line, "LIST") && !StartsWith(line, "2ALL ")
  {
    assert line == "2ONE " + line[5..];
    Tagged("2ONE ", line[5..]);
    assert "LIST"[0] != "2ONE "[0] && "2ALL "[1] != "2ONE "[1];
  }

  /** The client sends the recipient and the text the user typed. */
  lemma TypedPrivate(recipient: string, text: string)
    requires Clean(recipient, {' '}) && text != "" && |recipient| + |text| + 6 < BUFFER_SIZE
    ensures ClientFormat("2ONE " + recipient + " " + text) == Send("2ONE|" + recipient + "|" + text)
  {
    var line := "2ONE " + recipient + " " + text;
    var body := recipient + [' '] + text;
    assert line == "2ONE " + body && line[5..] == body && line[..5] == "2ONE ";
    PrivateCommand(line);
    TwoTokens(recipient, ' ', text);
    hide Strtok;
    hide Clean;
    hide StartsWith;
  }

  /** A broadcast reaches the server as typed, whatever its characters. */
  lemma AllReadBack(text: string)
    requires |text| + 5 < BUFFER_SIZE
    ensures ClientFormat("2ALL " + text) == Send("2ALL|" + text)
    ensures ServerParse("2ALL|" + text) == SendAll(text)
  {
    Tagged("2ALL ", text);
    Tagged("2ALL|", text);
    assert "LIST"[0] != "2ALL "[0] && "REGI|"[0] != "2ALL|"[0];
  }

  /** The server reads back the typed recipient and text if and only if the recipient has no
      separator in it. */
  lemma PrivateReadBack(recipient: string, text: string)
    requires recipient != "" && text != ""
    ensures ServerParse("2ONE|" + recipient + "|" + text) == SendOne(recipient, text) <==> Clean(recipient, {'|'})
  {
    var datagram := "2ONE|" + recipient + "|" + text;
    var body := recipient + ['|'] + text;
    assert datagram == "2ONE|" + body;
    PrivateDatagram(body);
    if Clean(recipient, {'|'}) {
      TwoTokens(recipient, '|', text);
    } else if Strtok(body, {'|'}).Token? {
      TokensAreClean(body, {'|'});
    }
    hide Strtok;
    hide Clean;
    hide ServerParse;
  }

  lemma PrivateDatagram(body: string)
    ensures ServerParse("2ONE|" + body) == match Strtok(body, {'|'})
      case NoToken => Ignored
      case Token(recipient, rest) =>
        match Strtok(rest, {})
        case NoToken => Ignored
        case Token(text, _) => SendOne(recipient, text)
  {
    Tagged("2ONE|", body);
    assert "REGI|"[0] != "2ONE|"[0] && "2ALL|"[1] != "2ONE|"[1];
    hide Strtok;
  }

  /** End to end: the line typed by one client is shown to the other with its sender and a
      non-empty beginning of its text, all of it when it fits. */
  lemma PrivateRoundTrip(sender: string, timestamp: string, recipient: string, text: string) returns (shown: string)
    requires |sender| < ID_LENGTH && Clean(sender, {'|'}) && Timestamp(timestamp)
    requires Clean(recipient, {' ', '|'}) && text != "" && |recipient| + |text| + 6 < BUFFER_SIZE
    ensures ClientFormat("2ONE " + recipient + " " + text).Send?
    ensures ServerParse(ClientFormat("2ONE " + recipient + " " + text).message) == SendOne(recipient, text)
    ensures ClientParse(FormatOne(sender, timestamp, text)) == Private(Text(sender), Text(timestamp), Text(shown))
    ensures shown != "" && shown <= text
    ensures shown == text <==> |sender| + |text| + 28 <= BUFFER_SIZE - 1
  {
    TypedPrivate(recipient, text);
    PrivateReadBack(recipient, text);
    PrivateShown(sender, timestamp, text);
    FittingTextIsPrefix(sender, text);
    shown := FittingText(sender, text);
  }
}
