/**
 The two threads of the Lab 12 client. Both call strtok, which keeps one saved position for the whole
 process, so a call of one thread between two calls of the other moves the place where that one goes
 on. Every call is a step of its own, as are reading a line or a datagram and using the tokens.
 */
module ClientThreads {
  import opened Wire
  import opened Tokenizer

  datatype Who = Main | Receiver

  datatype Pointer = Nowhere | At(who: Who, at: nat)

  /** Where main is; the line as typed is history, which no step reads. */
  datatype MainPc =
    | MTyping
    | MTyped(line: string)                                               // fgets has returned
    | MFirst(line: string)
    | MSecond(line: string, recipient: Pointer)
    | MFormatting(line: string, recipient: Pointer, message: Pointer)
    | MDone

  /** Where the receiver is; the datagram as received is history too. */
  datatype ReceiverPc =
    | RReceiving
    | RReceived(datagram: string)                                        // recvfrom has returned
    | RFirst(datagram: string, toAll: bool)
    | RSecond(datagram: string, toAll: bool, sender: Pointer)
    | RThird(datagram: string, toAll: bool, sender: Pointer, timestamp: Pointer)
    | RShowing(datagram: string, toAll: bool, sender: Pointer, timestamp: Pointer, message: Pointer)

  /** A thread's last call that began or continued its parse: where it left the saved position, what there
      was to read, and how often the other thread had called by then. */
  datatype Mark = Mark(left: nat, rest: string, others: nat)

  /** What has happened; no step reads it. */
  datatype History = History(
    sent: seq<string>,
    shown: seq<Shown>,
    mainCalls: nat,
    receiverCalls: nat,
    intrusions: nat,     // calls of the receiver that cut on in main's buffer
    typedAt: nat,        // intrusions when main's line was read,
    parsedAt: nat,       // and when main began to parse it
    mainMark: Mark,
    receiverMark: Mark,
    mainAlone: bool,     // no call of the receiver fell between main's two calls
    receiverAlone: bool) // no call of main fell between the receiver's calls so far

  datatype State = State(
    mainBuffer: seq<char>,
    receiverBuffer: seq<char>,
    saved: Pointer,      // where strtok goes on
    main: MainPc,
    receiver: ReceiverPc,
    history: History)

  datatype Action =
    | TypeLine(line: string, newline: bool)
    | MainStep
    | Receive(datagram: string)
    | ReceiverStep

  // ------------------------------------------------------------ the buffers

  /** The last byte of a buffer is only ever written with a null character. */
  predicate Contents(b: seq<char>) {
    |b| == BUFFER_SIZE && b[BUFFER_SIZE - 1] == '\0'
  }

  predicate CText(s: string) {
    |s| < BUFFER_SIZE && '\0' !in s
  }

  /** Copy a text and a null character to the front of a buffer. */
  function Overwrite(b: seq<char>, s: string): seq<char>
    requires |b| == BUFFER_SIZE && |s| < BUFFER_SIZE
  {
    s + ['\0'] + b[|s| + 1..]
  }

  /** fgets, and the removal of the newline. */
  function ReadLine(b: seq<char>, line: string, newline: bool): seq<char>
    requires |b| == BUFFER_SIZE && |line| < BUFFER_SIZE && (newline ==> |line| + 1 < BUFFER_SIZE)
  {
    if newline then Overwrite(b, line + "\n")[|line| := '\0'] else Overwrite(b, line)
  }

  function BufferOf(s: State, who: Who): seq<char> {
    if who.Main? then s.mainBuffer else s.receiverBuffer
  }

  predicate InBuffer(s: State, p: Pointer) {
    p.At? ==> p.at < |BufferOf(s, p.who)|
  }

  function TextAt(s: State, p: Pointer): Text
    requires InBuffer(s, p)
  {
    if p.Nowhere? then Null else Text(CString(BufferOf(s, p.who), p.at))
  }

  // -------------------------------------------------------------- the steps

  /** strtok on the string at a pointer. */
  function Call(s: State, from: Pointer, delimiters: set<char>): (State, Pointer)
    requires from.At? && InBuffer(s, from)
  {
    var r := StrtokOn(BufferOf(s, from.who), from.at, delimiters);
    (if from.who.Main? then s.(mainBuffer := r.buffer, saved := At(Main, r.save))
     else s.(receiverBuffer := r.buffer, saved := At(Receiver, r.save)),
     if r.start < 0 then Nowhere else At(from.who, r.start))
  }

  function LeftAt(s: State): nat {
    if s.saved.At? then s.saved.at else 0
  }

  function LeftRest(s: State): string {
    if s.saved.At? && InBuffer(s, s.saved) then CString(BufferOf(s, s.saved.who), s.saved.at) else ""
  }

  function Sends(typed: Typed): seq<string> {
    if typed.Send? then [typed.message] else []
  }

  function MainDispatches(s: State): State
    requires s.main.MTyped? && |s.mainBuffer| == BUFFER_SIZE
  {
    var text := CString(s.mainBuffer, 0);
    if StartsWith(text, "2ONE ") then s.(main := MFirst(s.main.line))
    else
      s.(main := if StartsWith(text, "STOP") then MDone else MTyping,
         history := s.history.(sent := s.history.sent + Sends(ClientFormat(text))))
  }

  function MainFirstCall(s: State): State
    requires s.main.MFirst? && |s.mainBuffer| == BUFFER_SIZE
  {
    var (t, recipient) := Call(s, At(Main, 5), {' '});
    t.(main := MSecond(s.main.line, recipient),
       history := s.history.(
         mainCalls := s.history.mainCalls + 1,
         parsedAt := s.history.intrusions,
         mainMark := Mark(LeftAt(t), LeftRest(t), s.history.receiverCalls)))
  }

  function MainSecondCall(s: State): State
    requires s.main.MSecond? && s.saved.At? && InBuffer(s, s.saved)
  {
    var (t, message) := Call(s, s.saved, {});
    t.(main := MFormatting(s.main.line, s.main.recipient, message),
       history := s.history.(
         mainCalls := s.history.mainCalls + 1,
         mainAlone := s.history.receiverCalls == s.history.mainMark.others))
  }

  function Formatted(recipient: Text, message: Text): seq<string> {
    if recipient.Text? && message.Text? then [Fit("2ONE|" + recipient.chars + "|" + message.chars)] else []
  }

  function MainFormats(s: State): State
    requires s.main.MFormatting? && InBuffer(s, s.main.recipient) && InBuffer(s, s.main.message)
  {
    s.(main := MTyping,
       history := s.history.(
         sent := s.history.sent + Formatted(TextAt(s, s.main.recipient), TextAt(s, s.main.message))))
  }

  function ReceiverDispatches(s: State): State
    requires s.receiver.RReceived? && |s.receiverBuffer| == BUFFER_SIZE
  {
    var text := CString(s.receiverBuffer, 0);
    if StartsWith(text, "PING") then
      s.(receiver := RReceiving, history := s.history.(sent := s.history.sent + ["PONG"]))
    else if StartsWith(text, "MSGALL|") || StartsWith(text, "MSGONE|") then
      s.(receiver := RFirst(s.receiver.datagram, StartsWith(text, "MSGALL|")))
    else
      s.(receiver := RReceiving, history := s.history.(shown := s.history.shown + [ClientParse(text)]))
  }

  function ReceiverFirstCall(s: State): State
    requires s.receiver.RFirst? && |s.receiverBuffer| == BUFFER_SIZE
  {
    var (t, sender) := Call(s, At(Receiver, 7), {'|'});
    t.(receiver := RSecond(s.receiver.datagram, s.receiver.toAll, sender),
       history := s.history.(
         receiverCalls := s.history.receiverCalls + 1,
         receiverMark := Mark(LeftAt(t), LeftRest(t), s.history.mainCalls),
         receiverAlone := true))
  }

  function ReceiverSecondCall(s: State): State
    requires s.receiver.RSecond? && s.saved.At? && InBuffer(s, s.saved)
  {
    var (t, timestamp) := Call(s, s.saved, {'|'});
    t.(receiver := RThird(s.receiver.datagram, s.receiver.toAll, s.receiver.sender, timestamp),
       history := s.history.(
         receiverCalls := s.history.receiverCalls + 1,
         intrusions := s.history.intrusions + if s.saved.who.Main? then 1 else 0,
         receiverMark := Mark(LeftAt(t), LeftRest(t), s.history.mainCalls),
         receiverAlone := s.history.mainCalls == s.history.receiverMark.others))
  }

  function ReceiverThirdCall(s: State): State
    requires s.receiver.RThird? && s.saved.At? && InBuffer(s, s.saved)
  {
    var (t, message) := Call(s, s.saved, {});
    t.(receiver := RShowing(s.receiver.datagram, s.receiver.toAll, s.receiver.sender, s.receiver.timestamp, message),
       history := s.history.(
         receiverCalls := s.history.receiverCalls + 1,
         receiverAlone := s.history.receiverAlone && s.history.mainCalls == s.history.receiverMark.others))
  }

  function ReceiverShows(s: State): State
    requires s.receiver.RShowing? && InBuffer(s, s.receiver.sender)
    requires InBuffer(s, s.receiver.timestamp) && InBuffer(s, s.receiver.message)
  {
    var sender, timestamp := TextAt(s, s.receiver.sender), TextAt(s, s.receiver.timestamp);
    var message := TextAt(s, s.receiver.message);
    s.(receiver := RReceiving,
       history := s.history.(shown := s.history.shown + [
         if s.receiver.toAll then ToAll(sender, timestamp, message)
         else Private(sender, timestamp, message)]))
  }

  predicate Enabled(s: State, a: Action) {
    match a
    case TypeLine(line, newline) => s.main.MTyping? && CText(line) && (newline ==> |line| + 1 < BUFFER_SIZE)
    case MainStep => !s.main.MTyping? && !s.main.MDone?
    case Receive(datagram) => s.receiver.RReceiving? && CText(datagram)
    case ReceiverStep => !s.receiver.RReceiving?
  }

  /** strtok(NULL, ...) has somewhere to go on, and every pointer points into its buffer. */
  predicate Safe(s: State) {
    && |s.mainBuffer| == |s.receiverBuffer| == BUFFER_SIZE
    && (s.main.MSecond? || s.receiver.RSecond? || s.receiver.RThird? ==> s.saved.At?)
    && InBuffer(s, s.saved)
    && (match s.main
        case MSecond(_, recipient) => InBuffer(s, recipient)
        case MFormatting(_, recipient, message) => InBuffer(s, recipient) && InBuffer(s, message)
        case _ => true)
    && (match s.receiver
        case RSecond(_, _, sender) => InBuffer(s, sender)
        case RThird(_, _, sender, timestamp) => InBuffer(s, sender) && InBuffer(s, timestamp)
        case RShowing(_, _, sender, timestamp, message) =>
          InBuffer(s, sender) && InBuffer(s, timestamp) && InBuffer(s, message)
        case _ => true)
  }

  function Apply(s: State, a: Action): State
    requires Enabled(s, a) && Safe(s)
  {
    match a
    case TypeLine(line, newline) =>
      s.(mainBuffer := ReadLine(s.mainBuffer, line, newline), main := MTyped(line),
         history := s.history.(typedAt := s.history.intrusions))
    case Receive(datagram) =>
      s.(receiverBuffer := Overwrite(s.receiverBuffer, datagram), receiver := RReceived(datagram))
    case MainStep =>
      (match s.main
       case MTyped(_) => MainDispatches(s)
       case MFirst(_) => MainFirstCall(s)
       case MSecond(_, _) => MainSecondCall(s)
       case MFormatting(_, _, _) => MainFormats(s)
       case _ => s)
    case ReceiverStep =>
      (match s.receiver
       case RReceived(_) => ReceiverDispatches(s)
       case RFirst(_, _) => ReceiverFirstCall(s)
       case RSecond(_, _, _) => ReceiverSecondCall(s)
       case RThird(_, _, _, _) => ReceiverThirdCall(s)
       case RShowing(_, _, _, _, _) => ReceiverShows(s)
       case _ => s)
  }

  /** One step; outside the buffers C promises nothing. */
  ghost predicate Step(s: State, a: Action, t: State) {
    Enabled(s, a) && (Safe(s) ==> t == Apply(s, a))
  }

  ghost predicate Initial(s: State) {
    && Contents(s.mainBuffer) && Contents(s.receiverBuffer)
    && s.saved.Nowhere? && s.main.MTyping? && s.receiver.RReceiving?
    && s.history.sent == [] && s.history.shown == []
  }

  ghost predicate IsRun(states: seq<State>, actions: seq<Action>) {
    && |states| == |actions| + 1
    && Initial(states[0])
    && forall k :: 0 <= k < |actions| ==> Step(states[k], actions[k], states[k + 1])
  }
}
