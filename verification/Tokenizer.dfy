/** strtok as the programs use it: it cuts a null-terminated buffer in place and remembers where
    to go on. Proved against the pure definition of the protocol. */
module Tokenizer {
  import opened Wire

  /** The C string that starts at a position of a buffer. */
  function CString(b: seq<char>, from: nat): (s: string)
    requires from <= |b|
    ensures from + |s| <= |b|
    decreases |b| - from
  {
    if from == |b| || b[from] == '\0' then "" else [b[from]] + CString(b, from + 1)
  }

  /** There is a null character at or after the position. */
  predicate Terminated(b: seq<char>, from: nat) {
    from <= |b| && from + |CString(b, from)| < |b|
  }

  lemma {:induction false} CStringAt(b: seq<char>, from: nat, k: nat)
    requires Terminated(b, from) && k <= |CString(b, from)|
    ensures CString(b, from + k) == CString(b, from)[k..] && Terminated(b, from + k)
    ensures k < |CString(b, from)| ==> b[from + k] == CString(b, from)[k] != '\0'
    ensures k == |CString(b, from)| ==> b[from + k] == '\0'
    decreases k
  {
    if k > 0 {
      CStringAt(b, from + 1, k - 1);
    }
  }

  /** Writing a null character n places on cuts the string down to n characters. */
  lemma {:induction false} CutString(b: seq<char>, c: seq<char>, from: nat, n: nat)
    requires Terminated(b, from) && n <= |CString(b, from)| && |c| == |b| && c[from + n] == '\0'
    requires forall k :: from <= k < from + n ==> c[k] == b[k]
    ensures CString(c, from) == CString(b, from)[..n] && Terminated(c, from)
    decreases n
  {
    if n > 0 {
      CutString(b, c, from + 1, n - 1);
    }
  }

  lemma {:induction false} CStringSame(b: seq<char>, c: seq<char>, from: nat)
    requires |b| == |c| && Terminated(b, from)
    requires forall i :: from <= i <= from + |CString(b, from)| ==> c[i] == b[i]
    ensures CString(c, from) == CString(b, from)
    decreases |b| - from
  {
    if b[from] != '\0' {
      assert from + |CString(b, from)| >= from + 1;
      CStringSame(b, c, from + 1);
    }
  }

  lemma {:induction false} SpanAt(s: string, k: nat, delimiters: set<char>)
    requires k <= |s| && forall i :: 0 <= i < k ==> s[i] !in delimiters
    requires k < |s| ==> s[k] in delimiters
    ensures Span(s, delimiters) == k
  {
    if k > 0 {
      SpanAt(s[1..], k - 1, delimiters);
    }
  }

  lemma {:induction false} SkipAt(s: string, k: nat, delimiters: set<char>)
    requires k <= |s| && forall i :: 0 <= i < k ==> s[i] in delimiters
    ensures SkipLeading(s, delimiters) == SkipLeading(s[k..], delimiters)
  {
    if k > 0 {
      SkipAt(s[1..], k - 1, delimiters);
      assert s[1..][k - 1..] == s[k..];
    } else {
      assert s[0..] == s;
    }
  }

  lemma SkipDone(s: string, delimiters: set<char>)
    requires s == "" || s[0] !in delimiters
    ensures SkipLeading(s, delimiters) == s
  {
  }

  // ------------------------------------------------------- strtok on a buffer

  /** What a call leaves: the buffer, the start of the token (-1 for NULL), and where the next call goes on. */
  datatype Called = Called(buffer: seq<char>, start: int, save: nat)

  function StrtokOn(b: seq<char>, from: nat, delimiters: set<char>): Called
    requires from <= |b|
  {
    var s := CString(b, from);
    var t := SkipLeading(s, delimiters);
    var n := Span(t, delimiters);
    var start := from + |s| - |t|;
    if t == "" then Called(b, -1, start)
    else if n == |t| then Called(b, start, start + n)
    else Called(b[start + n := '\0'], start, start + n + 1)
  }

  lemma {:induction false} SkipLeadingSuffix(s: string, delimiters: set<char>)
    ensures var t := SkipLeading(s, delimiters); s[|s| - |t|..] == t && (t != "" ==> t[0] !in delimiters)
  {
    if s != "" && s[0] in delimiters {
      SkipLeadingSuffix(s[1..], delimiters);
    }
  }

  /** Nothing at or behind `save` belongs to the token at `start`, or there is nothing left to cut. */
  predicate Behind(b: seq<char>, start: nat, save: nat)
    requires start <= |b| && save <= |b|
  {
    start + |CString(b, start)| < save || CString(b, save) == ""
  }

  /** A token of n characters, from its start to the end of the string or the delimiter that is overwritten. */
  function Cut(b: seq<char>, start: nat, n: nat): Called
    requires start <= |b| && n <= |CString(b, start)|
  {
    if n == |CString(b, start)| then Called(b, start, start + n)
    else Called(b[start + n := '\0'], start, start + n + 1)
  }

  lemma CutMeans(b: seq<char>, start: nat, n: nat)
    requires Terminated(b, start) && n <= |CString(b, start)|
    ensures var t, r := CString(b, start), Cut(b, start, n);
      && |r.buffer| == |b| && start <= r.save && Terminated(r.buffer, r.save) && Terminated(r.buffer, start)
      && CString(r.buffer, start) == t[..n]
      && CString(r.buffer, r.save) == (if n < |t| then t[n + 1..] else "")
      && Behind(r.buffer, start, r.save)
  {
    hide CString;
    var t := CString(b, start);
    CStringAt(b, start, n);
    if n < |t| {
      var c := b[start + n := '\0'];
      CStringAt(b, start, n + 1);
      CStringSame(b, c, start + n + 1);
      CutString(b, c, start, n);
    } else {
      assert t[..n] == t;
    }
  }

  /** The call returns the token and leaves the rest that the protocol's definition says, and writes at most
      one null character, behind the token. */
  lemma StrtokOnMeans(b: seq<char>, from: nat, delimiters: set<char>)
    requires Terminated(b, from)
    ensures var r := StrtokOn(b, from, delimiters);
      && |r.buffer| == |b| && from <= r.save && Terminated(r.buffer, r.save)
      && CString(r.buffer, r.save) == RestOf(Strtok(CString(b, from), delimiters))
      && match Strtok(CString(b, from), delimiters)
         case NoToken => r.start == -1 && r.buffer == b
         case Token(text, _) =>
           && from <= r.start && Terminated(r.buffer, r.start) && CString(r.buffer, r.start) == text
           && Behind(r.buffer, r.start, r.save)
  {
    hide CString;
    hide SkipLeading;
    hide Span;
    hide Behind;
    var s := CString(b, from);
    var t := SkipLeading(s, delimiters);
    var start := from + |s| - |t|;
    SkipLeadingSuffix(s, delimiters);
    CStringAt(b, from, |s| - |t|);
    assert CString(b, start) == t;
    if t != "" {
      CutMeans(b, start, Span(t, delimiters));
      assert StrtokOn(b, from, delimiters) == Cut(b, start, Span(t, delimiters));
    }
  }

  /** A call leaves alone what lies in front of the character it overwrites. */
  lemma StrtokOnWrites(b: seq<char>, from: nat, delimiters: set<char>)
    requires Terminated(b, from)
    ensures var r := StrtokOn(b, from, delimiters);
      && |r.buffer| == |b| && from <= r.save
      && (forall k :: 0 <= k < from ==> r.buffer[k] == b[k])
      && (CString(b, from) == "" ==> r == Called(b, -1, from))
      && (CString(b, from) != "" ==> r.save > from)
      && (r.start != -1 ==> r.start >= from)
      && (forall k :: 0 <= k < |b| && b[k] == '\0' ==> r.buffer[k] == '\0')
  {
    hide CString;
    SkipLeadingSuffix(CString(b, from), delimiters);
  }

  /** A token survives a later call. */
  lemma TokenKept(b: seq<char>, start: nat, save: nat, delimiters: set<char>)
    requires Terminated(b, start) && Terminated(b, save) && Behind(b, start, save)
    ensures var r := StrtokOn(b, save, delimiters);
      && |r.buffer| == |b| && Terminated(r.buffer, start) && CString(r.buffer, start) == CString(b, start)
      && r.save <= |b| && Behind(r.buffer, start, r.save)
  {
    StrtokOnWrites(b, save, delimiters);
    StrtokOnMeans(b, save, delimiters);
    if CString(b, save) != "" {
      CStringSame(b, StrtokOn(b, save, delimiters).buffer, start);
    }
  }

  /** Without delimiters the token is all that is left, and nothing is written. */
  lemma StrtokOnAll(b: seq<char>, from: nat)
    requires Terminated(b, from)
    ensures var s := CString(b, from);
      StrtokOn(b, from, {}) == Called(b, if s == "" then -1 else from, from + |s|)
    ensures Terminated(b, from + |CString(b, from)|) && CString(b, from + |CString(b, from)|) == ""
  {
    SpanWhole(CString(b, from));
    CStringAt(b, from, |CString(b, from)|);
  }

  function Show(b: seq<char>, start: int): Text
    requires start <= |b|
  {
    if start < 0 then Null else Text(CString(b, start))
  }

  /** Three calls in a row read the fields, and none of them spoils what an earlier one returned. */
  lemma ThreeCalls(b: seq<char>, from: nat)
    requires Terminated(b, from)
    ensures var r1 := StrtokOn(b, from, {'|'});
      && Terminated(r1.buffer, r1.save)
      && var r2 := StrtokOn(r1.buffer, r1.save, {'|'});
      && Terminated(r2.buffer, r2.save)
      && var r3 := StrtokOn(r2.buffer, r2.save, {});
      && r1.start <= |b| == |r3.buffer| && r2.start <= |b| && r3.start <= |b|
      && (Show(r3.buffer, r1.start), Show(r3.buffer, r2.start), Show(r3.buffer, r3.start)) == Fields(CString(b, from))
  {
    var r1 := StrtokOn(b, from, {'|'});
    StrtokOnMeans(b, from, {'|'});
    var r2 := StrtokOn(r1.buffer, r1.save, {'|'});
    StrtokOnMeans(r1.buffer, r1.save, {'|'});
    StrtokOnAll(r2.buffer, r2.save);
    StrtokOnMeans(r2.buffer, r2.save, {});
    if r1.start >= 0 {
      TokenKept(r1.buffer, r1.start, r1.save, {'|'});
    }
    hide StrtokOn;
  }

  // ---------------------------------------------------------- strtok in place

  /** strtok keeps one saved position for the whole process: a place in whatever buffer the last call cut. */
  class Process {
    var saved: array<char>
    var save: nat

    constructor (chars: array<char>)
      ensures saved == chars && save == 0
    {
      saved, save := chars, 0;
    }

    /** Past the delimiters in front of a token. */
    method SkipDelimiters(chars: array<char>, from: nat, delimiters: set<char>) returns (i: nat)
      requires Terminated(chars[..], from)
      ensures from <= i && Terminated(chars[..], i)
      ensures CString(chars[..], i) == SkipLeading(CString(chars[..], from), delimiters)
      ensures i - from == |CString(chars[..], from)| - |CString(chars[..], i)|
    {
      ghost var s := CString(chars[..], from);
      i := from;
      CStringAt(chars[..], from, 0);
      while chars[i] != '\0' && chars[i] in delimiters
        invariant from <= i <= from + |s| < chars.Length
        invariant CString(chars[..], i) == s[i - from..]
        invariant forall k :: 0 <= k < i - from ==> s[k] in delimiters
        decreases chars.Length - i
      {
        CStringAt(chars[..], from, i - from);
        CStringAt(chars[..], from, i - from + 1);
        i := i + 1;
      }
      CStringAt(chars[..], from, i - from);
      SkipAt(s, i - from, delimiters);
      SkipDone(s[i - from..], delimiters);
    }

    /** The end of the token that starts at `start`. */
    method FindEnd(chars: array<char>, start: nat, delimiters: set<char>) returns (i: nat)
      requires Terminated(chars[..], start)
      ensures start <= i < chars.Length && i - start == Span(CString(chars[..], start), delimiters)
      ensures chars[i] == '\0' <==> i - start == |CString(chars[..], start)|
    {
      ghost var s := CString(chars[..], start);
      i := start;
      CStringAt(chars[..], start, 0);
      while chars[i] != '\0' && chars[i] !in delimiters
        invariant start <= i <= start + |s| < chars.Length
        invariant forall k :: 0 <= k < i - start ==> s[k] !in delimiters
        decreases chars.Length - i
      {
        CStringAt(chars[..], start, i - start);
        i := i + 1;
      }
      CStringAt(chars[..], start, i - start);
      SpanAt(s, i - start, delimiters);
    }

    /** strtok on the string at a position of a buffer. */
    method Strtok(chars: array<char>, from: nat, delimiters: set<char>) returns (start: int)
      requires Terminated(chars[..], from)
      modifies this, chars
      ensures saved == chars
      ensures Called(chars[..], start, save) == StrtokOn(old(chars[..]), from, delimiters)
    {
      saved := chars;
      start := SkipDelimiters(chars, from, delimiters);
      CStringAt(chars[..], start, 0);
      if chars[start] == '\0' {
        save := start;
        return -1;
      }
      var i := FindEnd(chars, start, delimiters);
      if chars[i] == '\0' {
        save := i;
      } else {
        chars[i] := '\0';
        save := i + 1;
      }
    }

    /** strtok(NULL, ...): it goes on in whatever buffer was cut last. */
    method StrtokNext(delimiters: set<char>) returns (start: int)
      requires Terminated(saved[..], save)
      modifies this, saved
      ensures saved == old(saved)
      ensures Called(saved[..], start, save) == StrtokOn(old(saved[..]), old(save), delimiters)
    {
      start := Strtok(saved, save, delimiters);
    }

    /** The receiver's three calls on the text behind a tag, if nobody else calls in between. */
    method ParseForward(chars: array<char>, from: nat) returns (sender: int, timestamp: int, message: int)
      requires Terminated(chars[..], from)
      modifies this, chars
      ensures sender <= chars.Length && timestamp <= chars.Length && message <= chars.Length
      ensures (Show(chars[..], sender), Show(chars[..], timestamp), Show(chars[..], message)) ==
              Fields(CString(old(chars[..]), from))
    {
      ThreeCalls(chars[..], from);
      hide StrtokOn;
      hide Show;
      hide Fields;
      sender := Strtok(chars, from, {'|'});
      timestamp := StrtokNext({'|'});
      message := StrtokNext({});
    }
  }
}
