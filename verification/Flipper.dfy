/** reverse_file of Lab 3: the file is read backwards in chunks, each chunk is reversed in a
    buffer, and the chunks are written one after the other. */
module Flipper {
  import opened Separated

  function Reverse<T>(s: seq<T>): (r: seq<T>)
    ensures |r| == |s|
  {
    if s == [] then [] else Reverse(s[1..]) + [s[0]]
  }

  lemma {:induction false} ReverseAt<T>(s: seq<T>, k: nat)
    requires k < |s|
    ensures Reverse(s)[k] == s[|s| - 1 - k]
  {
    if k < |s| - 1 {
      ReverseAt(s[1..], k);
    }
  }

  lemma {:induction false} ReverseAppend<T>(a: seq<T>, b: seq<T>)
    ensures Reverse(a + b) == Reverse(b) + Reverse(a)
  {
    if a == [] {
      assert a + b == b;
    } else {
      assert (a + b)[1..] == a[1..] + b;
      ReverseAppend(a[1..], b);
    }
  }

  /** The swap loop on the first n characters of the buffer. */
  method ReverseBuffer(buffer: array<char>, n: nat)
    requires n <= buffer.Length
    modifies buffer
    ensures buffer[..n] == Reverse(old(buffer[..n]))
    ensures buffer[n..] == old(buffer[n..])
  {
    for i := 0 to n / 2
      invariant forall k :: 0 <= k < i ==> buffer[k] == old(buffer[n - 1 - k]) && buffer[n - 1 - k] == old(buffer[k])
      invariant forall k :: i <= k < n - i ==> buffer[k] == old(buffer[k])
      invariant buffer[n..] == old(buffer[n..])
    {
      var temp := buffer[i];
      buffer[i] := buffer[n - 1 - i];
      buffer[n - 1 - i] := temp;
    }
    ghost var before := old(buffer[..n]);
    forall k | 0 <= k < n
      ensures buffer[..n][k] == Reverse(before)[k]
    {
      ReverseAt(before, k);
    }
  }

  /** The chunk size of the program is 1024. */
  method ReverseFile(src: seq<char>, chunk: nat) returns (dest: seq<char>)
    requires chunk > 0
    ensures dest == Reverse(src)
  {
    var buffer := new char[chunk];
    var pos := |src|;
    dest := [];
    assert src[pos..] == [];
    while pos > 0
      invariant pos <= |src|
      invariant dest == Reverse(src[pos..])
    {
      var readSize := if pos >= chunk then chunk else pos;
      pos := pos - readSize;
      forall i | 0 <= i < readSize {
        buffer[i] := src[pos + i];
      }
      assert buffer[..readSize] == src[pos..pos + readSize];
      ReverseBuffer(buffer, readSize);
      assert src[pos..] == src[pos..pos + readSize] + src[pos + readSize..];
      ReverseAppend(src[pos..pos + readSize], src[pos + readSize..]);
      dest := dest + buffer[..readSize];
    }
    assert src[0..] == src;
  }

  /** Flipping a flipped file gives the file back. */
  lemma {:induction false} ReverseTwice<T>(s: seq<T>)
    ensures Reverse(Reverse(s)) == s
  {
    if s != [] {
      ReverseAppend(Reverse(s[1..]), [s[0]]);
      ReverseTwice(s[1..]);
      assert Reverse([s[0]]) == [s[0]];
    }
  }

  // ------------------------------------------------------------------ lines

  function ReverseEach(lines: seq<string>): seq<string> {
    seq(|lines|, i requires 0 <= i < |lines| => Reverse(lines[i]))
  }

  /** The flipped file: its lines are the reversed lines, in reversed order. */
  lemma {:induction false} ReverseLines(lines: seq<string>)
    ensures Reverse(Join(lines, '\n')) == Join(Reverse(ReverseEach(lines)), '\n')
  {
    if |lines| == 1 {
      assert ReverseEach(lines) == [Reverse(lines[0])];
    } else if |lines| > 1 {
      ReverseAppend(lines[0] + "\n", Join(lines[1..], '\n'));
      ReverseAppend(lines[0], "\n");
      ReverseLines(lines[1..]);
      assert ReverseEach(lines)[1..] == ReverseEach(lines[1..]);
      JoinAppend(Reverse(ReverseEach(lines[1..])), Reverse(lines[0]), '\n');
      assert Reverse("\n") == "\n";
    }
  }

  lemma {:induction false} ReverseKeepsCharacters(s: string)
    ensures forall c :: c in Reverse(s) <==> c in s
  {
    if s != "" {
      ReverseKeepsCharacters(s[1..]);
      assert forall c :: c in s <==> c == s[0] || c in s[1..];
    }
  }

  /** Lab 3/README.md promises each line reversed in its place. The flipped file is that exactly
      when the list of lines reads the same from both ends. */
  lemma PerLineExactly(lines: seq<string>)
    requires lines != [] && FreeOf(lines, '\n')
    ensures Reverse(Join(lines, '\n')) == Join(ReverseEach(lines), '\n') <==> Reverse(lines) == lines
  {
    ReverseLines(lines);
    var each := ReverseEach(lines);
    forall i | 0 <= i < |lines|
      ensures '\n' !in each[i] && '\n' !in Reverse(each)[i] && Reverse(each)[i] == Reverse(Reverse(lines)[i])
    {
      ReverseAt(each, i);
      ReverseAt(lines, i);
      ReverseKeepsCharacters(lines[i]);
      ReverseKeepsCharacters(lines[|lines| - 1 - i]);
    }
    SplitJoin(each, '\n');
    SplitJoin(Reverse(each), '\n');
    if Reverse(each) == each {
      forall i | 0 <= i < |lines|
        ensures Reverse(lines)[i] == lines[i]
      {
        ReverseTwice(Reverse(lines)[i]);
        ReverseTwice(lines[i]);
      }
    }
  }

  /** A file of two lines for which the two differ. */
  lemma TwoLinesDiffer()
    ensures var lines := ["a", "b", ""];
      Join(lines, '\n') == "a\nb\n" && Reverse(Join(lines, '\n')) != Join(ReverseEach(lines), '\n')
  {
    var lines := ["a", "b", ""];
    assert lines[1..] == ["b", ""] && ["b", ""][1..] == [""];
    assert Join(["b", ""], '\n') == "b\n";
    hide Join;
    ReverseAt(lines, 0);
    PerLineExactly(lines);
  }
}
