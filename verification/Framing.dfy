/** `parse_data`: newline-delimited lines out of a byte stream that arrives in arbitrary pieces. */
module Framing {
  import opened Common

  type Bytes = seq<char>

  /** The position of the first newline, or the length if there is none. */
  function LineEnd(s: Bytes): (n: nat)
    ensures n <= |s| && '\n' !in s[..n]
    ensures n < |s| ==> s[n] == '\n'
  {
    if s == [] || s[0] == '\n' then 0 else 1 + LineEnd(s[1..])
  }

  /** Trailing newlines and carriage returns are dropped. */
  function Trim(s: Bytes): Bytes {
    if s != [] && (s[|s| - 1] == '\n' || s[|s| - 1] == '\r') then Trim(s[..|s| - 1]) else s
  }

  /** What trimming must give: a prefix that drops only newlines and carriage returns, and ends in neither. */
  predicate IsTrimmed(t: Bytes, s: Bytes) {
    && t <= s
    && (forall i :: |t| <= i < |s| ==> s[i] == '\n' || s[i] == '\r')
    && (t == [] || (t[|t| - 1] != '\n' && t[|t| - 1] != '\r'))
  }

  /** `Trim` gives that, and nothing else does. */
  lemma {:induction false} TrimIff(s: Bytes, t: Bytes)
    ensures Trim(s) == t <==> IsTrimmed(t, s)
    decreases |s|
  {
    if s != [] && (s[|s| - 1] == '\n' || s[|s| - 1] == '\r') {
      var before := s[..|s| - 1];
      TrimIff(before, t);
      assert s == before + [s[|s| - 1]];
      assert IsTrimmed(t, s) <==> IsTrimmed(t, before) by {
        if IsTrimmed(t, s) {
          assert |t| == |s| ==> t == s;
          assert t == s[..|t|];
        }
      }
    } else if IsTrimmed(t, s) {
      assert |t| == |s|;
    }
  }

  function Flatten(chunks: seq<Bytes>): Bytes {
    if chunks == [] then [] else chunks[0] + Flatten(chunks[1..])
  }

  /** The complete lines of a whole stream, trimmed. */
  function Lines(s: Bytes): seq<Bytes>
    decreases |s|
  {
    var n := LineEnd(s);
    if n == |s| then [] else [Trim(s[..n + 1])] + Lines(s[n + 1..])
  }

  /** What follows the last newline. */
  function Rest(s: Bytes): Bytes
    decreases |s|
  {
    var n := LineEnd(s);
    if n == |s| then s else Rest(s[n + 1..])
  }

  /** The first newline of a stream is found as soon as the prefix that holds it has arrived. */
  lemma {:induction false} LineEndOfPrefix(s: Bytes, t: Bytes)
    requires LineEnd(s) < |s|
    ensures LineEnd(s + t) == LineEnd(s)
    decreases |s|
  {
    if s[0] != '\n' {
      assert (s + t)[1..] == s[1..] + t;
      LineEndOfPrefix(s[1..], t);
    }
  }

  lemma LinesBegin(s: Bytes)
    ensures if LineEnd(s) == |s| then Lines(s) == []
            else Lines(s) != [] && Lines(s)[0] == Trim(s[..LineEnd(s) + 1]) &&
                 Lines(s)[1..] == Lines(s[LineEnd(s) + 1..])
  {
  }

  class LineReader {
    /** The `streambuf` that persists between calls. */
    var buffer: Bytes
    /** The reads the socket will return, in order; after them the peer has closed. */
    var socket: seq<Bytes>
    /** All bytes that have not been returned yet, and the lines in them. */
    ghost var stream: Bytes
    ghost var lines: seq<Bytes>

    ghost predicate Buffered()
      reads this
    {
      stream == buffer + Flatten(socket)
    }

    ghost predicate Valid()
      reads this
    {
      Buffered() && lines == Lines(stream)
    }

    constructor (socket: seq<Bytes>)
      ensures Valid() && stream == Flatten(socket) && lines == Lines(Flatten(socket))
    {
      this.socket, buffer, stream, lines := socket, [], Flatten(socket), Lines(Flatten(socket));
    }

    /**
     `parse_data`. It returns the next line of the stream whatever pieces the stream arrives in, and
     consumes exactly that line; `None` is the end-of-file error, with no newline left anywhere.
     */
    method ParseData() returns (line: Option<Bytes>)
      requires Buffered()
      modifies this`buffer, this`socket, this`stream
      ensures Buffered()
      ensures var n := LineEnd(old(stream));
        if n < |old(stream)|
        then line == Some(Trim(old(stream)[..n + 1])) && stream == old(stream)[n + 1..]
        else line == None && stream == old(stream)
      ensures line.Some? ==> IsTrimmed(line.value, old(stream)[..LineEnd(old(stream)) + 1])
    {
      while LineEnd(buffer) == |buffer| && socket != []
        invariant Buffered() && stream == old(stream)
        decreases |socket|
      {
        assert buffer + Flatten(socket) == (buffer + socket[0]) + Flatten(socket[1..]);
        buffer, socket := buffer + socket[0], socket[1..];
      }
      if LineEnd(buffer) == |buffer| {
        assert stream == buffer;
        return None;
      }
      var bytesRead := LineEnd(buffer) + 1;
      LineEndOfPrefix(buffer, Flatten(socket));
      var data := buffer[..bytesRead];
      assert stream[..bytesRead] == data && stream[bytesRead..] == buffer[bytesRead..] + Flatten(socket);
      buffer, stream := buffer[bytesRead..], stream[bytesRead..];
      while data != [] && (data[|data| - 1] == '\n' || data[|data| - 1] == '\r')
        invariant Trim(data) == Trim(old(stream)[..bytesRead])
        decreases |data|
      {
        data := data[..|data| - 1];
      }
      TrimIff(old(stream)[..bytesRead], data);
      return Some(data);
    }

    /** `parse_data` again, in terms of the lines to come. */
    method NextLine() returns (line: Option<Bytes>)
      requires Valid()
      modifies this
      ensures Valid()
      ensures if old(lines) == [] then line == None && lines == []
              else line == Some(old(lines)[0]) && lines == old(lines)[1..]
    {
      LinesBegin(stream);
      line := ParseData();
      lines := if lines == [] then [] else lines[1..];
    }

    /** Reading to the end of the connection: the lines depend on the stream, not on the chunking. */
    method ReadAll() returns (all: seq<Bytes>)
      requires Buffered()
      modifies this`buffer, this`socket, this`stream
      ensures Buffered() && all == Lines(old(stream)) && stream == Rest(old(stream))
    {
      all := [];
      ghost var whole := stream;
      while true
        invariant Buffered() && Continues(whole, all, stream)
        decreases |stream|
      {
        ghost var left := stream;
        var line := ParseData();
        if line.None? {
          EndOfLines(whole, all, left);
          return;
        }
        OneMoreLine(whole, all, left);
        all := all + [line.value];
      }
    }
  }

  /** The lines of the stream are `lines` followed by those of what is left. */
  predicate Continues(stream: Bytes, lines: seq<Bytes>, left: Bytes) {
    Lines(stream) == lines + Lines(left) && Rest(stream) == Rest(left)
  }

  lemma OneMoreLine(stream: Bytes, lines: seq<Bytes>, left: Bytes)
    requires Continues(stream, lines, left) && LineEnd(left) < |left|
    ensures Continues(stream, lines + [Trim(left[..LineEnd(left) + 1])], left[LineEnd(left) + 1..])
  {
    var line, t := Trim(left[..LineEnd(left) + 1]), left[LineEnd(left) + 1..];
    assert lines + ([line] + Lines(t)) == (lines + [line]) + Lines(t);
  }

  lemma EndOfLines(stream: Bytes, lines: seq<Bytes>, left: Bytes)
    requires Continues(stream, lines, left) && LineEnd(left) == |left|
    ensures Lines(stream) == lines && Rest(stream) == left
  {
  }

  /** The pieces between newlines, untrimmed. */
  function Pieces(s: Bytes): seq<Bytes>
    decreases |s|
  {
    var n := LineEnd(s);
    if n == |s| then [] else [s[..n]] + Pieces(s[n + 1..])
  }

  lemma FrameCons(l: Bytes, lines: seq<Bytes>, rest: Bytes)
    ensures Framed([l] + lines) + rest == l + ['\n'] + (Framed(lines) + rest)
  {
    assert ([l] + lines)[1..] == lines;
  }

  /** Nothing is lost or made up: the pieces, a newline after each, and the rest are the stream. */
  lemma {:induction false} PiecesAreTheStream(s: Bytes)
    ensures Framed(Pieces(s)) + Rest(s) == s
    decreases |s|
  {
    var n := LineEnd(s);
    if n < |s| {
      var t := s[n + 1..];
      PiecesAreTheStream(t);
      FrameCons(s[..n], Pieces(t), Rest(t));
      SplitAt(s, n);
    }
  }

  lemma SplitAt(s: Bytes, n: nat)
    requires n < |s| && s[n] == '\n'
    ensures s[..n] + ['\n'] + s[n + 1..] == s
  {
  }

  predicate TrimmedPieces(lines: seq<Bytes>, pieces: seq<Bytes>) {
    |lines| == |pieces| &&
    forall k :: 0 <= k < |pieces| ==> '\n' !in pieces[k] && IsTrimmed(lines[k], pieces[k])
  }

  lemma TrimmedCons(line: Bytes, lines: seq<Bytes>, piece: Bytes, pieces: seq<Bytes>)
    requires TrimmedPieces(lines, pieces) && '\n' !in piece && IsTrimmed(line, piece)
    ensures TrimmedPieces([line] + lines, [piece] + pieces)
  {
  }

  /** The lines are the pieces, trimmed, and no newline is left inside a piece or in the rest. */
  lemma {:induction false} LinesAreTrimmedPieces(s: Bytes)
    ensures '\n' !in Rest(s) && TrimmedPieces(Lines(s), Pieces(s))
    decreases |s|
  {
    var n := LineEnd(s);
    if n < |s| {
      var t := s[n + 1..];
      LinesAreTrimmedPieces(t);
      assert s[..n + 1] == s[..n] + ['\n'];
      TrimIff(s[..n + 1], Trim(s[..n + 1]));
      TrimmedCons(Trim(s[..n + 1]), Lines(t), s[..n], Pieces(t));
    }
  }

  /** A terminated line is read apart from what follows it. */
  lemma LinesOfLine(l: Bytes, s: Bytes)
    requires '\n' !in l
    ensures Lines(l + ['\n'] + s) == [Trim(l + ['\n'])] + Lines(s)
    ensures Rest(l + ['\n'] + s) == Rest(s)
  {
    LineEndOfLine(l, s);
    assert (l + ['\n'] + s)[..|l| + 1] == l + ['\n'];
    assert (l + ['\n'] + s)[|l| + 1..] == s;
  }

  lemma {:induction false} LineEndOfLine(l: Bytes, s: Bytes)
    requires '\n' !in l
    ensures LineEnd(l + ['\n'] + s) == |l|
    decreases |l|
  {
    if l == [] {
      assert l + ['\n'] + s == ['\n'] + s;
    } else {
      assert (l + ['\n'] + s)[1..] == l[1..] + ['\n'] + s;
      LineEndOfLine(l[1..], s);
    }
  }

  /** Writing lines: a newline ends each. */
  function Framed(lines: seq<Bytes>): Bytes {
    if lines == [] then [] else lines[0] + ['\n'] + Framed(lines[1..])
  }

  predicate Sendable(l: Bytes) {
    '\n' !in l && (l == [] || l[|l| - 1] != '\r')
  }

  lemma SendableIsKept(l: Bytes)
    requires Sendable(l)
    ensures Trim(l + ['\n']) == l
  {
    assert (l + ['\n'])[..|l|] == l;
  }

  /** Round trip: newline-free lines that do not end in CR come back as they were. */
  lemma {:induction false} FrameThenLines(lines: seq<Bytes>, rest: Bytes)
    requires forall l :: l in lines ==> Sendable(l)
    requires '\n' !in rest
    ensures Lines(Framed(lines) + rest) == lines && Rest(Framed(lines) + rest) == rest
    decreases |lines|
  {
    if lines == [] {
      assert Framed(lines) + rest == rest;
    } else {
      var l := lines[0];
      assert l in lines;
      FrameThenLines(lines[1..], rest);
      assert Framed(lines) + rest == l + ['\n'] + (Framed(lines[1..]) + rest);
      LinesOfLine(l, Framed(lines[1..]) + rest);
      SendableIsKept(l);
    }
  }

  /** A line survives the trip exactly when it has no newline and does not end in CR. */
  lemma RoundTripIffSendable(l: Bytes)
    ensures Lines(l + ['\n']) == [l] <==> Sendable(l)
  {
    if Sendable(l) {
      FrameThenLines([l], []);
      assert Framed([l]) + [] == l + ['\n'];
    } else if '\n' in l {
      var s := l + ['\n'];
      assert s[|l|] == '\n' && s[..|s|] == s;
      assert Lines(s) != [] by { LinesBegin(s); }
      FirstLineHasNoNewline(s);
    } else {
      LinesOfLine(l, []);
      assert l + ['\n'] + [] == l + ['\n'];
      TrimIff(l + ['\n'], l);
    }
  }

  lemma FirstLineHasNoNewline(s: Bytes)
    requires Lines(s) != []
    ensures '\n' !in Lines(s)[0]
  {
    var n := LineEnd(s);
    var line := Trim(s[..n + 1]);
    TrimIff(s[..n + 1], line);
    assert s[..n + 1] == s[..n] + ['\n'];
    assert line <= s[..n];
  }
}
