/**
 Cutting a byte stream into lines: the buffered reader, the bounded line assembly over it, and the tee that shows the
 passing lines to an observer. (server/sseforward.go readSSELine, server/live.go lineObserverReader)
 */
module SseReader {
  import opened Common

  type byte = b: int | 0 <= b < 256

  type Bytes = seq<byte>

  const NEWLINE: byte := 10

  const MAX_LINE: nat := 1024 * 1024
  const BUFFER: nat := 64 * 1024

  datatype ReadError = NoError | Eof | Canceled | Broken(message: string) | TooLarge

  /** What one read of the connection brings. */
  datatype Chunk = Chunk(data: Bytes, error: ReadError)

  // ---------- a stream as a whole ----------

  /** The bytes up to the first error, that chunk included. */
  function Content(chunks: seq<Chunk>): Bytes {
    if chunks == [] then []
    else chunks[0].data + if chunks[0].error == NoError then Content(chunks[1..]) else []
  }

  /** The first error; a stream that is used up is at its end. */
  function Ending(chunks: seq<Chunk>): (e: ReadError)
    ensures e != NoError
  {
    if chunks == [] then Eof else if chunks[0].error == NoError then Ending(chunks[1..]) else chunks[0].error
  }

  /** A read without an error brings something. */
  predicate Lively(chunks: seq<Chunk>) {
    forall c <- chunks :: c.error == NoError ==> c.data != []
  }

  // ---------- lines ----------

  /** The first line of `s`, its newline included, or all of `s` without one. */
  function LineOf(s: Bytes): (l: Bytes)
    ensures |l| <= |s| && s[..|l|] == l
    ensures NEWLINE !in s ==> l == s
    ensures NEWLINE in s ==> l != [] && l[|l| - 1] == NEWLINE && NEWLINE !in l[..|l| - 1]
  {
    if s == [] then []
    else if s[0] == NEWLINE then [NEWLINE]
    else
      var rest := LineOf(s[1..]);
      var l := [s[0]] + rest;
      assert s == [s[0]] + s[1..];
      assert rest != [] ==> l[..|l| - 1] == [s[0]] + rest[..|rest| - 1];
      l
  }

  /** The lines of `s` that are complete. */
  function Lines(s: Bytes): seq<Bytes> {
    if NEWLINE in s then [LineOf(s)] + Lines(s[|LineOf(s)|..]) else []
  }

  /** What follows the last newline. */
  function Rest(s: Bytes): (r: Bytes)
    ensures NEWLINE !in r
  {
    if NEWLINE in s then Rest(s[|LineOf(s)|..]) else s
  }

  function Joined(lines: seq<Bytes>): Bytes {
    if lines == [] then [] else lines[0] + Joined(lines[1..])
  }

  lemma LineCons(x: byte, s: Bytes)
    ensures LineOf([x] + s) == if x == NEWLINE then [x] else [x] + LineOf(s)
  {
    assert ([x] + s)[1..] == s;
  }

  lemma JoinedCons(l: Bytes, lines: seq<Bytes>)
    ensures Joined([l] + lines) == l + Joined(lines)
  {
    assert ([l] + lines)[1..] == lines;
  }

  /** Nothing is lost between the lines. */
  lemma {:induction false} LinesJoin(s: Bytes)
    ensures Joined(Lines(s)) + Rest(s) == s
  {
    hide LineOf, Joined;
    if NEWLINE in s {
      var l, after := LineOf(s), s[|LineOf(s)|..];
      LinesJoin(after);
      JoinedCons(l, Lines(after));
      assert l + Joined(Lines(after)) + Rest(after) == l + (Joined(Lines(after)) + Rest(after));
      assert l + after == s;
    } else {
      assert Joined([]) == [] by { NothingJoined(); }
    }
  }

  lemma NothingJoined()
    ensures Joined([]) == []
  {
  }

  lemma {:induction false} LineOfLonger(a: Bytes, b: Bytes)
    requires NEWLINE in a
    ensures LineOf(a + b) == LineOf(a) && (a + b)[|LineOf(a)|..] == a[|LineOf(a)|..] + b
  {
    hide LineOf;
    var x, t := a[0], a[1..];
    assert a == [x] + t && a + b == [x] + (t + b);
    LineCons(x, t);
    LineCons(x, t + b);
    if x != NEWLINE {
      LineOfLonger(t, b);
      RestAfter(x, t, b, LineOf(t));
    } else {
      RestAfter(x, t, b, []);
    }
  }

  lemma RestAfter(x: byte, t: Bytes, b: Bytes, l: Bytes)
    requires |l| <= |t|
    ensures ([x] + (t + b))[|[x] + l|..] == (t + b)[|l|..]
    ensures ([x] + t)[|[x] + l|..] == t[|l|..] && (t + b)[|l|..] == t[|l|..] + b
  {
  }

  /** A line without a newline goes on into what follows. */
  lemma {:induction false} LineGoesOn(a: Bytes, b: Bytes)
    requires NEWLINE !in a
    ensures LineOf(a + b) == a + LineOf(b)
  {
    hide LineOf;
    if a == [] {
      assert a + b == b && a + LineOf(b) == LineOf(b);
    } else {
      var x, t := a[0], a[1..];
      assert a == [x] + t;
      assert a + b == [x] + (t + b);
      LineCons(x, t + b);
      LineGoesOn(t, b);
    }
  }

  /** Lines do not depend on where the stream was cut: what is left of `a` starts the lines of what follows. */
  lemma {:induction false} LinesCut(a: Bytes, b: Bytes)
    ensures Lines(a + b) == Lines(a) + Lines(Rest(a) + b)
    ensures Rest(a + b) == Rest(Rest(a) + b)
  {
    if NEWLINE in a {
      LineOfLonger(a, b);
      LinesCut(a[|LineOf(a)|..], b);
    }
  }

  // ---------- the connection ----------

  class Connection {
    var chunks: seq<Chunk>

    constructor (chunks: seq<Chunk>)
      ensures this.chunks == chunks
    {
      this.chunks := chunks;
    }

    /** io.Reader.Read into `limit` bytes of space. */
    method Read(limit: nat) returns (data: Bytes, error: ReadError)
      requires Lively(chunks) && limit > 0
      modifies this
      ensures Lively(chunks) && |data| <= limit
      ensures error == NoError ==> data != []
      ensures data + (if error == NoError then Content(chunks) else []) == old(Content(chunks))
      ensures (if error == NoError then Ending(chunks) else error) == old(Ending(chunks))
    {
      if chunks == [] {
        return [], Eof;
      }
      var c := chunks[0];
      if |c.data| <= limit {
        assert c in chunks && forall x <- chunks[1..] :: x in chunks;
        chunks := chunks[1..];
        return c.data, c.error;
      }
      Shortened(chunks, limit);
      chunks := [Chunk(c.data[limit..], c.error)] + chunks[1..];
      return c.data[..limit], NoError;
    }
  }

  lemma Shortened(chunks: seq<Chunk>, n: nat)
    requires Lively(chunks) && chunks != [] && n < |chunks[0].data|
    ensures var left := [Chunk(chunks[0].data[n..], chunks[0].error)] + chunks[1..];
            Lively(left) && chunks[0].data[..n] + Content(left) == Content(chunks) && Ending(left) == Ending(chunks)
  {
    hide Lively;
    var c := chunks[0];
    var left := [Chunk(c.data[n..], c.error)] + chunks[1..];
    assert left[1..] == chunks[1..] && left[0] == Chunk(c.data[n..], c.error);
    assert c.data[..n] + c.data[n..] == c.data;
    ShortenedLively(chunks, n);
    ThreeBytes(c.data[..n], c.data[n..], if c.error == NoError then Content(chunks[1..]) else []);
  }

  lemma ThreeBytes(a: Bytes, b: Bytes, c: Bytes)
    ensures a + (b + c) == a + b + c
  {
  }

  lemma ShortenedLively(chunks: seq<Chunk>, n: nat)
    requires Lively(chunks) && chunks != [] && n < |chunks[0].data|
    ensures Lively([Chunk(chunks[0].data[n..], chunks[0].error)] + chunks[1..])
  {
    var left := [Chunk(chunks[0].data[n..], chunks[0].error)] + chunks[1..];
    forall x | x in left ensures x.error == NoError ==> x.data != [] {
      if x != left[0] { assert x in chunks[1..]; }
    }
  }

  // ---------- the buffered reader ----------

  datatype SliceError = SliceOk | BufferFull | SliceEnd(error: ReadError)

  /** bufio.Reader: what was read ahead and a pending error. */
  class BufReader {
    const source: Connection
    const size: nat
    var buffer: Bytes
    var error: ReadError

    ghost predicate Valid()
      reads this, source
    {
      size > 0 && |buffer| <= size && Lively(source.chunks)
    }

    /** Everything that is still to come. */
    ghost function Ahead(): Bytes
      reads this, source
    {
      buffer + if error == NoError then Content(source.chunks) else []
    }

    ghost function Last(): ReadError
      reads this, source
    {
      if error == NoError then Ending(source.chunks) else error
    }

    constructor (source: Connection, size: nat)
      requires size > 0 && Lively(source.chunks)
      ensures Valid() && this.source == source && this.size == size
      ensures Ahead() == Content(source.chunks) && Last() == Ending(source.chunks)
    {
      this.source, this.size, this.buffer, this.error := source, size, [], NoError;
    }

    method Fill()
      requires Valid() && |buffer| < size && error == NoError
      modifies this, source
      ensures Valid() && Ahead() == old(Ahead()) && Last() == old(Last())
      ensures old(buffer) <= buffer && (error == NoError ==> |buffer| > |old(buffer)|)
    {
      hide Content, Ending, Lively;
      var data, err := source.Read(size - |buffer|);
      assert (buffer + data) + (if err == NoError then Content(source.chunks) else [])
             == buffer + (data + if err == NoError then Content(source.chunks) else []);
      buffer := buffer + data;
      error := err;
    }

    /** ReadSlice('\n'): a line, or a full buffer without one, or what is left before the end. */
    method ReadSlice() returns (part: Bytes, status: SliceError)
      requires Valid()
      modifies this, source
      ensures Valid()
      ensures status.SliceOk? ==>
          part == LineOf(old(Ahead())) && NEWLINE in part && part + Ahead() == old(Ahead()) && Last() == old(Last())
      ensures status.BufferFull? ==>
          |part| == size && NEWLINE !in part && part + Ahead() == old(Ahead()) && Last() == old(Last())
      ensures status.SliceEnd? ==> part == old(Ahead()) && NEWLINE !in part && status.error == old(Last())
    {
      hide Content, Ending, LineOf;
      while true
        invariant Valid() && Ahead() == old(Ahead()) && Last() == old(Last())
        decreases error == NoError, size - |buffer|
      {
        var i := FindNewline(buffer);
        if i.Some? {
          ghost var tail := if error == NoError then Content(source.chunks) else [];
          part := buffer[..i.value + 1];
          SliceIsLine(buffer, tail, i.value);
          buffer := buffer[i.value + 1..];
          return part, SliceOk;
        }
        if error != NoError {
          part, status := buffer, SliceEnd(error);
          buffer, error := [], NoError;
          return;
        }
        if |buffer| >= size {
          part := buffer;
          buffer := [];
          return part, BufferFull;
        }
        Fill();
      }
      assert false;
    }
  }

  function FindNewline(s: Bytes): (r: Option<nat>)
    ensures r.None? <==> NEWLINE !in s
    ensures r.Some? ==> r.value < |s| && s[r.value] == NEWLINE && NEWLINE !in s[..r.value]
  {
    if s == [] then None
    else if s[0] == NEWLINE then Some(0)
    else
      var r := FindNewline(s[1..]);
      assert s == [s[0]] + s[1..];
      if r.None? then None
      else
        assert s[..r.value + 1] == [s[0]] + s[1..][..r.value];
        Some(r.value + 1)
  }

  lemma SliceIsLine(buffer: Bytes, tail: Bytes, i: nat)
    requires i < |buffer| && buffer[i] == NEWLINE && NEWLINE !in buffer[..i]
    ensures buffer[..i + 1] == LineOf(buffer + tail) && buffer[..i + 1] + (buffer[i + 1..] + tail) == buffer + tail
    ensures NEWLINE in buffer[..i + 1]
  {
    hide LineOf;
    var after := buffer[i + 1..] + tail;
    assert buffer + tail == buffer[..i] + ([NEWLINE] + after);
    LineGoesOn(buffer[..i], [NEWLINE] + after);
    LineCons(NEWLINE, after);
    assert buffer[..i + 1] == buffer[..i] + [NEWLINE];
  }

  /** readSSELine: the next line of the stream whatever the reads and the buffer, unless it is longer than `max`. */
  method ReadSSELine(reader: BufReader, max: nat) returns (line: Bytes, error: ReadError)
    requires reader.Valid()
    modifies reader, reader.source
    ensures reader.Valid()
    ensures var l := LineOf(old(reader.Ahead()));
            if |l| > max then line == [] && error == TooLarge
            else line == l && error == (if NEWLINE in l then NoError else old(reader.Last()))
    ensures error == NoError ==> line + reader.Ahead() == old(reader.Ahead()) && reader.Last() == old(reader.Last())
  {
    hide LineOf;
    line := [];
    ghost var all := reader.Ahead();
    NoneBefore(all);
    while true
      invariant reader.Valid() && NEWLINE !in line && |line| <= max
      invariant line + reader.Ahead() == all && reader.Last() == old(reader.Last())
      invariant LineOf(all) == line + LineOf(reader.Ahead())
      decreases max - |line|
    {
      ghost var ahead := reader.Ahead();
      var part, status := reader.ReadSlice();
      OnePart(all, line, ahead, part, status, reader.Ahead());
      if |line| + |part| > max {
        return [], TooLarge;
      }
      line := line + part;
      if status.BufferFull? {
        continue;
      }
      return line, if status.SliceOk? then NoError else status.error;
    }
    assert false;
  }

  lemma OnePart(all: Bytes, line: Bytes, ahead: Bytes, part: Bytes, status: SliceError, after: Bytes)
    requires line + ahead == all && LineOf(all) == line + LineOf(ahead) && NEWLINE !in line
    requires status.SliceOk? ==> part == LineOf(ahead) && NEWLINE in part && part + after == ahead
    requires status.BufferFull? ==> NEWLINE !in part && part + after == ahead
    requires status.SliceEnd? ==> part == ahead && NEWLINE !in part
    ensures |LineOf(all)| >= |line + part|
    ensures if status.BufferFull? then LineOf(all) == (line + part) + LineOf(after) && NEWLINE !in line + part
            else LineOf(all) == line + part && (NEWLINE in line + part <==> status.SliceOk?)
    ensures !status.SliceEnd? ==> (line + part) + after == all
  {
    hide LineOf;
    PartOfLine(ahead, part, status, after);
    if !status.SliceEnd? { assert (line + part) + after == line + (part + after); }
    if status.BufferFull? { assert (line + part) + LineOf(after) == line + (part + LineOf(after)); }
  }

  lemma NoneBefore(all: Bytes)
    ensures [] + all == all && [] + LineOf(all) == LineOf(all)
  {
  }

  lemma PartOfLine(ahead: Bytes, part: Bytes, status: SliceError, after: Bytes)
    requires status.SliceOk? ==> part == LineOf(ahead) && NEWLINE in part
    requires status.BufferFull? ==> NEWLINE !in part && part + after == ahead
    requires status.SliceEnd? ==> part == ahead && NEWLINE !in part
    ensures if status.BufferFull? then LineOf(ahead) == part + LineOf(after) else LineOf(ahead) == part
  {
    if status.BufferFull? { LineGoesOn(part, after); }
  }

  // ---------- the tee ----------

  /** lineObserverReader: passes reads through and shows every completed line to its callback, here `seen`. */
  class LineObserver {
    const source: Connection
    var buffer: Bytes
    var seen: seq<Bytes>
    ghost var passed: Bytes

    /** What was seen so far is exactly the complete lines of what was passed. */
    ghost predicate Valid()
      reads this
    {
      seen == Lines(passed) && buffer == Rest(passed)
    }

    constructor (source: Connection)
      ensures Valid() && this.source == source && seen == [] && passed == []
    {
      this.source, buffer, seen, passed := source, [], [], [];
    }

    method Read(limit: nat) returns (data: Bytes, error: ReadError)
      requires Valid() && Lively(source.chunks) && limit > 0
      modifies this, source
      ensures Valid() && Lively(source.chunks) && |data| <= limit
      ensures passed == old(passed) + data
      ensures data + (if error == NoError then Content(source.chunks) else []) == old(Content(source.chunks))
      ensures (if error == NoError then Ending(source.chunks) else error) == old(Ending(source.chunks))
    {
      hide Content, Ending, Lively, LineOf;
      data, error := source.Read(limit);
      if |data| == 0 {
        assert passed + data == passed;
        return;
      }
      ghost var whole := buffer + data;
      ghost var before, chunks := seen, source.chunks;
      buffer := buffer + data;
      while true
        invariant before + Lines(whole) == seen + Lines(buffer) && Rest(whole) == Rest(buffer)
        invariant passed == old(passed) && source.chunks == chunks
        decreases |buffer|
      {
        var i := FindNewline(buffer);
        if i.None? {
          break;
        }
        SliceIsLine(buffer, [], i.value);
        assert buffer + [] == buffer && buffer[i.value + 1..] + [] == buffer[i.value + 1..];
        OneLineLess(buffer, seen);
        seen := seen + [buffer[..i.value + 1]];
        buffer := buffer[i.value + 1..];
      }
      LinesCut(passed, data);
      passed := passed + data;
    }
  }

  lemma OneLineLess(s: Bytes, seen: seq<Bytes>)
    requires NEWLINE in s
    ensures seen + Lines(s) == seen + [LineOf(s)] + Lines(s[|LineOf(s)|..]) && Rest(s) == Rest(s[|LineOf(s)|..])
    ensures LineOf(s) != []
  {
  }
}
