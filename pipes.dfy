/** The in-memory blocking pipe the dispatcher is tested against
    (`Pipe`, `BidirectionalPipe`, `bipipe`). A pipe is a FIFO list of chunks,
    each a written string or the `CLOSE` sentinel, plus a `closed` flag. The
    lock and the wake-up queue are left out: a read that would wait for another
    thread's write returns `Blocked` instead. */
module Pipes {
  import opened Strings

  /** One item of a pipe's buffer: the text of one `write`, or the `CLOSE` sentinel. */
  datatype Chunk = Text(text: string) | Close

  /** What a read hands back: a string, or no result yet because it would wait. */
  datatype ReadResult = Got(text: string) | Blocked

  datatype PipeState = PipeState(buffer: seq<Chunk>, closed: bool)

  /** The text a reader will see before the first `CLOSE`, chunk boundaries erased. */
  function Pending(buf: seq<Chunk>): string
  {
    if buf == [] then []
    else match buf[0]
      case Close => []
      case Text(t) => t + Pending(buf[1..])
  }

  /** The buffer from its first `CLOSE` on (empty when none is queued). */
  function FromClose(buf: seq<Chunk>): (r: seq<Chunk>)
    ensures r == [] || r[0] == Close
    ensures Close in buf <==> r != []
  {
    if buf == [] then []
    else if buf[0] == Close then buf
    else FromClose(buf[1..])
  }

  /** One chunk per string, in order. */
  function TextChunks(parts: seq<string>): seq<Chunk>
  {
    seq(|parts|, i requires 0 <= i < |parts| => Text(parts[i]))
  }

  // ---------------------------------------------------------------------------
  // readchar

  /** `readchar`: skip empty chunks; at `CLOSE` answer '' and leave it queued;
      otherwise take the first character and requeue the rest of its chunk. */
  function ReadCharStep(buf: seq<Chunk>): (ReadResult, seq<Chunk>)
  {
    if buf == [] then (Blocked, [])
    else match buf[0]
      case Close => (Got([]), buf)
      case Text(t) =>
        if t == [] then ReadCharStep(buf[1..])
        else (Got(t[..1]), if |t| > 1 then [Text(t[1..])] + buf[1..] else buf[1..])
  }

  /** `readchar` delivers the next pending character and the pending text shrinks by exactly it;
      with no pending text it answers '' if a `CLOSE` is queued and waits otherwise; the buffer
      from the first `CLOSE` on is never touched. */
  lemma {:induction false} ReadCharDelivers(buf: seq<Chunk>)
    ensures var (r, rest) := ReadCharStep(buf);
            && (Pending(buf) != [] ==> r == Got([Pending(buf)[0]]) && Pending(rest) == Pending(buf)[1..])
            && (Pending(buf) == [] ==> r == (if Close in buf then Got([]) else Blocked) && rest == FromClose(buf))
            && FromClose(rest) == FromClose(buf)
  {
    if buf == [] {
    } else if buf[0].Close? {
      assert Close in buf;
    } else if buf[0].text == [] {
      ReadCharSkipsEmpty(buf);
      ReadCharDelivers(buf[1..]);
    } else {
      ReadCharFromText(buf);
    }
  }

  /** An empty text chunk at the front is skipped and changes nothing a reader can see. */
  lemma ReadCharSkipsEmpty(buf: seq<Chunk>)
    requires buf != [] && buf[0] == Text([])
    ensures ReadCharStep(buf) == ReadCharStep(buf[1..])
    ensures Pending(buf) == Pending(buf[1..]) && FromClose(buf) == FromClose(buf[1..])
    ensures Close in buf <==> Close in buf[1..]
  {
    assert buf == [buf[0]] + buf[1..];
  }

  /** `readchar` on a buffer whose first chunk is non-empty text. */
  lemma ReadCharFromText(buf: seq<Chunk>)
    requires buf != [] && buf[0].Text? && buf[0].text != []
    ensures var (r, rest) := ReadCharStep(buf);
            && Pending(buf) != []
            && r == Got([Pending(buf)[0]])
            && Pending(rest) == Pending(buf)[1..]
            && FromClose(rest) == FromClose(buf)
  {
    var t := buf[0].text;
    var tail := buf[1..];
    assert Pending(buf) == t + Pending(tail);
    DropFirst(t, Pending(tail));
    if |t| > 1 {
      var rest := [Text(t[1..])] + tail;
      assert rest[0] == Text(t[1..]) && rest[1..] == tail;
      assert Pending(rest) == t[1..] + Pending(tail);
    } else {
      assert t[1..] == [];
    }
  }

  lemma DropFirst(a: string, b: string)
    requires a != []
    ensures (a + b)[0] == a[0] && (a + b)[1..] == a[1..] + b && a[..1] == [a[0]]
  {
  }

  /** After `readchar` answers '' (a `CLOSE` is at the front) every further `readchar` answers ''
      and changes nothing. */
  lemma {:induction false} ReadCharAtCloseRepeats(buf: seq<Chunk>)
    requires ReadCharStep(buf).0 == Got([])
    ensures ReadCharStep(ReadCharStep(buf).1) == ReadCharStep(buf)
  {
    if buf != [] && buf[0].Text? {
      ReadCharAtCloseRepeats(buf[1..]);
    }
  }

  /** What `readchar` returns does not depend on writes made after it returned. */
  lemma {:induction false} ReadCharIgnoresLaterWrites(buf: seq<Chunk>, more: seq<Chunk>)
    requires ReadCharStep(buf).0.Got?
    ensures ReadCharStep(buf + more) == (ReadCharStep(buf).0, ReadCharStep(buf).1 + more)
  {
    assert buf != [];
    assert (buf + more)[1..] == buf[1..] + more;
    if buf[0].Text? {
      var t := buf[0].text;
      if t == [] {
        ReadCharIgnoresLaterWrites(buf[1..], more);
      } else if |t| > 1 {
        assert [Text(t[1..])] + (buf[1..] + more) == ([Text(t[1..])] + buf[1..]) + more;
      }
    }
  }

  // ---------------------------------------------------------------------------
  // readline

  /** The outcome of gathering one line: none yet, or its text, the buffer left behind and
      whether a `CLOSE` ended it. */
  datatype LineRead = NoLine | Line(text: string, rest: seq<Chunk>, closes: bool)

  function Prepend(s: string, r: LineRead): LineRead
  {
    match r
    case NoLine => NoLine
    case Line(l, rest, c) => Line(s + l, rest, c)
  }

  /** `_read_line_parts` run to completion: pop chunks, joining text, until a chunk holds a '\n'
      (its remainder goes back to the front) or `CLOSE` is popped. */
  function LineFrom(buf: seq<Chunk>): LineRead
  {
    if buf == [] then NoLine
    else match buf[0]
      case Close => Line([], buf[1..], true)
      case Text(t) =>
        var p := Partition(t, '\n');
        if p.sep != [] then Line(p.before + "\n", [Text(p.after)] + buf[1..], false)
        else Prepend(t, LineFrom(buf[1..]))
  }

  lemma PrependTwice(a: string, b: string, r: LineRead)
    ensures Prepend(a, Prepend(b, r)) == Prepend(a + b, r)
  {
    if r.Line? {
      assert a + (b + r.text) == (a + b) + r.text;
    }
  }

  lemma TextChunksSnoc(parts: seq<string>, x: string)
    ensures TextChunks(parts + [x]) == TextChunks(parts) + [Text(x)]
  {
  }

  /** One popped `CLOSE` ends the line gathered so far. */
  lemma PartsClose(start: seq<Chunk>, parts: seq<string>, tail: seq<Chunk>)
    requires LineFrom(start) == Prepend(Concat(parts), LineFrom([Chunk.Close] + tail))
    ensures LineFrom(start) == Line(Concat(parts) + [], tail, true)
  {
    assert ([Chunk.Close] + tail)[1..] == tail;
    assert Concat(parts) + [] == Concat(parts);
  }

  /** One popped text chunk either ends the line at its first '\n' or joins the parts. */
  lemma PartsText(parts: seq<string>, t: string, tail: seq<Chunk>)
    ensures var p := Partition(t, '\n');
            var r := Prepend(Concat(parts), LineFrom([Text(t)] + tail));
            if p.sep != [] then r == Line(Concat(parts + [p.before]) + "\n", [Text(p.after)] + tail, false)
            else p.before == t && r == Prepend(Concat(parts + [t]), LineFrom(tail))
  {
    var p := Partition(t, '\n');
    ConcatSnoc(parts, p.before);
    if p.sep != [] {
      NewlineChunk(t, tail);
      StringsAssoc(Concat(parts), p.before, "\n");
    } else {
      JoinChunk(t, tail);
      PrependTwice(Concat(parts), t, LineFrom(tail));
    }
  }

  /** A text chunk holding a '\n' ends the line there and requeues what follows it. */
  lemma NewlineChunk(t: string, tail: seq<Chunk>)
    requires Partition(t, '\n').sep != []
    ensures var p := Partition(t, '\n');
            LineFrom([Text(t)] + tail) == Line(p.before + "\n", [Text(p.after)] + tail, false)
  {
    var buf := [Text(t)] + tail;
    assert buf[0] == Text(t) && buf[1..] == tail;
  }

  /** A text chunk without '\n' is joined, whole, to whatever line follows it. */
  lemma JoinChunk(t: string, tail: seq<Chunk>)
    requires Partition(t, '\n').sep == []
    ensures Partition(t, '\n').before == t
    ensures LineFrom([Text(t)] + tail) == Prepend(t, LineFrom(tail))
  {
    var p := Partition(t, '\n');
    assert p.before + p.sep + p.after == p.before;
    var buf := [Text(t)] + tail;
    assert buf[0] == Text(t) && buf[1..] == tail;
  }

  lemma StringsAssoc(a: string, b: string, c: string)
    ensures a + (b + c) == (a + b) + c
  {
  }

  lemma ChunksAssoc(front: seq<Chunk>, c: Chunk, tail: seq<Chunk>)
    ensures front + ([c] + tail) == (front + [c]) + tail
  {
  }

  /** `readline` on a whole pipe state: a line, or `Blocked` with nothing changed. */
  function ReadLineStep(p: PipeState): (ReadResult, PipeState)
  {
    match LineFrom(p.buffer)
    case NoLine => (Blocked, p)
    case Line(l, rest, c) => (Got(l), PipeState(rest, p.closed || c))
  }

  /** A `Text` chunk at the front contributes its whole text to the pending text. */
  lemma PendingFront(t: string, buf: seq<Chunk>)
    ensures Pending([Text(t)] + buf) == t + Pending(buf)
  {
    assert ([Text(t)] + buf)[1..] == buf;
  }

  /** `readline` has no result exactly when the pending text holds no '\n' and no `CLOSE` is queued. */
  lemma {:induction false} LineFromNone(buf: seq<Chunk>)
    ensures LineFrom(buf).NoLine? <==> '\n' !in Pending(buf) && Close !in buf
  {
    if buf != [] && buf[0].Text? {
      var t := buf[0].text;
      var p := Partition(t, '\n');
      assert buf == [buf[0]] + buf[1..];
      PendingFront(t, buf[1..]);
      if p.sep != [] {
        assert t[|p.before|] == '\n';
        assert Pending(buf)[|p.before|] == '\n';
      } else {
        LineFromNone(buf[1..]);
      }
    }
  }

  /** When `CLOSE` ends the line, `readline` returns all the pending text, without a terminator,
      and leaves what followed the `CLOSE`. */
  lemma {:induction false} LineFromClosing(buf: seq<Chunk>)
    requires LineFrom(buf).Line? && LineFrom(buf).closes
    ensures Close in buf
    ensures LineFrom(buf).text == Pending(buf)
    ensures LineFrom(buf).rest == FromClose(buf)[1..]
  {
    if buf[0].Text? {
      assert buf == [buf[0]] + buf[1..];
      PendingFront(buf[0].text, buf[1..]);
      LineFromClosing(buf[1..]);
    }
  }

  /** Otherwise `readline` returns the pending text up to and including its first '\n', and the
      rest stays pending in front of the same `CLOSE`. */
  lemma {:induction false} LineFromNewline(buf: seq<Chunk>)
    requires LineFrom(buf).Line? && !LineFrom(buf).closes
    ensures var l := LineFrom(buf).text;
            && |l| > 0 && l[|l| - 1] == '\n' && '\n' !in l[..|l| - 1]
            && l + Pending(LineFrom(buf).rest) == Pending(buf)
            && FromClose(LineFrom(buf).rest) == FromClose(buf)
  {
    var t := buf[0].text;
    var p := Partition(t, '\n');
    if p.sep != [] {
      LineSplitsHere(t, buf[1..]);
      assert buf == [Text(t)] + buf[1..];
    } else {
      var tail := buf[1..];
      assert LineFrom(buf) == Prepend(t, LineFrom(tail));
      LineFromNewline(tail);
      LineGrows(t, LineFrom(tail).text, Pending(LineFrom(tail).rest), Pending(tail));
      assert buf == [Text(t)] + tail;
      PendingFront(t, tail);
    }
  }

  lemma LineSplitsHere(t: string, tail: seq<Chunk>)
    requires Partition(t, '\n').sep != []
    ensures var p := Partition(t, '\n');
            var l := p.before + "\n";
            var rest := [Text(p.after)] + tail;
            && LineFrom([Text(t)] + tail) == Line(l, rest, false)
            && |l| > 0 && l[|l| - 1] == '\n' && '\n' !in l[..|l| - 1]
            && l + Pending(rest) == Pending([Text(t)] + tail)
            && FromClose(rest) == FromClose([Text(t)] + tail)
  {
    var p := Partition(t, '\n');
    var l := p.before + "\n";
    assert ([Text(t)] + tail)[1..] == tail;
    assert ([Text(p.after)] + tail)[1..] == tail;
    assert l[..|l| - 1] == p.before;
    PendingAfterSplit(t, tail);
  }

  /** A chunk whose first '\n' is at index `i` yields the line up to it and requeues the rest. */
  lemma LineAt(t: string, tail: seq<Chunk>, i: nat)
    requires i < |t| && t[i] == '\n' && '\n' !in t[..i]
    ensures LineFrom([Text(t)] + tail) == Line(t[..i + 1], [Text(t[i + 1..])] + tail, false)
  {
    PartitionAt(t, '\n', i);
    assert ([Text(t)] + tail)[1..] == tail;
    assert t[..i] + "\n" == t[..i + 1];
  }

  /** `readline` on a pipe whose first chunk holds a '\n' at `i`: the line up to it, and the
      rest of the chunk stays queued. */
  lemma ReadLineAt(t: string, tail: seq<Chunk>, i: nat, closed: bool)
    requires i < |t| && t[i] == '\n' && '\n' !in t[..i]
    ensures ReadLineStep(PipeState([Text(t)] + tail, closed)) == (Got(t[..i + 1]), PipeState([Text(t[i + 1..])] + tail, closed))
  {
    LineAt(t, tail, i);
  }

  /** A chunk with no '\n' followed by `CLOSE` yields that chunk as the last line. */
  lemma LineAtClose(t: string, tail: seq<Chunk>)
    requires '\n' !in t
    ensures LineFrom([Text(t)] + [Chunk.Close] + tail) == Line(t, tail, true)
  {
    var buf := [Text(t)] + [Chunk.Close] + tail;
    assert buf[1..] == [Chunk.Close] + tail;
    assert buf[1..][1..] == tail;
  }

  lemma PendingAfterSplit(t: string, tail: seq<Chunk>)
    requires Partition(t, '\n').sep != []
    ensures var p := Partition(t, '\n');
            (p.before + "\n") + Pending([Text(p.after)] + tail) == Pending([Text(t)] + tail)
  {
    var p := Partition(t, '\n');
    PendingFront(t, tail);
    PendingFront(p.after, tail);
    calc {
      (p.before + "\n") + Pending([Text(p.after)] + tail);
      (p.before + "\n") + (p.after + Pending(tail));
      { assert t == (p.before + "\n") + p.after; }
      t + Pending(tail);
    }
  }

  /** Text without '\n' put in front of a line keeps its '\n' the last and only one. */
  lemma LineGrows(t: string, l: string, restText: string, tailText: string)
    requires '\n' !in t
    requires |l| > 0 && l[|l| - 1] == '\n' && '\n' !in l[..|l| - 1]
    requires l + restText == tailText
    ensures var l' := t + l;
            && |l'| > 0 && l'[|l'| - 1] == '\n' && '\n' !in l'[..|l'| - 1]
            && l' + restText == t + tailText
  {
    var l' := t + l;
    assert l'[..|l'| - 1] == t + l[..|l| - 1];
  }

  /** `readline` never returns a '\n' anywhere but as its last character. */
  lemma ReadLineNewlineOnlyLast(p: PipeState)
    ensures match ReadLineStep(p).0
            case Blocked => true
            case Got(l) => forall i :: 0 <= i < |l| - 1 ==> l[i] != '\n'
  {
    match LineFrom(p.buffer)
    case NoLine =>
    case Line(l, rest, c) =>
      if c {
        LineFromClosing(p.buffer);
        PendingNoNewlineBeforeClose(p.buffer);
      } else {
        LineFromNewline(p.buffer);
        forall i | 0 <= i < |l| - 1 ensures l[i] != '\n' {
          assert l[i] == l[..|l| - 1][i];
        }
      }
  }

  /** If `CLOSE` ends a line, the pending text held no '\n'. */
  lemma {:induction false} PendingNoNewlineBeforeClose(buf: seq<Chunk>)
    requires LineFrom(buf).Line? && LineFrom(buf).closes
    ensures '\n' !in Pending(buf)
  {
    if buf[0].Text? {
      assert buf == [buf[0]] + buf[1..];
      PendingFront(buf[0].text, buf[1..]);
      PendingNoNewlineBeforeClose(buf[1..]);
    }
  }

  /** What `readline` returns does not depend on writes made after it returned. */
  lemma {:induction false} LineFromIgnoresLaterWrites(buf: seq<Chunk>, more: seq<Chunk>)
    requires LineFrom(buf).Line?
    ensures LineFrom(buf + more) == LineFrom(buf).(rest := LineFrom(buf).rest + more)
  {
    assert buf != [];
    assert (buf + more)[1..] == buf[1..] + more;
    if buf[0].Text? {
      var p := Partition(buf[0].text, '\n');
      if p.sep != [] {
        assert [Text(p.after)] + (buf[1..] + more) == ([Text(p.after)] + buf[1..]) + more;
      } else {
        LineFromIgnoresLaterWrites(buf[1..], more);
      }
    }
  }

  // ---------------------------------------------------------------------------
  // the pipe object

  /** A blocking file-like object used for testing. */
  class Pipe {
    var buffer: seq<Chunk>
    var closed: bool

    constructor ()
      ensures buffer == [] && !closed
    {
      buffer := [];
      closed := false;
    }

    ghost function View(): PipeState
      reads this
    {
      PipeState(buffer, closed)
    }

    /** `write(text)`: append one chunk. */
    method Write(text: string)
      modifies this
      ensures buffer == old(buffer) + [Text(text)]
      ensures closed == old(closed)
    {
      buffer := buffer + [Text(text)];
    }

    /** `close()`: set `closed`, then queue the sentinel so a waiting reader wakes up. */
    method Close()
      modifies this
      ensures closed
      ensures buffer == old(buffer) + [Chunk.Close]
    {
      closed := true;
      buffer := buffer + [Chunk.Close];
    }

    /** `readchar()`. */
    method ReadChar() returns (r: ReadResult)
      modifies this
      ensures (r, buffer) == ReadCharStep(old(buffer))
      ensures closed == old(closed)
    {
      while true
        invariant ReadCharStep(buffer) == ReadCharStep(old(buffer))
        invariant closed == old(closed)
        decreases |buffer|
      {
        if buffer == [] {
          return Blocked;
        }
        if buffer[0] == Chunk.Close {
          return Got([]);
        }
        var part := buffer[0].text;
        buffer := buffer[1..];
        if |part| > 1 {
          buffer := [Text(part[1..])] + buffer;
        }
        if part != [] {
          return Got(part[..1]);
        }
      }
    }

    /** `_read_line_parts()`: the line's pieces and its terminator ("\n", or "" when `CLOSE` was
        popped), or no terminator when the buffer ran dry first. */
    method ReadLineParts() returns (parts: seq<string>, terminator: Option<string>)
      modifies this
      ensures terminator.None? ==> && LineFrom(old(buffer)) == NoLine
                                   && old(buffer) == TextChunks(parts) && buffer == []
                                   && closed == old(closed)
      ensures terminator.Some? ==> && LineFrom(old(buffer)) == Line(Concat(parts) + terminator.value, buffer, terminator.value == [])
                                   && closed == (old(closed) || terminator.value == [])
    {
      parts := [];
      ghost var start := buffer;
      while true
        invariant LineFrom(start) == Prepend(Concat(parts), LineFrom(buffer))
        invariant start == TextChunks(parts) + buffer
        invariant start == old(buffer) && closed == old(closed)
        decreases |buffer|
      {
        if buffer == [] {
          assert TextChunks(parts) + buffer == TextChunks(parts);
          return parts, None;
        }
        var part := buffer[0];
        ghost var tail := buffer[1..];
        assert buffer == [part] + tail;
        buffer := buffer[1..];
        if part == Chunk.Close {
          PartsClose(start, parts, tail);
          closed := true;
          return parts, Some([]);
        }
        var p := Partition(part.text, '\n');
        PartsText(parts, part.text, tail);
        TextChunksSnoc(parts, p.before);
        ChunksAssoc(TextChunks(parts), part, tail);
        parts := parts + [p.before];
        if p.sep != [] {
          buffer := [Text(p.after)] + buffer;
          return parts, Some("\n");
        }
      }
    }

    /** `readline()`: the next line with its '\n', or the text before `CLOSE` (popping it and
        setting `closed`). When the buffer runs dry first the source's reader keeps the popped
        pieces and waits; the model puts them back, so a later call after more writes returns
        the same line the waiting call would have. */
    method ReadLine() returns (r: ReadResult)
      modifies this
      ensures (r, View()) == ReadLineStep(old(View()))
    {
      var parts, terminator := ReadLineParts();
      if terminator.None? {
        buffer := TextChunks(parts);
        return Blocked;
      }
      r := Got(Concat(parts) + terminator.value);
    }
  }

  // ---------------------------------------------------------------------------
  // the two-way pipe

  /** The two directions of a duplex channel, as seen from one end. */
  datatype Duplex = Duplex(inbound: PipeState, outbound: PipeState)

  function WriteTo(d: Duplex, text: string): Duplex
  {
    d.(outbound := PipeState(d.outbound.buffer + [Text(text)], d.outbound.closed))
  }

  function ReadCharFrom(d: Duplex): (ReadResult, Duplex)
  {
    var (r, rest) := ReadCharStep(d.inbound.buffer);
    (r, d.(inbound := PipeState(rest, d.inbound.closed)))
  }

  function ReadLineFrom(d: Duplex): (ReadResult, Duplex)
  {
    var (r, p) := ReadLineStep(d.inbound);
    (r, d.(inbound := p))
  }

  /** Join two pipes into a bidirectional pipe: reads come from `incoming` (`pipe1`),
      writes and `close` go to `outgoing` (`pipe2`). */
  class BidirectionalPipe {
    const incoming: Pipe
    const outgoing: Pipe

    constructor (pipe1: Pipe, pipe2: Pipe)
      ensures incoming == pipe1 && outgoing == pipe2
    {
      incoming := pipe1;
      outgoing := pipe2;
    }

    ghost function View(): Duplex
      reads incoming, outgoing
    {
      Duplex(incoming.View(), outgoing.View())
    }

    method Write(text: string)
      modifies outgoing
      ensures outgoing.buffer == old(outgoing.buffer) + [Text(text)]
      ensures outgoing.closed == old(outgoing.closed)
      ensures incoming != outgoing ==> View() == WriteTo(old(View()), text)
    {
      outgoing.Write(text);
    }

    method Close()
      modifies outgoing
      ensures outgoing.closed
      ensures outgoing.buffer == old(outgoing.buffer) + [Chunk.Close]
    {
      outgoing.Close();
    }

    method ReadLine() returns (r: ReadResult)
      modifies incoming
      ensures (r, incoming.View()) == ReadLineStep(old(incoming.View()))
      ensures incoming != outgoing ==> (r, View()) == ReadLineFrom(old(View()))
    {
      r := incoming.ReadLine();
    }

    method ReadChar() returns (r: ReadResult)
      modifies incoming
      ensures (r, incoming.buffer) == ReadCharStep(old(incoming.buffer))
      ensures incoming.closed == old(incoming.closed)
      ensures incoming != outgoing ==> (r, View()) == ReadCharFrom(old(View()))
    {
      r := incoming.ReadChar();
    }
  }

  /** `bipipe()`: two fresh pipes wired crosswise, so each end reads what the other writes. */
  method BiPipe() returns (end1: BidirectionalPipe, end2: BidirectionalPipe)
    ensures fresh(end1) && fresh(end2) && fresh(end1.incoming) && fresh(end1.outgoing)
    ensures end1.incoming == end2.outgoing && end1.outgoing == end2.incoming
    ensures end1.incoming != end1.outgoing
    ensures end1.View() == Duplex(PipeState([], false), PipeState([], false))
  {
    var twin1 := new Pipe();
    var twin2 := new Pipe();
    end1 := new BidirectionalPipe(twin1, twin2);
    end2 := new BidirectionalPipe(twin2, twin1);
  }

  // ---------------------------------------------------------------------------
  // the module's own tests

  /** `test_readline`: after `write('one\ntwo\n')` and `close()`, `readline` gives 'one\n',
      'two\n', '' and then has no result. */
  method TestReadline() returns (first: ReadResult, second: ReadResult, third: ReadResult, fourth: ReadResult)
    ensures first == Got("one\n") && second == Got("two\n") && third == Got("") && fourth == Blocked
  {
    var pipe := new Pipe();
    pipe.Write("one\ntwo\n");
    pipe.Close();
    ReadlineFirst();
    ReadlineSecond();
    ReadlineLast();
    first := pipe.ReadLine();
    second := pipe.ReadLine();
    third := pipe.ReadLine();
    fourth := pipe.ReadLine();
  }

  /** The pipe states `test_readline` passes through, one `readline` at a time. */
  lemma ReadlineFirst()
    ensures ReadLineStep(PipeState([Text("one\ntwo\n"), Chunk.Close], true)) == (Got("one\n"), PipeState([Text("two\n"), Chunk.Close], true))
  {
    var sent := "one\ntwo\n";
    assert sent[..3] == "one";
    ReadLineAt(sent, [Chunk.Close], 3, true);
    assert sent[..4] == "one\n" && sent[4..] == "two\n";
    assert [Text(sent), Chunk.Close] == [Text(sent)] + [Chunk.Close];
    assert [Text("two\n"), Chunk.Close] == [Text("two\n")] + [Chunk.Close];
  }

  lemma ReadlineSecond()
    ensures ReadLineStep(PipeState([Text("two\n"), Chunk.Close], true)) == (Got("two\n"), PipeState([Text(""), Chunk.Close], true))
  {
    var sent := "two\n";
    assert sent[..3] == "two";
    ReadLineAt(sent, [Chunk.Close], 3, true);
    assert sent[..4] == sent && sent[4..] == "";
    assert [Text(sent), Chunk.Close] == [Text(sent)] + [Chunk.Close];
    assert [Text(""), Chunk.Close] == [Text("")] + [Chunk.Close];
  }

  lemma ReadlineLast()
    ensures ReadLineStep(PipeState([Text(""), Chunk.Close], true)) == (Got(""), PipeState([], true))
    ensures ReadLineStep(PipeState([], true)) == (Blocked, PipeState([], true))
  {
    LineAtClose("", []);
    assert [Text(""), Chunk.Close] == [Text("")] + [Chunk.Close] + [];
  }

  /** `test_readchar`: characters come out in write order across chunks. */
  method TestReadchar() returns (c1: ReadResult, c2: ReadResult, c3: ReadResult, c4: ReadResult)
    ensures c1 == Got("1") && c2 == Got("2") && c3 == Got("3") && c4 == Got("4")
  {
    var pipe := new Pipe();
    pipe.Write("12");
    c1 := pipe.ReadChar();
    c2 := pipe.ReadChar();
    pipe.Write("3");
    pipe.Write("4");
    c3 := pipe.ReadChar();
    c4 := pipe.ReadChar();
  }

  /** A single written line is read back whole, leaving the empty remainder of its chunk. */
  lemma OneLine(text: string, closed: bool)
    requires '\n' !in text
    ensures ReadLineStep(PipeState([Text(text + "\n")], closed)) == (Got(text + "\n"), PipeState([Text("")], closed))
  {
    var sent := text + "\n";
    assert sent[..|text|] == text && sent[..|text| + 1] == sent && sent[|text| + 1..] == [];
    LineAt(sent, [], |text|);
    assert [Text(sent)] + [] == [Text(sent)];
    assert [Text(sent[|text| + 1..])] + [] == [Text("")];
    assert LineFrom([Text(sent)]) == Line(sent, [Text("")], false);
  }

  /** The two ends of a `bipipe` are crossed: a line written at one end is the line read at the
      other, in both directions, and closing one end is end-of-file at the other. */
  method CrossedEnds(text: string, reply: string) returns (line: ReadResult, key: ReadResult, eof: ReadResult)
    requires '\n' !in text && reply != []
    ensures line == Got(text + "\n")
    ensures key == Got(reply[..1])
    ensures eof == Got([])
  {
    var end1, end2 := BiPipe();
    end1.Write(text + "\n");
    OneLine(text, false);
    line := end2.ReadLine();
    end2.Write(reply);
    key := end1.ReadChar();
    end1.Close();
    ReadlineLast();
    eof := end2.ReadLine();
  }
}
