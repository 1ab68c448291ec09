/** The Docker log stream (agent/inferenceinquire_agent/runtimes/docker.py, LogStream): the
    frames of the Docker Engine API, ContainerAttach, section "Stream format", read in pieces
    of any size and handed on line by line. */
module DockerLog {

  import opened Basics

  const NEWLINE: Byte := 10
  const CARRIAGE_RETURN: Byte := 13
  const HEADER := 8

  // ------------------------------------------------------------------ frames --

  datatype Frame = Frame(stream: Byte, payload: Bytes)

  function BigEndian(b: Bytes): nat {
    if b == [] then 0 else BigEndian(b[..|b| - 1]) * 256 + b[|b| - 1] as int
  }

  function SizeBytes(n: nat): Bytes
    requires n < 0x1_0000_0000
  {
    [(n / 0x100_0000) as Byte, (n / 0x1_0000 % 256) as Byte, (n / 256 % 256) as Byte, (n % 256) as Byte]
  }

  /** A frame as the Engine API writes it: stream type, three zero bytes, size, payload. */
  function EncodeFrame(f: Frame): Bytes
    requires |f.payload| < 0x1_0000_0000
  {
    [f.stream, 0, 0, 0] + SizeBytes(|f.payload|) + f.payload
  }

  predicate Encodable(frames: seq<Frame>) {
    forall i :: 0 <= i < |frames| ==> |frames[i].payload| < 0x1_0000_0000
  }

  function Encode(frames: seq<Frame>): Bytes
    requires Encodable(frames)
  {
    if frames == [] then [] else EncodeFrame(frames[0]) + Encode(frames[1..])
  }

  function Concat(chunks: seq<Bytes>): Bytes {
    if chunks == [] then [] else chunks[0] + Concat(chunks[1..])
  }

  /** The payloads a reader of the wire sees: it stops at a frame that is cut short, and at an
      empty one. */
  function Demux(wire: Bytes): (chunks: seq<Bytes>) {
    if |wire| < HEADER then []
    else
      var n := BigEndian(wire[4..HEADER]);
      if n == 0 || |wire| < HEADER + n then []
      else [wire[HEADER..HEADER + n]] + Demux(wire[HEADER + n..])
  }

  /** The payloads in front of the first empty frame. */
  function Delivered(frames: seq<Frame>): seq<Bytes> {
    if frames == [] || frames[0].payload == [] then []
    else [frames[0].payload] + Delivered(frames[1..])
  }

  predicate HasEmpty(frames: seq<Frame>) {
    frames != [] && (frames[0].payload == [] || HasEmpty(frames[1..]))
  }

  lemma SizeRoundTrip(n: nat)
    requires n < 0x1_0000_0000
    ensures BigEndian(SizeBytes(n)) == n
  {
    var b := SizeBytes(n);
    assert b[..3][..2][..1][..0] == [];
    assert BigEndian(b[..3][..2][..1]) == b[0] as int;
    assert BigEndian(b[..3][..2]) == b[0] as int * 256 + b[1] as int;
    assert BigEndian(b[..3]) == (b[0] as int * 256 + b[1] as int) * 256 + b[2] as int;
  }

  lemma DemuxFrame(f: Frame, rest: Bytes)
    requires |f.payload| < 0x1_0000_0000
    ensures Demux(EncodeFrame(f) + rest) == if f.payload == [] then [] else [f.payload] + Demux(rest)
  {
    var wire := EncodeFrame(f) + rest;
    SizeRoundTrip(|f.payload|);
    assert wire[4..HEADER] == SizeBytes(|f.payload|);
    assert wire[HEADER..HEADER + |f.payload|] == f.payload;
    assert wire[HEADER + |f.payload|..] == rest;
  }

  /** What a frame is, byte by byte: after the stream and three more bytes come four of size, the
      first of them counting most, and that many bytes of payload. */
  lemma FrameOnTheWire(head: Bytes, payload: Bytes, rest: Bytes)
    requires |head| == 8 && payload != []
    requires |payload| == head[4] as int * 0x100_0000 + head[5] as int * 0x1_0000 + head[6] as int * 0x100 + head[7] as int
    ensures Demux(head + payload + rest) == [payload] + Demux(rest)
  {
    var wire := head + payload + rest;
    var b := head[4..8];
    assert wire[4..HEADER] == b;
    assert b[..3][..2][..1][..0] == [];
    assert BigEndian(b[..3][..2][..1]) == b[0] as int;
    assert BigEndian(b[..3][..2]) == b[0] as int * 256 + b[1] as int;
    assert BigEndian(b[..3]) == (b[0] as int * 256 + b[1] as int) * 256 + b[2] as int;
    assert wire[HEADER..HEADER + |payload|] == payload && wire[HEADER + |payload|..] == rest;
  }

  /** Demultiplexing undoes framing, whatever follows on the wire: the payloads up to the first
      empty frame come out in order, and nothing after an empty frame does. */
  lemma {:induction false} DemuxInvertsEncode(frames: seq<Frame>, rest: Bytes)
    requires Encodable(frames)
    ensures Demux(Encode(frames) + rest)
         == Delivered(frames) + if HasEmpty(frames) then [] else Demux(rest)
    decreases |frames|
  {
    if frames == [] {
      assert Encode(frames) + rest == rest;
    } else {
      var f, tail := frames[0], frames[1..];
      assert Encode(frames) + rest == EncodeFrame(f) + (Encode(tail) + rest);
      DemuxFrame(f, Encode(tail) + rest);
      DemuxInvertsEncode(tail, rest);
    }
  }

  // ------------------------------------------------------------------- lines --

  function FirstNewline(b: Bytes): (i: nat)
    ensures i <= |b|
  {
    if b == [] || b[0] == NEWLINE then 0 else 1 + FirstNewline(b[1..])
  }

  lemma {:induction false} FirstNewlineIs(b: Bytes)
    ensures var i := FirstNewline(b);
            (forall k :: 0 <= k < i ==> b[k] != NEWLINE) && (i < |b| ==> b[i] == NEWLINE)
    decreases |b|
  {
    if b == [] || b[0] == NEWLINE {
    } else {
      FirstNewlineIs(b[1..]);
      var i := FirstNewline(b[1..]);
      forall k | 0 <= k < 1 + i ensures b[k] != NEWLINE {
        if k > 0 { assert b[k] == b[1..][k - 1]; }
      }
    }
  }

  /** It is the only place with that property. */
  lemma FirstNewlineUnique(b: Bytes, i: nat)
    requires i <= |b| && (forall k :: 0 <= k < i ==> b[k] != NEWLINE) && (i < |b| ==> b[i] == NEWLINE)
    ensures FirstNewline(b) == i
  {
    hide FirstNewline;
    FirstNewlineIs(b);
  }

  /** The newline-terminated lines of a byte string, without their newlines. */
  function Lines(b: Bytes): seq<Bytes>
    decreases |b|
  {
    var i := FirstNewline(b);
    if i == |b| then [] else [b[..i]] + Lines(b[i + 1..])
  }

  /** What follows the last newline. */
  function Rest(b: Bytes): Bytes
    decreases |b|
  {
    var i := FirstNewline(b);
    if i == |b| then b else Rest(b[i + 1..])
  }

  lemma FirstNewlineAppend(a: Bytes, b: Bytes)
    requires FirstNewline(a) < |a|
    ensures FirstNewline(a + b) == FirstNewline(a)
  {
    hide FirstNewline;
    var c, i := a + b, FirstNewline(a);
    FirstNewlineIs(a);
    assert c[i] == NEWLINE && forall k :: 0 <= k < i ==> c[k] == a[k];
    FirstNewlineUnique(c, i);
  }

  /** Cutting a byte string anywhere loses no line, provided the unfinished tail of the first
      part is put in front of the second. */
  lemma {:induction false} LinesAppend(a: Bytes, b: Bytes)
    ensures Lines(a + b) == Lines(a) + Lines(Rest(a) + b)
    ensures Rest(a + b) == Rest(Rest(a) + b)
    decreases |a|
  {
    var i := FirstNewline(a);
    if i == |a| {
      assert Lines(a) == [];
    } else {
      FirstNewlineAppend(a, b);
      assert (a + b)[..i] == a[..i];
      assert (a + b)[i + 1..] == a[i + 1..] + b;
      LinesAppend(a[i + 1..], b);
    }
  }

  /** The lines of a byte string are exactly what its newlines cut it into: joined again, each
      with its newline, and followed by the rest, they are that string. */
  function Join(lines: seq<Bytes>): Bytes {
    if lines == [] then [] else lines[0] + [NEWLINE] + Join(lines[1..])
  }

  /** Neither a newline inside a line nor one in the rest. */
  predicate NoNewline(b: Bytes) { FirstNewline(b) == |b| }

  lemma FirstLine(b: Bytes)
    requires !NoNewline(b)
    ensures var i := FirstNewline(b); i < |b| && Lines(b) == [b[..i]] + Lines(b[i + 1..]) && Rest(b) == Rest(b[i + 1..])
  {
    hide FirstNewline;
  }

  lemma NoneBefore(b: Bytes)
    ensures NoNewline(b[..FirstNewline(b)])
  {
    hide FirstNewline;
    var a := b[..FirstNewline(b)];
    FirstNewlineIs(b);
    assert forall k :: 0 <= k < |a| ==> a[k] == b[k];
    FirstNewlineUnique(a, |a|);
  }

  lemma NoLine(b: Bytes)
    requires NoNewline(b)
    ensures Lines(b) == [] && Rest(b) == b
  {
  }

  lemma JoinFirst(line: Bytes, more: seq<Bytes>)
    ensures Join([line] + more) == line + [NEWLINE] + Join(more)
  {
    assert ([line] + more)[1..] == more;
  }

  lemma {:induction false} LinesPartition(b: Bytes)
    ensures Join(Lines(b)) + Rest(b) == b && NoNewline(Rest(b))
    ensures forall k :: 0 <= k < |Lines(b)| ==> NoNewline(Lines(b)[k])
    decreases |b|
  {
    hide Lines, Rest, NoNewline, FirstNewline, Join;
    if NoNewline(b) {
      NoLine(b);
      JoinNone();
      assert [] + b == b;
    } else {
      var i := FirstNewline(b);
      NewlineAt(b);
      LinesPartition(b[i + 1..]);
      FirstLine(b);
      NoneBefore(b);
      JoinFirst(b[..i], Lines(b[i + 1..]));
      var joined, rest := Join(Lines(b[i + 1..])), Rest(b[i + 1..]);
      assert b[..i] + [NEWLINE] + joined + rest == b[..i] + [NEWLINE] + (joined + rest);
      assert b == b[..i] + [NEWLINE] + b[i + 1..];
    }
  }

  lemma JoinNone()
    ensures Join([]) == []
  {
  }

  lemma NewlineAt(b: Bytes)
    requires !NoNewline(b)
    ensures FirstNewline(b) < |b| && b[FirstNewline(b)] == NEWLINE
  {
    hide FirstNewline;
    FirstNewlineIs(b);
  }

  /** rstrip("\r"): every trailing carriage return goes. */
  function StripCr(b: Bytes): (r: Bytes)
    ensures r <= b && (r != [] ==> r[|r| - 1] != CARRIAGE_RETURN)
    ensures forall k :: |r| <= k < |b| ==> b[k] == CARRIAGE_RETURN
  {
    if b != [] && b[|b| - 1] == CARRIAGE_RETURN then StripCr(b[..|b| - 1]) else b
  }

  /** How a line of the API becomes one of the journal's: its stamp read, and the unit's name put in. */
  type Shape = Bytes -> Bytes

  function ShapeAll(shape: Shape, lines: seq<Bytes>): seq<Bytes> {
    seq(|lines|, i requires 0 <= i < |lines| => shape(StripCr(lines[i])))
  }

  lemma ShapeAllConcat(shape: Shape, a: seq<Bytes>, b: seq<Bytes>)
    ensures ShapeAll(shape, a + b) == ShapeAll(shape, a) + ShapeAll(shape, b)
  {
  }

  lemma OneLineTaken(raw: seq<Bytes>, rest: Bytes)
    requires !NoNewline(rest)
    ensures var i := FirstNewline(rest);
            i < |rest| && raw + [rest[..i]] + Lines(rest[i + 1..]) == raw + Lines(rest) && Rest(rest[i + 1..]) == Rest(rest)
  {
    hide *;
    NewlineAt(rest);
    FirstLine(rest);
    var i := FirstNewline(rest);
    var more := Lines(rest[i + 1..]);
    assert raw + [rest[..i]] + more == raw + ([rest[..i]] + more);
  }

  lemma OneLineShaped(shape: Shape, raw: seq<Bytes>, line: Bytes)
    ensures ShapeAll(shape, raw + [line]) == ShapeAll(shape, raw) + [shape(StripCr(line))]
  {
  }

  // ------------------------------------------------------------------ stream --

  /** The HTTP response: the bytes still to come, handed out in pieces nobody can predict. */
  class Response {
    var wire: Bytes

    constructor (wire: Bytes)
      ensures this.wire == wire
    {
      this.wire := wire;
    }

    /** At most n bytes, at least one unless the wire has ended. */
    method Read(n: nat) returns (chunk: Bytes)
      modifies this
      ensures chunk + wire == old(wire)
      ensures |chunk| <= n
      ensures chunk == [] <==> n == 0 || old(wire) == []
    {
      var k: nat :| k <= n && k <= |wire| && (k == 0 <==> n == 0 || wire == []);
      chunk := wire[..k];
      wire := wire[k..];
      assert chunk + wire == old(wire);
    }
  }

  class LogStream {
    const tty: bool
    const shape: Shape
    const resp: Response

    constructor (tty: bool, shape: Shape, resp: Response)
      ensures this.tty == tty && this.shape == shape && this.resp == resp
    {
      this.tty, this.shape, this.resp := tty, shape, resp;
    }

    /** Exactly n bytes, or None when the wire ends before them. */
    method ReadExactly(n: nat) returns (r: Option<Bytes>)
      modifies resp
      ensures n <= |old(resp.wire)| ==> r == Some(old(resp.wire)[..n]) && resp.wire == old(resp.wire)[n..]
      ensures |old(resp.wire)| < n ==> r == None && resp.wire == []
    {
      var out: Bytes := [];
      while |out| < n
        invariant |out| <= n
        invariant out + resp.wire == old(resp.wire)
      {
        var chunk := resp.Read(n - |out|);
        if chunk == [] {
          return None;
        }
        out := out + chunk;
      }
      assert out == old(resp.wire)[..n];
      r := Some(out);
    }

    /** What the stream carries, once framing is gone. */
    ghost function Carried(): Bytes
      reads this, resp
    {
      if tty then resp.wire else Concat(Demux(resp.wire))
    }

    /** The next chunk of log, empty at the end: one frame's payload, or raw bytes with a TTY. */
    method NextChunk() returns (chunk: Bytes)
      modifies resp
      ensures old(Carried()) == chunk + if chunk == [] then [] else Carried()
      ensures |chunk| + |resp.wire| <= |old(resp.wire)|
    {
      if tty {
        chunk := resp.Read(65536);
      } else {
        chunk := [];
        var head := ReadExactly(HEADER);
        if head.Some? {
          assert head.value[4..HEADER] == old(resp.wire)[4..HEADER];
          var body := ReadExactly(BigEndian(head.value[4..HEADER]));
          if body.Some? {
            chunk := body.value;
            assert old(resp.wire)[HEADER..][..|chunk|] == old(resp.wire)[HEADER..HEADER + |chunk|];
            assert old(resp.wire)[HEADER..][|chunk|..] == old(resp.wire)[HEADER + |chunk|..];
          }
        }
      }
    }

    /** Takes the finished lines off the front of the buffer. */
    method TakeLines(buf: Bytes) returns (lines: seq<Bytes>, rest: Bytes)
      ensures lines == ShapeAll(shape, Lines(buf))
      ensures rest == Rest(buf)
    {
      lines, rest := [], buf;
      ghost var raw: seq<Bytes> := [];
      while FirstNewline(rest) < |rest|
        invariant Rest(rest) == Rest(buf)
        invariant raw + Lines(rest) == Lines(buf)
        invariant lines == ShapeAll(shape, raw)
        decreases |rest|
      {
        hide StripCr, ShapeAll, Lines, Rest, FirstNewline;
        var i := FirstNewline(rest);
        OneLineTaken(raw, rest);
        OneLineShaped(shape, raw, rest[..i]);
        lines := lines + [shape(StripCr(rest[..i]))];
        raw := raw + [rest[..i]];
        rest := rest[i + 1..];
      }
      hide FirstNewline;
      NoLine(rest);
      assert raw + [] == raw;
    }

    /** The log's lines. However the wire is cut into reads, they are the newline-terminated
        lines of what the frames carry. */
    method Iterate() returns (lines: seq<Bytes>)
      modifies resp
      ensures lines == ShapeAll(shape, Lines(old(Carried())))
    {
      lines := [];
      var buf: Bytes := [];
      ghost var seen: Bytes := [];
      var chunk := NextChunk();
      while chunk != []
        invariant old(Carried()) == seen + (chunk + if chunk == [] then [] else Carried())
        invariant buf == Rest(seen)
        invariant lines == ShapeAll(shape, Lines(seen))
        decreases |resp.wire| + |chunk|
      {
        ghost var tail := Carried();
        assert seen + (chunk + tail) == seen + chunk + tail;
        var more;
        more, buf := TakeLines(buf + chunk);
        LinesAppend(seen, chunk);
        ShapeAllConcat(shape, Lines(seen), Lines(Rest(seen) + chunk));
        lines := lines + more;
        seen := seen + chunk;
        chunk := NextChunk();
      }
      assert seen + ([] + []) == seen;
    }
  }

  /** The main result, end to end: frames written to the wire, read back in any pieces, yield the
      lines of their payloads in order, up to the first empty frame. */
  method FollowFrames(frames: seq<Frame>, shape: Shape) returns (lines: seq<Bytes>)
    requires Encodable(frames)
    ensures lines == ShapeAll(shape, Lines(Concat(Delivered(frames))))
  {
    DemuxInvertsEncode(frames, []);
    assert Encode(frames) + [] == Encode(frames);
    assert Demux(Encode(frames)) == Delivered(frames);
    var resp := new Response(Encode(frames));
    var stream := new LogStream(false, shape, resp);
    lines := stream.Iterate();
  }
}
