/** The two bounded NDJSON readers. `Read` says what a byte stream means; the server's reader
    over a growable array and the client's reader over concatenated buffers both compute it,
    whatever the chunks are. */
module Framing {
  import opened Common

  newtype byte = x: int | 0 <= x < 256

  const NEWLINE: byte := 0x0A
  const CARRIAGE_RETURN: byte := 0x0D

  /** How a reader stops: at the end of the input, or with one of its three error codes. */
  datatype End = Clean | FrameTooLarge | InvalidEncoding | UnterminatedFrame

  datatype Reading<T> = Reading(frames: seq<T>, end: End)

  // ---------- what a byte stream means ----------

  /** The position of the first newline, or the length. */
  function LineEnd(b: seq<byte>): (n: nat)
    ensures n <= |b| && NEWLINE !in b[..n] && (n < |b| ==> b[n] == NEWLINE)
  {
    if b == [] || b[0] == NEWLINE then 0
    else
      var n := 1 + LineEnd(b[1..]);
      assert b[..n] == [b[0]] + b[1..][..n - 1];
      n
  }

  /** A frame without its single trailing carriage return. */
  function Body(frame: seq<byte>): seq<byte> {
    if frame != [] && frame[|frame| - 1] == CARRIAGE_RETURN then frame[..|frame| - 1] else frame
  }

  /** Split at newlines; stop at the first frame over the limit or that does not decode, and at
      a last frame without its newline. */
  function Read<T>(decode: seq<byte> -> Option<T>, limit: nat, b: seq<byte>): Reading<T>
    decreases |b|
  {
    var n := LineEnd(b);
    if n > limit then Reading([], FrameTooLarge)
    else if n == |b| then Reading([], if n == 0 then Clean else UnterminatedFrame)
    else
      match decode(Body(b[..n]))
      case None => Reading([], InvalidEncoding)
      case Some(t) => Prepend([t], Read(decode, limit, b[n + 1..]))
  }

  function Prepend<T>(frames: seq<T>, r: Reading<T>): Reading<T> {
    Reading(frames + r.frames, r.end)
  }

  function Flatten<T>(chunks: seq<seq<T>>): seq<T> {
    if chunks == [] then [] else chunks[0] + Flatten(chunks[1..])
  }

  // ---------- lemmas on the meaning ----------

  lemma {:induction false} LineEndOf(f: seq<byte>, rest: seq<byte>)
    requires NEWLINE !in f
    ensures LineEnd(f + rest) == |f| + LineEnd(rest)
  {
    if f == [] {
      assert f + rest == rest;
    } else {
      assert f[0] in f && (f + rest)[1..] == f[1..] + rest;
      LineEndOf(f[1..], rest);
    }
  }

  /** Bytes without a newline past the limit decide the outcome, whatever follows them. */
  lemma OverLimit<T>(decode: seq<byte> -> Option<T>, limit: nat, f: seq<byte>, rest: seq<byte>)
    requires NEWLINE !in f && |f| > limit
    ensures Read(decode, limit, f + rest) == Reading([], FrameTooLarge)
  {
    LineEndOf(f, rest);
  }

  lemma ReadLine<T>(decode: seq<byte> -> Option<T>, limit: nat, f: seq<byte>, rest: seq<byte>)
    requires NEWLINE !in f && |f| <= limit
    ensures Read(decode, limit, f + [NEWLINE] + rest) ==
      match decode(Body(f))
      case None => Reading([], InvalidEncoding)
      case Some(t) => Prepend([t], Read(decode, limit, rest))
  {
    var b := f + [NEWLINE] + rest;
    assert b == f + ([NEWLINE] + rest);
    LineEndOf(f, [NEWLINE] + rest);
    assert b[..|f|] == f && b[|f| + 1..] == rest;
  }

  lemma ReadTail<T>(decode: seq<byte> -> Option<T>, limit: nat, f: seq<byte>)
    requires NEWLINE !in f
    ensures Read(decode, limit, f) ==
      Reading([], if |f| > limit then FrameTooLarge else if f == [] then Clean else UnterminatedFrame)
  {
    LineEndOf(f, []);
    assert f + [] == f;
  }

  lemma {:induction false} FlattenAppend<T>(chunks: seq<seq<T>>, c: seq<T>)
    ensures Flatten(chunks + [c]) == Flatten(chunks) + c
  {
    if chunks == [] {
      assert chunks + [c] == [c];
    } else {
      assert (chunks + [c])[1..] == chunks[1..] + [c];
      FlattenAppend(chunks[1..], c);
    }
  }

  // ---------- the server's reader: a growable array ----------

  function Max(a: nat, b: nat): nat {
    if a < b then b else a
  }

  function Min(a: nat, b: nat): nat {
    if a < b then a else b
  }

  /** The next capacity: doubled until it suffices and never past the limit. */
  method GrownCapacity(length: nat, needed: nat, limit: nat) returns (capacity: nat)
    requires length < needed <= limit
    ensures needed <= capacity <= limit
    ensures capacity < 2 * needed || capacity == 1
  {
    capacity := Max(length, 1);
    while capacity < needed
      invariant 1 <= capacity <= limit
      invariant capacity < 2 * needed
      decreases limit - capacity
    {
      capacity := Min(limit, capacity * 2);
    }
  }

  /** Append a segment to the frame held in the first `used` bytes of the buffer. */
  method Append(buffer: array<byte>, used: nat, segment: seq<byte>, limit: nat) returns (grown: array<byte>)
    requires used <= buffer.Length <= limit && used + |segment| <= limit
    modifies buffer
    ensures used + |segment| <= grown.Length <= limit
    ensures grown[..used + |segment|] == old(buffer[..used]) + segment
    ensures grown == buffer || fresh(grown)
  {
    grown := buffer;
    var next := used + |segment|;
    if next > buffer.Length {
      var capacity := GrownCapacity(buffer.Length, next, limit);
      grown := new byte[capacity](_ => 0);
      forall i | 0 <= i < used {
        grown[i] := buffer[i];
      }
    }
    assert grown[..used] == old(buffer[..used]);
    forall i | 0 <= i < |segment| {
      grown[used + i] := segment[i];
    }
  }

  /** The bytes that remain to be read, given what is held of the current frame: reading on from
      here completes `whole`. */
  ghost predicate Remaining<T>(decode: seq<byte> -> Option<T>, limit: nat, whole: Reading<T>, frames: seq<T>, b: seq<byte>) {
    whole == Prepend(frames, Read(decode, limit, b))
  }

  lemma FrameRead<T>(decode: seq<byte> -> Option<T>, limit: nat, whole: Reading<T>, frames: seq<T>, f: seq<byte>, rest: seq<byte>)
    requires Remaining(decode, limit, whole, frames, f + [NEWLINE] + rest) && NEWLINE !in f && |f| <= limit
    ensures match decode(Body(f))
            case None => whole == Reading(frames, InvalidEncoding)
            case Some(t) => Remaining(decode, limit, whole, frames + [t], rest)
  {
    ReadLine(decode, limit, f, rest);
  }

  lemma FrameTooLong<T>(decode: seq<byte> -> Option<T>, limit: nat, whole: Reading<T>, frames: seq<T>, f: seq<byte>, rest: seq<byte>)
    requires Remaining(decode, limit, whole, frames, f + rest) && NEWLINE !in f && |f| > limit
    ensures whole == Reading(frames, FrameTooLarge)
  {
    OverLimit(decode, limit, f, rest);
  }

  /** One chunk of `readBoundedNdjsonLines` of the server. The frame under construction is the
      first `used` bytes of the buffer; `later` stands for the chunks still to come. */
  method ServerChunk<T>(decode: seq<byte> -> Option<T>, limit: nat, buffer: array<byte>, used: nat, frames: seq<T>,
                        bytes: seq<byte>, ghost later: seq<byte>, ghost whole: Reading<T>)
    returns (buffer': array<byte>, used': nat, frames': seq<T>, stop: Option<End>)
    requires used <= buffer.Length <= limit && NEWLINE !in buffer[..used]
    requires Remaining(decode, limit, whole, frames, buffer[..used] + bytes + later)
    modifies buffer
    ensures used' <= buffer'.Length <= limit && (buffer' == buffer || fresh(buffer'))
    ensures match stop
            case Some(e) => whole == Reading(frames', e)
            case None => NEWLINE !in buffer'[..used'] && Remaining(decode, limit, whole, frames', buffer'[..used'] + later)
  {
    hide Remaining, Read, LineEnd;
    buffer', used', frames', stop := buffer, used, frames, None;
    var offset := 0;
    assert bytes[offset..] == bytes;
    while offset < |bytes|
      invariant offset <= |bytes|
      invariant used' <= buffer'.Length <= limit && (buffer' == buffer || fresh(buffer'))
      invariant NEWLINE !in buffer'[..used'] && stop.None?
      invariant Remaining(decode, limit, whole, frames', buffer'[..used'] + bytes[offset..] + later)
    {
      var segmentEnd := offset + LineEnd(bytes[offset..]);
      var segment := bytes[offset..segmentEnd];
      ghost var frame := buffer'[..used'] + segment;
      Regroup(buffer'[..used'], bytes, offset, segmentEnd, later);
      if used' + |segment| > limit {
        FrameTooLong(decode, limit, whole, frames', frame, bytes[segmentEnd..] + later);
        stop := Some(FrameTooLarge);
        return;
      }
      if |segment| > 0 {
        buffer' := Append(buffer', used', segment, limit);
        used' := used' + |segment|;
      }
      assert buffer'[..used'] == frame;
      offset := segmentEnd;
      if offset < |bytes| {
        FrameRead(decode, limit, whole, frames', frame, bytes[offset + 1..] + later);
        match decode(Body(buffer'[..used'])) {
          case None =>
            stop := Some(InvalidEncoding);
            return;
          case Some(t) => frames' := frames' + [t];
        }
        used' := 0;
        offset := offset + 1;
        assert buffer'[..used'] + bytes[offset..] + later == bytes[offset..] + later;
      }
    }
    assert buffer'[..used'] + bytes[offset..] + later == buffer'[..used'] + later;
  }

  /** The bytes in front of the reader, cut at the end of the current line. */
  lemma Regroup(held: seq<byte>, bytes: seq<byte>, offset: nat, end: nat, later: seq<byte>)
    requires offset <= |bytes| && end == offset + LineEnd(bytes[offset..])
    ensures var frame := held + bytes[offset..end];
      && held + bytes[offset..] + later == frame + (bytes[end..] + later)
      && (end < |bytes| ==> frame + (bytes[end..] + later) == frame + [NEWLINE] + (bytes[end + 1..] + later))
      && (end == |bytes| ==> held + bytes[offset..] + later == frame + bytes[end..] + later)
      && NEWLINE !in bytes[offset..end]
  {
    assert bytes[offset..] == bytes[offset..end] + bytes[end..];
    assert bytes[offset..end] == bytes[offset..][..end - offset];
    if end < |bytes| {
      assert bytes[end] == bytes[offset..][end - offset] == NEWLINE;
      assert bytes[end..] == [NEWLINE] + bytes[end + 1..];
    }
  }

  /** `readBoundedNdjsonLines` of the server. */
  method ServerRead<T>(decode: seq<byte> -> Option<T>, limit: nat, chunks: seq<seq<byte>>) returns (r: Reading<T>)
    ensures r == Read(decode, limit, Flatten(chunks))
  {
    var frameBuffer := new byte[0];
    var frameBytes: nat := 0;
    var frames: seq<T> := [];
    ghost var whole := Read(decode, limit, Flatten(chunks));
    assert frameBuffer[..frameBytes] + Flatten(chunks[0..]) == Flatten(chunks);
    for k := 0 to |chunks|
      invariant frameBytes <= frameBuffer.Length <= limit && fresh(frameBuffer)
      invariant NEWLINE !in frameBuffer[..frameBytes]
      invariant Remaining(decode, limit, whole, frames, frameBuffer[..frameBytes] + Flatten(chunks[k..]))
    {
      ghost var later := Flatten(chunks[k + 1..]);
      assert frameBuffer[..frameBytes] + Flatten(chunks[k..]) == frameBuffer[..frameBytes] + chunks[k] + later by {
        assert chunks[k..][1..] == chunks[k + 1..];
      }
      var stop;
      frameBuffer, frameBytes, frames, stop :=
        ServerChunk(decode, limit, frameBuffer, frameBytes, frames, chunks[k], later, whole);
      if stop.Some? {
        return Reading(frames, stop.value);
      }
    }
    assert frameBuffer[..frameBytes] + Flatten(chunks[|chunks|..]) == frameBuffer[..frameBytes];
    ReadTail(decode, limit, frameBuffer[..frameBytes]);
    return Reading(frames, if frameBytes > 0 then UnterminatedFrame else Clean);
  }

  // ---------- the client's reader: concatenated buffers ----------

  /** The inner loop of `readBoundedNdjsonLines` of the client: take every complete frame. */
  method ClientFrames<T>(decode: seq<byte> -> Option<T>, limit: nat, buffered: seq<byte>, frames: seq<T>,
                         ghost later: seq<byte>, ghost whole: Reading<T>)
    returns (buffered': seq<byte>, frames': seq<T>, stop: Option<End>)
    requires Remaining(decode, limit, whole, frames, buffered + later)
    ensures match stop
            case Some(e) => whole == Reading(frames', e)
            case None => NEWLINE !in buffered' && Remaining(decode, limit, whole, frames', buffered' + later)
  {
    buffered', frames', stop := buffered, frames, None;
    var newlineIndex := LineEnd(buffered');
    while newlineIndex < |buffered'|
      invariant newlineIndex == LineEnd(buffered') && stop.None?
      invariant Remaining(decode, limit, whole, frames', buffered' + later)
      decreases |buffered'|
    {
      var frame := buffered'[..newlineIndex];
      ghost var rest := buffered'[newlineIndex + 1..] + later;
      assert buffered' + later == frame + [NEWLINE] + rest && frame + [NEWLINE] + rest == frame + ([NEWLINE] + rest);
      if |frame| > limit {
        FrameTooLong(decode, limit, whole, frames', frame, [NEWLINE] + rest);
        stop := Some(FrameTooLarge);
        return;
      }
      FrameRead(decode, limit, whole, frames', frame, rest);
      buffered' := buffered'[newlineIndex + 1..];
      match decode(Body(frame)) {
        case None =>
          stop := Some(InvalidEncoding);
          return;
        case Some(t) => frames' := frames' + [t];
      }
      newlineIndex := LineEnd(buffered');
    }
    assert buffered'[..newlineIndex] == buffered';
  }

  /** `readBoundedNdjsonLines` of the client. */
  method ClientRead<T>(decode: seq<byte> -> Option<T>, limit: nat, chunks: seq<seq<byte>>) returns (r: Reading<T>)
    ensures r == Read(decode, limit, Flatten(chunks))
  {
    var buffered: seq<byte> := [];
    var frames: seq<T> := [];
    ghost var whole := Read(decode, limit, Flatten(chunks));
    assert buffered + Flatten(chunks[0..]) == Flatten(chunks);
    for k := 0 to |chunks|
      invariant NEWLINE !in buffered && |buffered| <= limit
      invariant Remaining(decode, limit, whole, frames, buffered + Flatten(chunks[k..]))
    {
      ghost var later := Flatten(chunks[k + 1..]);
      assert buffered + Flatten(chunks[k..]) == buffered + chunks[k] + later by {
        assert chunks[k..][1..] == chunks[k + 1..];
      }
      var stop;
      buffered, frames, stop := ClientFrames(decode, limit, buffered + chunks[k], frames, later, whole);
      if stop.Some? {
        return Reading(frames, stop.value);
      }
      if |buffered| > limit {
        FrameTooLong(decode, limit, whole, frames, buffered, later);
        return Reading(frames, FrameTooLarge);
      }
    }
    assert buffered + Flatten(chunks[|chunks|..]) == buffered;
    ReadTail(decode, limit, buffered);
    return Reading(frames, if |buffered| > 0 then UnterminatedFrame else Clean);
  }

  // ---------- round trip ----------

  /** Each body followed by its newline, as both writers put it on the pipe. */
  function Written(bodies: seq<seq<byte>>): seq<byte> {
    if bodies == [] then [] else bodies[0] + [NEWLINE] + Written(bodies[1..])
  }

  /** The bodies that survive framing: no raw newline, no trailing carriage return, within the limit. */
  predicate Framable(limit: nat, body: seq<byte>) {
    NEWLINE !in body && Body(body) == body && |body| <= limit
  }

  function Newlines(b: seq<byte>): nat {
    if b == [] then 0 else (if b[0] == NEWLINE then 1 else 0) + Newlines(b[1..])
  }

  lemma {:induction false} NewlinesAppend(a: seq<byte>, b: seq<byte>)
    ensures Newlines(a + b) == Newlines(a) + Newlines(b)
  {
    if a == [] {
      assert a + b == b;
    } else {
      assert (a + b)[1..] == a[1..] + b;
      NewlinesAppend(a[1..], b);
    }
  }

  lemma {:induction false} NoNewlines(b: seq<byte>)
    ensures NEWLINE !in b <==> Newlines(b) == 0
  {
    if b != [] {
      assert b == [b[0]] + b[1..];
      NoNewlines(b[1..]);
    }
  }

  /** A clean reading has one frame for each newline. */
  lemma {:induction false} CleanCounts<T>(decode: seq<byte> -> Option<T>, limit: nat, b: seq<byte>)
    ensures Read(decode, limit, b).end.Clean? ==> |Read(decode, limit, b).frames| == Newlines(b)
    decreases |b|
  {
    hide LineEnd, Newlines, Body;
    var n := LineEnd(b);
    FirstLineCounts(b);
    if n < |b| {
      CleanCounts(decode, limit, b[n + 1..]);
    }
  }

  lemma LineCounts(f: seq<byte>, rest: seq<byte>)
    requires NEWLINE !in f
    ensures Newlines(f + ([NEWLINE] + rest)) == 1 + Newlines(rest)
  {
    NoNewlines(f);
    NewlinesAppend(f, [NEWLINE] + rest);
    assert ([NEWLINE] + rest)[1..] == rest;
  }

  lemma FirstLineCounts(b: seq<byte>)
    ensures var n := LineEnd(b); Newlines(b) == if n < |b| then 1 + Newlines(b[n + 1..]) else 0
  {
    hide Newlines, LineEnd;
    var n := LineEnd(b);
    if n < |b| {
      LineCounts(b[..n], b[n + 1..]);
      assert b == b[..n] + ([NEWLINE] + b[n + 1..]);
    } else {
      NoNewlines(b);
      assert b[..n] == b;
    }
  }

  lemma {:induction false} WrittenCounts(bodies: seq<seq<byte>>)
    ensures Newlines(Written(bodies)) >= |bodies|
    ensures (exists i :: 0 <= i < |bodies| && NEWLINE in bodies[i]) ==> Newlines(Written(bodies)) > |bodies|
  {
    if bodies != [] {
      var tail := Written(bodies[1..]);
      NewlinesAppend(bodies[0] + [NEWLINE], tail);
      NewlinesAppend(bodies[0], [NEWLINE]);
      assert Newlines([NEWLINE]) == 1;
      NoNewlines(bodies[0]);
      WrittenCounts(bodies[1..]);
      if i :| 0 <= i < |bodies| && NEWLINE in bodies[i] && i > 0 {
        assert NEWLINE in bodies[1..][i - 1];
      }
    }
  }

  function Raw(b: seq<byte>): Option<seq<byte>> {
    Some(b)
  }

  /** Framable bodies that decode are read back decoded, in order, to a clean end. */
  lemma {:induction false} WrittenIsRead<T>(decode: seq<byte> -> Option<T>, limit: nat, bodies: seq<seq<byte>>, values: seq<T>)
    requires |values| == |bodies|
    requires forall i | 0 <= i < |bodies| :: Framable(limit, bodies[i]) && decode(bodies[i]) == Some(values[i])
    ensures Read(decode, limit, Written(bodies)) == Reading(values, Clean)
  {
    hide Read;
    if bodies == [] {
      ReadTail(decode, limit, []);
    } else {
      WrittenIsRead(decode, limit, bodies[1..], values[1..]);
      ReadLine(decode, limit, bodies[0], Written(bodies[1..]));
      assert values == [values[0]] + values[1..];
    }
  }

  lemma LongFirst(limit: nat, first: seq<byte>, rest: seq<byte>)
    requires NEWLINE !in first && Read(Raw, limit, first + rest).end.Clean?
    ensures |first| <= limit
  {
    LineEndOf(first, rest);
  }

  lemma {:induction false} ReadIsWritten(limit: nat, bodies: seq<seq<byte>>)
    requires Read(Raw, limit, Written(bodies)) == Reading(bodies, Clean)
    ensures forall i | 0 <= i < |bodies| :: Framable(limit, bodies[i])
  {
    if bodies != [] {
      CleanCounts(Raw, limit, Written(bodies));
      WrittenCounts(bodies);
      assert NEWLINE !in bodies[0];
      var tail := Written(bodies[1..]);
      assert Written(bodies) == bodies[0] + ([NEWLINE] + tail);
      LongFirst(limit, bodies[0], [NEWLINE] + tail);
      ReadLine(Raw, limit, bodies[0], tail);
      var r := Read(Raw, limit, tail);
      assert bodies == [Body(bodies[0])] + r.frames;
      assert r.frames == bodies[1..];
      ReadIsWritten(limit, bodies[1..]);
      forall i | 0 <= i < |bodies| ensures Framable(limit, bodies[i]) {
        assert i > 0 ==> bodies[i] == bodies[1..][i - 1];
      }
    }
  }

  /** Writing a list of bodies and reading it back gives the same list exactly when every body
      is framable. */
  lemma RoundTrip(limit: nat, bodies: seq<seq<byte>>)
    ensures Read(Raw, limit, Written(bodies)) == Reading(bodies, Clean)
            <==> forall i | 0 <= i < |bodies| :: Framable(limit, bodies[i])
  {
    if forall i | 0 <= i < |bodies| :: Framable(limit, bodies[i]) {
      WrittenIsRead(Raw, limit, bodies, bodies);
    }
    if Read(Raw, limit, Written(bodies)) == Reading(bodies, Clean) {
      ReadIsWritten(limit, bodies);
    }
  }

  /** The client's check on an outgoing request counts the newline, the server's does not. */
  predicate ClientLetsOut(limit: nat, body: seq<byte>) {
    |body + [NEWLINE]| <= limit
  }

  predicate ServerLetsOut(limit: nat, body: seq<byte>) {
    |body| <= limit
  }

  /** JSON text has no raw newline and does not end in a carriage return (RFC 8259, section 7). */
  predicate JsonText(body: seq<byte>) {
    NEWLINE !in body && Body(body) == body
  }

  /** Whatever one end lets out, the reader at the other end accepts, however the bytes are cut;
      and a reader accepts a list of JSON texts exactly when the server's check lets each out. */
  lemma LetOutIsAccepted(limit: nat, bodies: seq<seq<byte>>)
    requires forall i | 0 <= i < |bodies| :: JsonText(bodies[i])
    ensures Read(Raw, limit, Written(bodies)) == Reading(bodies, Clean)
            <==> forall i | 0 <= i < |bodies| :: ServerLetsOut(limit, bodies[i])
    ensures (forall i | 0 <= i < |bodies| :: ClientLetsOut(limit, bodies[i])) ==>
              Read(Raw, limit, Written(bodies)) == Reading(bodies, Clean)
  {
    RoundTrip(limit, bodies);
    assert forall i | 0 <= i < |bodies| :: Framable(limit, bodies[i]) <==> ServerLetsOut(limit, bodies[i]);
    assert forall i | 0 <= i < |bodies| :: ClientLetsOut(limit, bodies[i]) ==> ServerLetsOut(limit, bodies[i]);
  }
}
