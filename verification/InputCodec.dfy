/** The codec on top of frames and replay guard: sequence numbering, batching, decoding. */
module InputCodec {
  import opened Common
  import opened WireFrame
  import opened ReplayGuard

  const PROTOCOL_VERSION := 1
  const MAX_BATCH_SIZE := 32
  const BATCHED := 1

  datatype DecodeError = Malformed(reason: WireError) | Replay

  datatype SendError = Rejected(reason: WireError) | BatchFull

  datatype CodecState = CodecState(
    sendSeq: nat, buffer: seq<Frame>, guard: GuardState,
    framesSent: nat, framesReceived: nat, batchesSent: nat, bytesSent: nat, bytesReceived: nat,
    hmacFailures: nat, replayBlocked: nat)

  function FreshCodec(window: int): CodecState {
    CodecState(0, [], Fresh(window), 0, 0, 0, 0, 0, 0, 0)
  }

  // ---- Sending ----

  /** A frame as sent over this link; empty where it cannot be encoded. */
  function Encoded(link: RawLink, f: Frame): (w: Bytes)
    requires Lawful(link)
    ensures |w| <= MAX_WIRE_SIZE
  {
    var r := link.encode(f);
    if r.Ok? then r.value else []
  }

  /** One frame of a batch: its two-byte length, then the frame. */
  function Chunk(link: RawLink, f: Frame): (c: Bytes)
    requires Lawful(link)
    ensures |c| == 2 + |Encoded(link, f)|
  {
    Be16(|Encoded(link, f)|) + Encoded(link, f)
  }

  function Chunks(link: RawLink, frames: seq<Frame>): Bytes
    requires Lawful(link)
  {
    if frames == [] then [] else Chunk(link, frames[0]) + Chunks(link, frames[1..])
  }

  function Stream(link: RawLink, frames: seq<Frame>): Bytes
    requires Lawful(link) && |frames| <= MAX_BATCH_SIZE
  {
    Be16(|frames|) + Chunks(link, frames)
  }

  function WireBytes(link: RawLink, frames: seq<Frame>): nat
    requires Lawful(link)
  {
    if frames == [] then 0 else |Encoded(link, frames[0])| + WireBytes(link, frames[1..])
  }

  /** The first encoding error, in buffer order. */
  function FirstError(link: RawLink, frames: seq<Frame>): (e: Option<WireError>)
    ensures e.None? <==> forall f :: f in frames ==> link.encode(f).Ok?
  {
    if frames == [] then None
    else if link.encode(frames[0]).Err? then
      assert frames[0] in frames;
      Some(link.encode(frames[0]).error)
    else
      assert frames == [frames[0]] + frames[1..];
      FirstError(link, frames[1..])
  }

  /** Sending one event. The sequence number is taken before the payload is packed and the
      frame encoded, so that a failing encode uses it up. */
  function Encode(link: RawLink, s: CodecState, t: EventType, payload: Option<Bytes>, now: int)
    : (CodecState, Result<Bytes, SendError>)
  {
    var numbered := s.(sendSeq := s.sendSeq + 1);
    if payload.None? then (numbered, Err(Rejected(PackError)))
    else
      match link.encode(Frame(PROTOCOL_VERSION, t, s.sendSeq + 1, now, payload.value, 0))
      case Err(e) => (numbered, Err(Rejected(e)))
      case Ok(wire) =>
        (numbered.(framesSent := s.framesSent + 1, bytesSent := s.bytesSent + |wire|), Ok(wire))
  }

  function BatchAdd(s: CodecState, t: EventType, payload: Bytes, now: int): (CodecState, Result<(), SendError>) {
    if |s.buffer| >= MAX_BATCH_SIZE then (s, Err(BatchFull))
    else
      var f := Frame(PROTOCOL_VERSION, t, s.sendSeq + 1, now, payload, BATCHED);
      (s.(sendSeq := s.sendSeq + 1, buffer := s.buffer + [f]), Ok(()))
  }

  /** Either the whole buffer goes out, or an encoding error leaves everything as it was. */
  function FlushBatch(link: RawLink, s: CodecState): (CodecState, Result<Bytes, SendError>)
    requires |s.buffer| <= MAX_BATCH_SIZE && Lawful(link)
  {
    if s.buffer == [] then (s, Ok([]))
    else
      match FirstError(link, s.buffer)
      case Some(e) => (s, Err(Rejected(e)))
      case None =>
        (s.(batchesSent := s.batchesSent + 1, framesSent := s.framesSent + |s.buffer|,
            bytesSent := s.bytesSent + WireBytes(link, s.buffer), buffer := []),
         Ok(Stream(link, s.buffer)))
  }

  // ---- Receiving ----

  function Decode(link: RawLink, s: CodecState, data: Bytes): (CodecState, Result<Frame, DecodeError>) {
    var counted := s.(bytesReceived := s.bytesReceived + |data|);
    match link.decode(data)
    case Err(e) =>
      (if e.BadMac? then counted.(hmacFailures := s.hmacFailures + 1) else counted, Err(Malformed(e)))
    case Ok(f) =>
      var checked := counted.(guard := CheckAndAccept(s.guard, f.sequence));
      if Accepts(s.guard, f.sequence) then (checked.(framesReceived := s.framesReceived + 1), Ok(f))
      else (checked.(replayBlocked := s.replayBlocked + 1), Err(Replay))
  }

  function Prepend(frames: seq<Frame>, r: Result<seq<Frame>, DecodeError>): Result<seq<Frame>, DecodeError> {
    match r
    case Ok(more) => Ok(frames + more)
    case Err(e) => Err(e)
  }

  /** Up to `count` chunks off the front; a chunk cut short ends the batch quietly, a
      frame that does not decode ends it with its error. */
  function DecodeChunks(link: RawLink, s: CodecState, data: Bytes, count: nat)
    : (CodecState, Result<seq<Frame>, DecodeError>)
    decreases count
  {
    if count == 0 || |data| < 2 then (s, Ok([]))
    else
      var end := 2 + U16(data[..2]);
      if end > |data| then (s, Ok([]))
      else
        var (t, r) := Decode(link, s, data[2..end]);
        match r
        case Err(e) => (t, Err(e))
        case Ok(f) =>
          var (u, rest) := DecodeChunks(link, t, data[end..], count - 1);
          (u, Prepend([f], rest))
  }

  function DecodeBatch(link: RawLink, s: CodecState, data: Bytes): (CodecState, Result<seq<Frame>, DecodeError>) {
    if |data| < 2 then (s, Ok([])) else DecodeChunks(link, s, data[2..], U16(data[..2]))
  }

  lemma PrependNothing(r: Result<seq<Frame>, DecodeError>)
    ensures Prepend([], r) == r
  {
    if r.Ok? {
      assert [] + r.value == r.value;
    }
  }

  lemma PrependTwice(a: seq<Frame>, b: seq<Frame>, r: Result<seq<Frame>, DecodeError>)
    ensures Prepend(a, Prepend(b, r)) == Prepend(a + b, r)
  {
    if r.Ok? {
      assert a + (b + r.value) == (a + b) + r.value;
    }
  }

  /** The loop's position: with `frames` in hand, what is still `todo` completes `whole`. */
  predicate Completes(
      whole: (CodecState, Result<seq<Frame>, DecodeError>), frames: seq<Frame>,
      todo: (CodecState, Result<seq<Frame>, DecodeError>))
  {
    whole.0 == todo.0 && whole.1 == Prepend(frames, todo.1)
  }

  /** One turn of the decoding loop, in terms of its offset. */
  lemma NextChunk(link: RawLink, s: CodecState, data: Bytes, offset: nat, count: nat)
    requires offset + 2 <= |data| && count > 0
    ensures
      var todo, end := DecodeChunks(link, s, data[offset..], count), offset + 2 + U16(data[offset..offset + 2]);
      if end > |data| then todo == (s, Ok([]))
      else
        var (t, r) := Decode(link, s, data[offset + 2..end]);
        if r.Err? then todo == (t, Err(r.error))
        else
          && todo.0 == DecodeChunks(link, t, data[end..], count - 1).0
          && todo.1 == Prepend([r.value], DecodeChunks(link, t, data[end..], count - 1).1)
  {
    var rest, end := data[offset..], offset + 2 + U16(data[offset..offset + 2]);
    assert rest[..2] == data[offset..offset + 2];
    if end <= |data| {
      assert rest[2..end - offset] == data[offset + 2..end];
      assert rest[end - offset..] == data[end..];
    }
  }

  lemma TurnCompletes(
      link: RawLink, s: CodecState, data: Bytes, offset: nat, count: nat,
      whole: (CodecState, Result<seq<Frame>, DecodeError>), frames: seq<Frame>)
    requires offset + 2 <= |data| && count > 0
    requires Completes(whole, frames, DecodeChunks(link, s, data[offset..], count))
    ensures
      var end := offset + 2 + U16(data[offset..offset + 2]);
      if end > |data| then whole.0 == s && whole.1 == Ok(frames)
      else
        var (t, r) := Decode(link, s, data[offset + 2..end]);
        if r.Err? then whole.0 == t && whole.1 == Err(r.error)
        else Completes(whole, frames + [r.value], DecodeChunks(link, t, data[end..], count - 1))
  {
    NextChunk(link, s, data, offset, count);
    var end := offset + 2 + U16(data[offset..offset + 2]);
    assert frames + [] == frames;
    if end <= |data| {
      var (t, r) := Decode(link, s, data[offset + 2..end]);
      if r.Ok? {
        PrependTwice(frames, [r.value], DecodeChunks(link, t, data[end..], count - 1).1);
      }
    }
  }

  lemma StopCompletes(
      link: RawLink, s: CodecState, data: Bytes, count: nat,
      whole: (CodecState, Result<seq<Frame>, DecodeError>), frames: seq<Frame>)
    requires count == 0 || |data| < 2
    requires Completes(whole, frames, DecodeChunks(link, s, data, count))
    ensures whole.0 == s && whole.1 == Ok(frames)
  {
    assert frames + [] == frames;
  }

  class Codec {
    const link: RawLink
    const replayGuard: Guard
    var sendSeq: nat
    var buffer: seq<Frame>
    var framesSent: nat
    var framesReceived: nat
    var batchesSent: nat
    var bytesSent: nat
    var bytesReceived: nat
    var hmacFailures: nat
    var replayBlocked: nat

    function View(): CodecState
      reads this, replayGuard
    {
      CodecState(sendSeq, buffer, replayGuard.View(), framesSent, framesReceived, batchesSent,
                 bytesSent, bytesReceived, hmacFailures, replayBlocked)
    }

    ghost predicate Valid()
      reads this
    {
      |buffer| <= MAX_BATCH_SIZE && Lawful(link)
    }

    constructor (mac: Mac, window: int)
      ensures Valid() && link == HmacLink(mac) && View() == FreshCodec(window) && fresh(replayGuard)
    {
      this.link := HmacLink(mac);
      this.replayGuard := new Guard(window);
      sendSeq, buffer := 0, [];
      framesSent, framesReceived, batchesSent, bytesSent := 0, 0, 0, 0;
      bytesReceived, hmacFailures, replayBlocked := 0, 0, 0;
    }

    method EncodeEvent(t: EventType, payload: Option<Bytes>, now: int) returns (r: Result<Bytes, SendError>)
      requires Valid()
      modifies this
      ensures Valid() && View() == Encode(link, old(View()), t, payload, now).0
      ensures r == Encode(link, old(View()), t, payload, now).1
    {
      sendSeq := sendSeq + 1;
      if payload.None? {
        return Err(Rejected(PackError));
      }
      var frame := Frame(PROTOCOL_VERSION, t, sendSeq, now, payload.value, 0);
      var wire := link.encode(frame);
      if wire.Err? {
        return Err(Rejected(wire.error));
      }
      framesSent := framesSent + 1;
      bytesSent := bytesSent + |wire.value|;
      return Ok(wire.value);
    }

    method AddToBatch(t: EventType, payload: Bytes, now: int) returns (r: Result<(), SendError>)
      requires Valid()
      modifies this
      ensures Valid() && View() == BatchAdd(old(View()), t, payload, now).0
      ensures r == BatchAdd(old(View()), t, payload, now).1
    {
      if |buffer| >= MAX_BATCH_SIZE {
        return Err(BatchFull);
      }
      sendSeq := sendSeq + 1;
      buffer := buffer + [Frame(PROTOCOL_VERSION, t, sendSeq, now, payload, BATCHED)];
      return Ok(());
    }

    /** Encodes the buffer frame by frame: its chunks and the bytes of its frames, or the
        first error. */
    method Assemble() returns (r: Result<(Bytes, nat), WireError>)
      requires Valid()
      ensures r.Err? <==> FirstError(link, buffer).Some?
      ensures r.Err? ==> r.error == FirstError(link, buffer).value
      ensures r.Ok? ==> r.value.0 == Chunks(link, buffer) && r.value.1 == WireBytes(link, buffer)
    {
      var parts: Bytes, total := [], 0;
      assert buffer[0..] == buffer;
      for i := 0 to |buffer|
        invariant FirstError(link, buffer) == FirstError(link, buffer[i..])
        invariant WireBytes(link, buffer) == total + WireBytes(link, buffer[i..])
        invariant Chunks(link, buffer) == parts + Chunks(link, buffer[i..])
      {
        var wire := link.encode(buffer[i]);
        assert buffer[i..][0] == buffer[i] && buffer[i..][1..] == buffer[i + 1..];
        if wire.Err? {
          return Err(wire.error);
        }
        parts := parts + (Be16(|wire.value|) + wire.value);
        total := total + |wire.value|;
      }
      assert buffer[|buffer|..] == [] && parts + [] == parts;
      return Ok((parts, total));
    }

    method Flush() returns (r: Result<Bytes, SendError>)
      requires Valid()
      modifies this
      ensures Valid() && View() == FlushBatch(link, old(View())).0
      ensures r == FlushBatch(link, old(View())).1
    {
      if buffer == [] {
        return Ok([]);
      }
      var assembled := Assemble();
      if assembled.Err? {
        return Err(Rejected(assembled.error));
      }
      var (parts, total) := assembled.value;
      var count := |buffer|;
      batchesSent := batchesSent + 1;
      framesSent := framesSent + count;
      bytesSent := bytesSent + total;
      buffer := [];
      return Ok(Be16(count) + parts);
    }

    method DecodeFrame(data: Bytes) returns (r: Result<Frame, DecodeError>)
      requires Valid()
      modifies this, replayGuard
      ensures Valid() && View() == Decode(link, old(View()), data).0
      ensures r == Decode(link, old(View()), data).1
      ensures buffer == old(buffer)
    {
      bytesReceived := bytesReceived + |data|;
      var frame := link.decode(data);
      if frame.Err? {
        if frame.error == BadMac {
          hmacFailures := hmacFailures + 1;
        }
        return Err(Malformed(frame.error));
      }
      var isNew := replayGuard.Check(frame.value.sequence);
      if !isNew {
        replayBlocked := replayBlocked + 1;
        return Err(Replay);
      }
      framesReceived := framesReceived + 1;
      return Ok(frame.value);
    }

    method DecodeFrames(data: Bytes) returns (r: Result<seq<Frame>, DecodeError>)
      requires Valid()
      modifies this, replayGuard
      ensures Valid() && View() == DecodeBatch(link, old(View()), data).0
      ensures r == DecodeBatch(link, old(View()), data).1
    {
      if |data| < 2 {
        return Ok([]);
      }
      r := DecodeCounted(data, U16(data[..2]));
    }

    /** The loop over the frames behind the count. */
    method DecodeCounted(data: Bytes, count: nat) returns (r: Result<seq<Frame>, DecodeError>)
      requires Valid() && |data| >= 2
      modifies this, replayGuard
      ensures Valid() && View() == DecodeChunks(link, old(View()), data[2..], count).0
      ensures r == DecodeChunks(link, old(View()), data[2..], count).1
    {
      var offset, frames := 2, [];
      ghost var whole := DecodeChunks(link, View(), data[2..], count);
      PrependNothing(whole.1);
      for i := 0 to count
        invariant 2 <= offset <= |data| && Valid()
        invariant Completes(whole, frames, DecodeChunks(link, View(), data[offset..], count - i))
      {
        if offset + 2 > |data| {
          StopCompletes(link, View(), data[offset..], count - i, whole, frames);
          return Ok(frames);
        }
        TurnCompletes(link, View(), data, offset, count - i, whole, frames);
        var end := offset + 2 + U16(data[offset..offset + 2]);
        if end > |data| {
          return Ok(frames);
        }
        var frame := DecodeFrame(data[offset + 2..end]);
        if frame.Err? {
          return Err(frame.error);
        }
        offset, frames := end, frames + [frame.value];
      }
      StopCompletes(link, View(), data[offset..], 0, whole, frames);
      return Ok(frames);
    }
  }
}
