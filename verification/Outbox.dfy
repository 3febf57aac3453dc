/** A sender seen from outside, by its calls alone: what they carry is what its frames hold. */
module Outbox {
  import opened Common
  import opened WireFrame
  import opened ReplayGuard
  import opened InputCodec
  import opened Transport

  /** A sending call with the number it was given. */
  datatype Posting = Posting(call: Send, number: nat)

  /** A sender seen by its calls alone: how many numbers are used, which calls wait in the
      batch, and which have been sent. */
  datatype Outbox = Outbox(used: nat, waiting: seq<Posting>, sent: seq<Posting>)

  predicate Sendable(n: Posting) {
    match n.call
    case One(_, payload, now) => !Unsendable(payload, now, n.number)
    case Add(_, bytes, now) => !Unsendable(Some(bytes), now, n.number)
    case Flush => false
  }

  function Posted(o: Outbox, e: Send): Outbox {
    var n := Posting(e, o.used + 1);
    match e
    case One(_, _, _) => Outbox(o.used + 1, o.waiting, if Sendable(n) then o.sent + [n] else o.sent)
    case Add(_, _, _) => if |o.waiting| >= 32 then o else Outbox(o.used + 1, o.waiting + [n], o.sent)
    case Flush =>
      if forall w :: w in o.waiting ==> Sendable(w) then Outbox(o.used, [], o.sent + o.waiting) else o
  }

  function OutboxAfter(es: seq<Send>): Outbox {
    if es == [] then Outbox(0, [], []) else Posted(OutboxAfter(Front(es)), Last(es))
  }

  /** The frame holds what the caller gave. */
  predicate Carries(f: Frame, n: Posting) {
    && f.version == 1 && f.sequence == n.number
    && match n.call
       case One(t, payload, now) =>
         f.eventType == t && payload == Some(f.payload) && f.timestampMs == now && f.flags == 0
       case Add(t, bytes, now) =>
         f.eventType == t && bytes == f.payload && f.timestampMs == now && f.flags == 1
       case Flush => false
  }

  ghost predicate CarryAll(frames: seq<Frame>, calls: seq<Posting>) {
    |frames| == |calls| && forall i :: 0 <= i < |frames| ==> Carries(frames[i], calls[i])
  }

  lemma CarriedIsEncodable(f: Frame, n: Posting)
    requires Carries(f, n)
    ensures Encodable(f) <==> Sendable(n)
  {
  }

  lemma AllEncodableIff(frames: seq<Frame>, calls: seq<Posting>)
    requires CarryAll(frames, calls)
    ensures AllEncodable(frames) <==> forall n :: n in calls ==> Sendable(n)
  {
    forall i | 0 <= i < |frames| ensures Encodable(frames[i]) <==> Sendable(calls[i]) {
      CarriedIsEncodable(frames[i], calls[i]);
    }
    assert forall i :: 0 <= i < |frames| ==> frames[i] in frames && calls[i] in calls;
  }

  lemma CarryAllConcat(a: seq<Frame>, b: seq<Frame>, calls: seq<Posting>, more: seq<Posting>)
    requires CarryAll(a, calls) && CarryAll(b, more)
    ensures CarryAll(a + b, calls + more)
  {
  }

  /** The codec stands for the outbox. */
  ghost predicate StandsFor(s: CodecState, emitted: seq<Frame>, o: Outbox) {
    s.sendSeq == o.used && CarryAll(s.buffer, o.waiting) && CarryAll(emitted, o.sent)
  }

  lemma OneStandsFor(link: RawLink, s: CodecState, emitted: seq<Frame>, o: Outbox, e: Send)
    requires Lawful(link) && |s.buffer| <= MAX_BATCH_SIZE && e.One? && StandsFor(s, emitted, o)
    ensures StandsFor(SendStep(link, s, e).0, emitted + SendStep(link, s, e).1, Posted(o, e))
  {
    SendRaisesIff(link, s, e.eventType, e.payload, e.now);
    assert emitted + [] == emitted;
    if Sendable(Posting(e, o.used + 1)) {
      CarryAllConcat(emitted, SendStep(link, s, e).1, o.sent, [Posting(e, o.used + 1)]);
    }
  }

  lemma AddStandsFor(link: RawLink, s: CodecState, emitted: seq<Frame>, o: Outbox, e: Send)
    requires Lawful(link) && |s.buffer| <= MAX_BATCH_SIZE && e.Add? && StandsFor(s, emitted, o)
    ensures StandsFor(SendStep(link, s, e).0, emitted + SendStep(link, s, e).1, Posted(o, e))
  {
    assert emitted + [] == emitted;
    if |s.buffer| < 32 {
      var f := Last(SendStep(link, s, e).0.buffer);
      CarryAllConcat(s.buffer, [f], o.waiting, [Posting(e, o.used + 1)]);
    }
  }

  lemma FlushStandsFor(link: RawLink, s: CodecState, emitted: seq<Frame>, o: Outbox, e: Send)
    requires Lawful(link) && |s.buffer| <= MAX_BATCH_SIZE && e.Flush? && StandsFor(s, emitted, o)
    ensures StandsFor(SendStep(link, s, e).0, emitted + SendStep(link, s, e).1, Posted(o, e))
  {
    assert emitted + [] == emitted;
    FlushOkIff(link, s);
    AllEncodableIff(s.buffer, o.waiting);
    CarryAllConcat(emitted, s.buffer, o.sent, o.waiting);
  }

  /** The sender refines its outbox: the buffer holds the accepted `Add` calls since the
      last flush, and the wire has had the sent calls, in call order, each with its own
      event type, payload, clock reading and number. */
  lemma {:induction false} SenderRefinesOutbox(link: RawLink, window: int, es: seq<Send>)
    requires Lawful(link)
    ensures StandsFor(SendRun(link, window, es), Emitted(link, window, es), OutboxAfter(es))
  {
    if es != [] {
      SenderRefinesOutbox(link, window, Front(es));
      var s, emitted := SendRun(link, window, Front(es)), Emitted(link, window, Front(es));
      var o, e := OutboxAfter(Front(es)), Last(es);
      match e {
        case One(_, _, _) => OneStandsFor(link, s, emitted, o, e);
        case Add(_, _, _) => AddStandsFor(link, s, emitted, o, e);
        case Flush => FlushStandsFor(link, s, emitted, o, e);
      }
    }
  }

  /** Add, flush, decode: a receiver below their numbers gets the waiting calls back, event
      by event. */
  lemma WaitingCallsArrive(mac: Mac, window: int, sends: seq<Send>, receiver: CodecState)
    requires Sane(receiver.guard)
    ensures
      var link, waiting := HmacLink(mac), OutboxAfter(sends).waiting;
      (forall n :: n in waiting ==> Sendable(n))
      && (waiting != [] ==> receiver.guard.highest < waiting[0].number)
      ==>
        var data := FlushBatch(link, SendRun(link, window, sends)).1;
        data.Ok? && var got := DecodeBatch(link, receiver, data.value).1; got.Ok? && CarryAll(got.value, waiting)
  {
    var link := HmacLink(mac);
    var sender, waiting := SendRun(link, window, sends), OutboxAfter(sends).waiting;
    SenderRefinesOutbox(link, window, sends);
    RunKeepsNumbering(link, window, sends);
    AllEncodableIff(sender.buffer, waiting);
    if && (forall n :: n in waiting ==> Sendable(n))
       && (waiting != [] ==> receiver.guard.highest < waiting[0].number) {
      AscendingFromFirst(sender.buffer, 0, receiver.guard.highest);
      BatchRoundTrip(mac, sender, receiver);
    }
  }

  /** The bytes that a single send returns decode to the caller's event. */
  lemma SingleCallArrives(link: RawLink, s: CodecState, t: EventType, payload: Option<Bytes>, now: int)
    requires Lawful(link) && !Unsendable(payload, now, s.sendSeq + 1)
    ensures
      var r := Encode(link, s, t, payload, now).1;
      && r.Ok? && link.decode(r.value).Ok?
      && Carries(link.decode(r.value).value, Posting(One(t, payload, now), s.sendSeq + 1))
      && (|s.buffer| <= MAX_BATCH_SIZE ==>
            SendStep(link, s, One(t, payload, now)).1 == [link.decode(r.value).value])
  {
    SendRaisesIff(link, s, t, payload, now);
  }

  /** A batch takes 32 calls; the next is refused and changes nothing. */
  lemma FullBatchRefuses(link: RawLink, window: int, es: seq<Send>, t: EventType, bytes: Bytes, now: int)
    requires Lawful(link)
    ensures
      var s := SendRun(link, window, es);
      (BatchAdd(s, t, bytes, now).1 == Err(BatchFull) <==> |OutboxAfter(es).waiting| == 32)
      && (BatchAdd(s, t, bytes, now).1.Err? ==> BatchAdd(s, t, bytes, now).0 == s)
  {
    SenderRefinesOutbox(link, window, es);
  }

  function WireLengths(link: RawLink, frames: seq<Frame>): nat
    requires Lawful(link)
  {
    if frames == [] then 0 else WireLengths(link, Front(frames)) + |Encoded(link, Last(frames))|
  }

  lemma {:induction false} WireLengthsConcat(link: RawLink, a: seq<Frame>, b: seq<Frame>)
    requires Lawful(link)
    ensures WireLengths(link, a + b) == WireLengths(link, a) + WireBytes(link, b)
    decreases |b|
  {
    if b == [] {
      assert a + b == a;
    } else {
      WireLengthsConcat(link, a + [b[0]], b[1..]);
      assert a + [b[0]] + b[1..] == a + b && Front(a + [b[0]]) == a;
    }
  }

  /** The flushes that put something on the wire. */
  function FullFlushes(es: seq<Send>): nat {
    if es == [] then 0
    else
      var waiting := OutboxAfter(Front(es)).waiting;
      FullFlushes(Front(es))
      + (if Last(es).Flush? && waiting != [] && forall n :: n in waiting ==> Sendable(n) then 1 else 0)
  }

  lemma WireBytesOfOne(link: RawLink, f: Frame)
    requires Lawful(link)
    ensures WireBytes(link, [f]) == |Encoded(link, f)|
  {
    assert [f][1..] == [];
  }

  /** What one call does to the counters that a sender does not number by. */
  lemma StepCounters(link: RawLink, s: CodecState, e: Send)
    requires Lawful(link) && |s.buffer| <= MAX_BATCH_SIZE
    ensures
      var (t, more) := SendStep(link, s, e);
      && t.bytesSent == s.bytesSent + WireBytes(link, more)
      && t.batchesSent == s.batchesSent + (if e.Flush? && s.buffer != [] && AllEncodable(s.buffer) then 1 else 0)
      && t == s.(sendSeq := t.sendSeq, buffer := t.buffer, framesSent := t.framesSent,
                 bytesSent := t.bytesSent, batchesSent := t.batchesSent)
  {
    FlushOkIff(link, s);
    if e.One? && e.payload.Some? {
      WireBytesOfOne(link, Frame(PROTOCOL_VERSION, e.eventType, s.sendSeq + 1, e.now, e.payload.value, 0));
    }
  }

  /** The other sending counters: bytes are those of the frames sent, without the lengths and
      counts around them; a batch counts when it goes out; nothing is received. */
  lemma {:induction false} SendingCounters(link: RawLink, window: int, es: seq<Send>)
    requires Lawful(link)
    ensures
      var s := SendRun(link, window, es);
      && s.bytesSent == WireLengths(link, Emitted(link, window, es)) && s.batchesSent == FullFlushes(es)
      && s.framesReceived == s.bytesReceived == s.hmacFailures == s.replayBlocked == 0 && s.guard == Fresh(window)
  {
    if es != [] {
      SendingCounters(link, window, Front(es));
      var s, emitted := SendRun(link, window, Front(es)), Emitted(link, window, Front(es));
      StepCounters(link, s, Last(es));
      SenderRefinesOutbox(link, window, Front(es));
      AllEncodableIff(s.buffer, OutboxAfter(Front(es)).waiting);
      WireLengthsConcat(link, emitted, SendStep(link, s, Last(es)).1);
    }
  }

  /** The two-byte count and lengths of a stream, high byte first. */
  lemma StreamSpelled(link: RawLink, frames: seq<Frame>)
    requires Lawful(link) && |frames| <= MAX_BATCH_SIZE
    ensures
      var stream := Stream(link, frames);
      |stream| >= 2 && Spells(stream[0], stream[1], |frames|) && stream[2..] == Chunks(link, frames)
  {
    StreamParts(link, frames);
  }

  lemma ChunkSpelled(link: RawLink, f: Frame)
    requires Lawful(link)
    ensures
      var chunk, wire := Chunk(link, f), Encoded(link, f);
      |chunk| >= 2 && Spells(chunk[0], chunk[1], |wire|) && chunk[2..] == wire
  {
    U16OfBe16(|Encoded(link, f)|);
    assert Chunk(link, f)[..2] == Be16(|Encoded(link, f)|);
  }

  /** A flush that raises does so with the error of the first frame that cannot be encoded,
      and leaves the codec as it was. */
  lemma FlushRaisesFirstError(link: RawLink, s: CodecState)
    requires Lawful(link) && |s.buffer| <= MAX_BATCH_SIZE && FlushBatch(link, s).1.Err?
    ensures FlushBatch(link, s).0 == s
    ensures exists k :: 0 <= k < |s.buffer| && FailsFirst(link, s.buffer, k)
                     && FlushBatch(link, s).1 == Err(Rejected(link.encode(s.buffer[k]).error))
  {
    var k := FirstFailure(link, s.buffer);
  }

  predicate FailsFirst(link: RawLink, frames: seq<Frame>, k: nat)
    requires k < |frames|
  {
    link.encode(frames[k]).Err? && forall i :: 0 <= i < k ==> link.encode(frames[i]).Ok?
  }

  lemma {:induction false} FirstFailure(link: RawLink, frames: seq<Frame>) returns (k: nat)
    requires FirstError(link, frames).Some?
    ensures k < |frames| && FailsFirst(link, frames, k)
    ensures FirstError(link, frames) == Some(link.encode(frames[k]).error)
    decreases |frames|
  {
    if link.encode(frames[0]).Err? {
      k := 0;
    } else {
      var rest := FirstFailure(link, frames[1..]);
      k := rest + 1;
      forall i | 0 <= i < k ensures link.encode(frames[i]).Ok? {
        assert i > 0 ==> frames[i] == frames[1..][i - 1];
      }
    }
  }
}
