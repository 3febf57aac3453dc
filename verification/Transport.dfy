/** A sender's run, and what a receiver makes of its batches: cut short, spoilt, refused. */
module Transport {
  import opened Common
  import opened WireFrame
  import opened ReplayGuard
  import opened InputCodec

  // ---- A batch and its prefixes ----

  predicate AllEncodable(frames: seq<Frame>) {
    forall f :: f in frames ==> Encodable(f)
  }

  predicate Ascending(frames: seq<Frame>, above: int) {
    frames == [] || (frames[0].sequence > above && Ascending(frames[1..], frames[0].sequence))
  }

  /** A window that is not negative, and no remembered number above the highest: true of
      every guard that started fresh with such a window. */
  ghost predicate Sane(g: GuardState) {
    g.window >= 0 && forall s :: s in g.seen ==> s <= g.highest
  }

  /** How many frames lie wholly within the first `room` bytes of their chunks. */
  function WholeFrames(link: RawLink, frames: seq<Frame>, room: int): (k: nat)
    requires Lawful(link)
    ensures k <= |frames|
  {
    if frames == [] || room < |Chunk(link, frames[0])| then 0
    else 1 + WholeFrames(link, frames[1..], room - |Chunk(link, frames[0])|)
  }

  /** The count is the right one: that many chunks fit, and one more would not. */
  lemma {:induction false} WholeFramesExact(link: RawLink, frames: seq<Frame>, room: nat)
    requires Lawful(link)
    ensures
      var k := WholeFrames(link, frames, room);
      && |Chunks(link, frames[..k])| <= room
      && (k < |frames| ==> |Chunks(link, frames[..k + 1])| > room)
  {
    var k := WholeFrames(link, frames, room);
    if k > 0 {
      var rest, more := frames[1..], room - |Chunk(link, frames[0])|;
      WholeFramesExact(link, rest, more);
      assert frames[..k][0] == frames[0] && frames[..k][1..] == rest[..k - 1];
      if k < |frames| {
        assert frames[..k + 1][0] == frames[0] && frames[..k + 1][1..] == rest[..k];
      }
    } else if frames != [] {
      assert frames[..1][1..] == [];
    }
  }

  /** What decoding one authentic frame does, accepted or not. */
  predicate AfterFrame(s: CodecState, t: CodecState, f: Frame) {
    var n := if Accepts(s.guard, f.sequence) then 1 else 0;
    && t.guard == CheckAndAccept(s.guard, f.sequence) && t.hmacFailures == s.hmacFailures
    && t.framesReceived == s.framesReceived + n && t.replayBlocked == s.replayBlocked + 1 - n
  }

  lemma FrameDecodes(link: RawLink, s: CodecState, f: Frame)
    requires Lawful(link) && Encodable(f)
    ensures
      var (t, r) := Decode(link, s, Encoded(link, f));
      AfterFrame(s, t, f) && r == (if Accepts(s.guard, f.sequence) then Ok(f) else Err(Replay))
  {
    assert link.encode(f).Ok?;
  }

  // ---- What the guard makes of a batch ----

  function GuardAfter(g: GuardState, frames: seq<Frame>): GuardState
    decreases |frames|
  {
    if frames == [] then g else GuardAfter(CheckAndAccept(g, frames[0].sequence), frames[1..])
  }

  /** How many frames from the front the guard accepts in turn. */
  function Taken(g: GuardState, frames: seq<Frame>): (n: nat)
    ensures n <= |frames|
    decreases |frames|
  {
    if frames == [] || !Accepts(g, frames[0].sequence) then 0
    else 1 + Taken(CheckAndAccept(g, frames[0].sequence), frames[1..])
  }

  /** The count is the right one: each of those is accepted behind its predecessors, and
      the next one is not. */
  lemma {:induction false} TakenExact(g: GuardState, frames: seq<Frame>, i: nat)
    requires i <= Taken(g, frames) && i < |frames|
    ensures Accepts(GuardAfter(g, frames[..i]), frames[i].sequence) <==> i < Taken(g, frames)
    decreases i
  {
    if i > 0 {
      TakenExact(CheckAndAccept(g, frames[0].sequence), frames[1..], i - 1);
      assert frames[..i][1..] == frames[1..][..i - 1];
    }
  }

  lemma {:induction false} TakenOfPrefix(g: GuardState, frames: seq<Frame>, k: nat)
    requires k <= |frames|
    ensures Taken(g, frames[..k]) == Min(k, Taken(g, frames))
    decreases k
  {
    if k > 0 {
      TakenOfPrefix(CheckAndAccept(g, frames[0].sequence), frames[1..], k - 1);
      assert frames[..k][1..] == frames[1..][..k - 1];
    }
  }

  /** Numbers that ascend from above the highest are all accepted. */
  lemma {:induction false} AscendingAllTaken(g: GuardState, frames: seq<Frame>)
    requires Sane(g) && Ascending(frames, g.highest)
    ensures Taken(g, frames) == |frames|
    decreases |frames|
  {
    if frames != [] {
      AscendingAllTaken(CheckAndAccept(g, frames[0].sequence), frames[1..]);
    }
  }

  /** The frames of a batch that got past the guard before the batch ended, whether or not
      the call then returned them. */
  function LetThrough(link: RawLink, s: CodecState, data: Bytes, count: nat): seq<Frame>
    decreases count
  {
    if count == 0 || |data| < 2 || 2 + U16(data[..2]) > |data| then []
    else
      var (t, r) := Decode(link, s, data[2..2 + U16(data[..2])]);
      if r.Err? then [] else [r.value] + LetThrough(link, t, data[2 + U16(data[..2])..], count - 1)
  }

  /** The same for a batch with its count in front. */
  function PassedOf(link: RawLink, s: CodecState, data: Bytes): seq<Frame> {
    if |data| < 2 then [] else LetThrough(link, s, data[2..], U16(data[..2]))
  }

  /** What passed the guard and was not returned, because a later frame raised. */
  function LostIn(link: RawLink, s: CodecState, data: Bytes): seq<Frame> {
    if DecodeBatch(link, s, data).1.Ok? then [] else PassedOf(link, s, data)
  }

  /** Whatever the bytes: a batch that does not raise returns all it let through. */
  lemma {:induction false} ReturnsWhatItLetThrough(link: RawLink, s: CodecState, data: Bytes, count: nat)
    ensures
      var (t, r) := DecodeChunks(link, s, data, count);
      && (r.Ok? ==> r.value == LetThrough(link, s, data, count))
      && t.framesReceived == s.framesReceived + |LetThrough(link, s, data, count)|
    decreases count
  {
    if count > 0 && |data| >= 2 && 2 + U16(data[..2]) <= |data| {
      var end := 2 + U16(data[..2]);
      var (t, r) := Decode(link, s, data[2..end]);
      if r.Ok? {
        ReturnsWhatItLetThrough(link, t, data[end..], count - 1);
      }
    }
  }

  /** How many of the counted chunks lie whole in these bytes. */
  function ChunksIn(data: Bytes, count: nat): nat
    decreases count
  {
    if count == 0 || |data| < 2 || 2 + U16(data[..2]) > |data| then 0
    else 1 + ChunksIn(data[2 + U16(data[..2])..], count - 1)
  }

  /** How many of them, from the front, decode and are accepted in turn. */
  function Passing(link: RawLink, g: GuardState, data: Bytes, count: nat): nat
    decreases count
  {
    if count == 0 || |data| < 2 || 2 + U16(data[..2]) > |data| then 0
    else
      var r := link.decode(data[2..2 + U16(data[..2])]);
      if r.Err? || !Accepts(g, r.value.sequence) then 0
      else 1 + Passing(link, CheckAndAccept(g, r.value.sequence), data[2 + U16(data[..2])..], count - 1)
  }

  lemma DecodeDecides(link: RawLink, s: CodecState, data: Bytes)
    ensures
      var (t, r) := Decode(link, s, data);
      && (r.Ok? <==> link.decode(data).Ok? && Accepts(s.guard, link.decode(data).value.sequence))
      && (r.Ok? ==> t.guard == CheckAndAccept(s.guard, link.decode(data).value.sequence))
  {
  }

  /** Whatever the bytes: the guard lets those through, and the batch raises iff they are
      not all. */
  lemma {:induction false} PassingDecides(link: RawLink, s: CodecState, data: Bytes, count: nat)
    ensures |LetThrough(link, s, data, count)| == Passing(link, s.guard, data, count) <= ChunksIn(data, count)
    ensures DecodeChunks(link, s, data, count).1.Ok?
       <==> Passing(link, s.guard, data, count) == ChunksIn(data, count)
    decreases count
  {
    if count > 0 && |data| >= 2 && 2 + U16(data[..2]) <= |data| {
      var end := 2 + U16(data[..2]);
      var (t, r) := Decode(link, s, data[2..end]);
      DecodeDecides(link, s, data[2..end]);
      if r.Ok? {
        PassingDecides(link, t, data[end..], count - 1);
      }
    }
  }

  /** What a batch of any bytes loses, garbled chunks included: nothing exactly if every
      whole chunk decodes and is accepted in turn, or not even the first; otherwise all
      that came before the first that fails. */
  lemma AnyBatchLoss(link: RawLink, s: CodecState, data: Bytes)
    ensures |data| < 2 ==> LostIn(link, s, data) == []
    ensures |data| >= 2 ==>
      var whole := ChunksIn(data[2..], U16(data[..2]));
      var passing := Passing(link, s.guard, data[2..], U16(data[..2]));
      && (LostIn(link, s, data) == [] <==> passing == whole || passing == 0)
      && |LostIn(link, s, data)| == (if passing == whole then 0 else passing)
  {
    if |data| >= 2 {
      PassingDecides(link, s, data[2..], U16(data[..2]));
    }
  }

  /** These bytes start with a whole chunk of this frame. */
  predicate StartsWith(link: RawLink, data: Bytes, f: Frame, rest: Bytes)
    requires Lawful(link)
  {
    && |data| >= 2 && 2 + U16(data[..2]) <= |data|
    && data[2..2 + U16(data[..2])] == Encoded(link, f) && data[2 + U16(data[..2])..] == rest
  }

  lemma FirstChunkDecoded(link: RawLink, s: CodecState, data: Bytes, f: Frame, rest: Bytes, count: nat)
    requires Lawful(link) && StartsWith(link, data, f, rest) && count > 0
    ensures
      var (t, r) := Decode(link, s, Encoded(link, f));
      var got := DecodeChunks(link, s, data, count);
      if r.Err? then got == (t, Err(r.error)) && LetThrough(link, s, data, count) == []
      else
        && got.0 == DecodeChunks(link, t, rest, count - 1).0
        && got.1 == Prepend([r.value], DecodeChunks(link, t, rest, count - 1).1)
        && LetThrough(link, s, data, count) == [r.value] + LetThrough(link, t, rest, count - 1)
  {
  }

  /** The front of a byte prefix of the chunks: a whole first chunk and a byte prefix of
      the others, or too little. */
  lemma FirstChunk(link: RawLink, frames: seq<Frame>, data: Bytes) returns (rest: Bytes)
    requires Lawful(link) && frames != [] && data <= Chunks(link, frames)
    ensures |data| < |Chunk(link, frames[0])| ==> |data| < 2 || 2 + U16(data[..2]) > |data|
    ensures |data| >= |Chunk(link, frames[0])| ==>
      && StartsWith(link, data, frames[0], rest)
      && rest <= Chunks(link, frames[1..]) && |rest| == |data| - |Chunk(link, frames[0])|
  {
    var wire, first, others := Encoded(link, frames[0]), Chunk(link, frames[0]), Chunks(link, frames[1..]);
    assert Chunks(link, frames) == first + others && first == Be16(|wire|) + wire;
    if |data| >= 2 {
      U16OfBe16(|wire|);
      assert data[..2] == Be16(|wire|);
    }
    rest := if |data| >= |first| then data[|first|..] else [];
    if |data| >= |first| {
      assert data == first + rest && rest == others[..|rest|];
    }
  }

  /** What decoding these whole frames should do: all of them come back if the guard takes
      them all; otherwise none, although the leading ones got past the guard. */
  predicate DecodesAs(
      s: CodecState, after: CodecState, got: Result<seq<Frame>, DecodeError>, passed: seq<Frame>, whole: seq<Frame>)
  {
    var n := Taken(s.guard, whole);
    && got == (if n == |whole| then Ok(whole) else Err(Replay))
    && passed == whole[..n]
    && after.framesReceived == s.framesReceived + n
    && after.replayBlocked == s.replayBlocked + (if n == |whole| then 0 else 1)
    && after.hmacFailures == s.hmacFailures
    && after.guard == GuardAfter(s.guard, whole[..Min(n + 1, |whole|)])
  }

  lemma FirstRefused(s: CodecState, t: CodecState, whole: seq<Frame>)
    requires whole != [] && AfterFrame(s, t, whole[0]) && !Accepts(s.guard, whole[0].sequence)
    ensures DecodesAs(s, t, Err(Replay), [], whole)
  {
    assert whole[..1][1..] == [];
  }

  lemma FirstTaken(
      s: CodecState, t: CodecState, after: CodecState, rest: Result<seq<Frame>, DecodeError>, passed: seq<Frame>,
      whole: seq<Frame>)
    requires whole != [] && AfterFrame(s, t, whole[0]) && Accepts(s.guard, whole[0].sequence)
    requires DecodesAs(t, after, rest, passed, whole[1..])
    ensures DecodesAs(s, after, Prepend([whole[0]], rest), [whole[0]] + passed, whole)
  {
    var n := Taken(t.guard, whole[1..]);
    var m := Min(n + 1, |whole[1..]|);
    assert [whole[0]] + whole[1..] == whole;
    assert [whole[0]] + whole[1..][..n] == whole[..n + 1];
    assert whole[..m + 1][1..] == whole[1..][..m] && whole[..m + 1][0] == whole[0];
  }

  /** The first frame decides: refused, it ends the batch; taken, the rest decides. */
  lemma FirstDecides(
      s: CodecState, t: CodecState, after: CodecState, got: Result<seq<Frame>, DecodeError>, passed: seq<Frame>,
      u: CodecState, rest: Result<seq<Frame>, DecodeError>, later: seq<Frame>, whole: seq<Frame>)
    requires whole != [] && AfterFrame(s, t, whole[0])
    requires
      if Accepts(s.guard, whole[0].sequence)
      then after == u && got == Prepend([whole[0]], rest) && passed == [whole[0]] + later
      else after == t && got == Err(Replay) && passed == []
    ensures
      (Accepts(s.guard, whole[0].sequence) ==> DecodesAs(t, u, rest, later, whole[1..]))
      ==> DecodesAs(s, after, got, passed, whole)
  {
    if !Accepts(s.guard, whole[0].sequence) {
      FirstRefused(s, t, whole);
    } else if DecodesAs(t, u, rest, later, whole[1..]) {
      FirstTaken(s, t, u, rest, later, whole);
    }
  }

  lemma FirstChunkDecides(
      link: RawLink, s: CodecState, data: Bytes, rest: Bytes, count: nat, whole: seq<Frame>)
    requires Lawful(link) && whole != [] && Encodable(whole[0]) && StartsWith(link, data, whole[0], rest) && count > 0
    ensures
      var t := Decode(link, s, Encoded(link, whole[0])).0;
      var got, later := DecodeChunks(link, s, data, count), DecodeChunks(link, t, rest, count - 1);
      (Accepts(s.guard, whole[0].sequence) ==>
         DecodesAs(t, later.0, later.1, LetThrough(link, t, rest, count - 1), whole[1..]))
      ==> DecodesAs(s, got.0, got.1, LetThrough(link, s, data, count), whole)
  {
    FirstChunkDecoded(link, s, data, whole[0], rest, count);
    FrameDecodes(link, s, whole[0]);
    var t := Decode(link, s, Encoded(link, whole[0])).0;
    var got, later := DecodeChunks(link, s, data, count), DecodeChunks(link, t, rest, count - 1);
    FirstDecides(s, t, got.0, got.1, LetThrough(link, s, data, count),
                 later.0, later.1, LetThrough(link, t, rest, count - 1), whole);
  }

  /** These bytes do what the first `k` frames should. */
  predicate CutFits(link: RawLink, s: CodecState, frames: seq<Frame>, data: Bytes, k: nat)
    requires k <= |frames|
  {
    var got := DecodeChunks(link, s, data, |frames|);
    DecodesAs(s, got.0, got.1, LetThrough(link, s, data, |frames|), frames[..k])
  }

  /** One whole frame more at the front. */
  lemma CutStep(link: RawLink, s: CodecState, frames: seq<Frame>, data: Bytes, rest: Bytes, k: nat)
    requires Lawful(link) && frames != [] && Encodable(frames[0]) && k < |frames|
    requires StartsWith(link, data, frames[0], rest)
    ensures
      (Accepts(s.guard, frames[0].sequence) ==>
         CutFits(link, Decode(link, s, Encoded(link, frames[0])).0, frames[1..], rest, k))
      ==> CutFits(link, s, frames, data, k + 1)
  {
    assert frames[..k + 1][1..] == frames[1..][..k];
    FirstChunkDecides(link, s, data, rest, |frames|, frames[..k + 1]);
  }

  lemma NothingWhole(link: RawLink, s: CodecState, frames: seq<Frame>, data: Bytes)
    requires frames == [] || |data| < 2 || 2 + U16(data[..2]) > |data|
    ensures CutFits(link, s, frames, data, 0)
  {
  }

  /** Any encodable frames, any guard, any cut of their chunks: the frames lying wholly in
      it come back iff the guard takes each in turn. */
  lemma {:induction false} PrefixDecodes(link: RawLink, s: CodecState, frames: seq<Frame>, data: Bytes)
    requires Lawful(link) && AllEncodable(frames) && data <= Chunks(link, frames)
    ensures CutFits(link, s, frames, data, WholeFrames(link, frames, |data|))
    decreases |frames|
  {
    if frames == [] {
      NothingWhole(link, s, frames, data);
    } else {
      var rest := FirstChunk(link, frames, data);
      if |data| < |Chunk(link, frames[0])| {
        NothingWhole(link, s, frames, data);
      } else {
        PrefixDecodes(link, Decode(link, s, Encoded(link, frames[0])).0, frames[1..], rest);
        CutStep(link, s, frames, data, rest, WholeFrames(link, frames[1..], |rest|));
      }
    }
  }

  /** The first `cut` bytes, or all of them. */
  function Prefix(data: Bytes, cut: nat): Bytes {
    if cut <= |data| then data[..cut] else data
  }

  lemma StreamParts(link: RawLink, frames: seq<Frame>)
    requires Lawful(link) && |frames| <= MAX_BATCH_SIZE
    ensures
      var stream := Stream(link, frames);
      |stream| >= 2 && U16(stream[..2]) == |frames| && stream[2..] == Chunks(link, frames)
  {
    U16OfBe16(|frames|);
    assert Stream(link, frames)[..2] == Be16(|frames|);
  }

  lemma TruncatedStream(link: RawLink, receiver: CodecState, frames: seq<Frame>, cut: nat)
    requires Lawful(link) && |frames| <= MAX_BATCH_SIZE && AllEncodable(frames)
    requires Sane(receiver.guard) && Ascending(frames, receiver.guard.highest)
    requires cut <= |Stream(link, frames)|
    ensures
      var (after, got) := DecodeBatch(link, receiver, Stream(link, frames)[..cut]);
      var k := WholeFrames(link, frames, cut - 2);
      got == Ok(frames[..k]) && after.framesReceived == receiver.framesReceived + k
  {
    var stream := Stream(link, frames);
    if cut >= 2 {
      U16OfBe16(|frames|);
      assert stream[..cut][..2] == Be16(|frames|);
      var data := stream[..cut][2..];
      assert data == Chunks(link, frames)[..cut - 2];
      PrefixDecodes(link, receiver, frames, data);
      AscendingAllTaken(receiver.guard, frames);
      TakenOfPrefix(receiver.guard, frames, WholeFrames(link, frames, cut - 2));
    }
  }

  /** Bytes beyond the end of the stream change nothing. */
  lemma CutAtEnd(link: RawLink, frames: seq<Frame>, cut: nat)
    requires Lawful(link) && |frames| <= MAX_BATCH_SIZE
    ensures
      var stream := Stream(link, frames);
      var within := Min(cut, |stream|);
      && Prefix(stream, cut) == stream[..within]
      && WholeFrames(link, frames, cut - 2) == WholeFrames(link, frames, within - 2)
  {
    var stream := Stream(link, frames);
    assert stream[..|stream|] == stream;
    if cut > |stream| {
      AllFit(link, frames, |stream| - 2);
      AllFit(link, frames, cut - 2);
    }
  }

  lemma StreamPrefix(link: RawLink, receiver: CodecState, frames: seq<Frame>, cut: nat)
    requires Lawful(link) && |frames| <= MAX_BATCH_SIZE && AllEncodable(frames)
    requires Sane(receiver.guard) && Ascending(frames, receiver.guard.highest)
    ensures
      var (after, got) := DecodeBatch(link, receiver, Prefix(Stream(link, frames), cut));
      var k := WholeFrames(link, frames, cut - 2);
      got == Ok(frames[..k]) && after.framesReceived == receiver.framesReceived + k
  {
    CutAtEnd(link, frames, cut);
    TruncatedStream(link, receiver, frames, Min(cut, |Stream(link, frames)|));
  }

  lemma FlushGivesStream(link: RawLink, sender: CodecState)
    requires Lawful(link) && |sender.buffer| <= MAX_BATCH_SIZE && AllEncodable(sender.buffer)
    ensures
      FlushBatch(link, sender).1 == Ok(if sender.buffer == [] then [] else Stream(link, sender.buffer))
  {
    assert FirstError(link, sender.buffer).None?;
  }

  /** Cut a flushed batch anywhere: a receiver that has seen nothing as high decodes
      exactly the frames that lie wholly before the cut, in order and without an error. */
  lemma TruncatedBatch(mac: Mac, sender: CodecState, receiver: CodecState, cut: nat)
    requires |sender.buffer| <= MAX_BATCH_SIZE && AllEncodable(sender.buffer)
    requires Sane(receiver.guard) && Ascending(sender.buffer, receiver.guard.highest)
    ensures
      var link := HmacLink(mac);
      var sent := FlushBatch(link, sender).1;
      && sent.Ok?
      && var (after, got) := DecodeBatch(link, receiver, Prefix(sent.value, cut));
         var k := WholeFrames(link, sender.buffer, cut - 2);
         got == Ok(sender.buffer[..k]) && after.framesReceived == receiver.framesReceived + k
  {
    FlushGivesStream(HmacLink(mac), sender);
    if sender.buffer != [] {
      StreamPrefix(HmacLink(mac), receiver, sender.buffer, cut);
    }
  }

  lemma PastTheEnd(link: RawLink, frames: seq<Frame>, cut: nat)
    requires Lawful(link) && |frames| <= MAX_BATCH_SIZE && cut > |Stream(link, frames)|
    ensures Prefix(Stream(link, frames), cut) == Stream(link, frames)
    ensures frames[..WholeFrames(link, frames, cut - 2)] == frames
  {
    AllFit(link, frames, cut - 2);
  }

  lemma WholeStream(link: RawLink, receiver: CodecState, frames: seq<Frame>)
    requires Lawful(link) && |frames| <= MAX_BATCH_SIZE && AllEncodable(frames)
    requires Sane(receiver.guard) && Ascending(frames, receiver.guard.highest)
    ensures DecodeBatch(link, receiver, Stream(link, frames)).1 == Ok(frames)
  {
    var cut := |Stream(link, frames)| + 1;
    PastTheEnd(link, frames, cut);
    StreamPrefix(link, receiver, frames, cut);
  }

  /** Uncut, the whole batch arrives. */
  lemma BatchRoundTrip(mac: Mac, sender: CodecState, receiver: CodecState)
    requires |sender.buffer| <= MAX_BATCH_SIZE && AllEncodable(sender.buffer)
    requires Sane(receiver.guard) && Ascending(sender.buffer, receiver.guard.highest)
    ensures
      var sent := FlushBatch(HmacLink(mac), sender).1;
      sent.Ok? && DecodeBatch(HmacLink(mac), receiver, sent.value).1 == Ok(sender.buffer)
  {
    FlushGivesStream(HmacLink(mac), sender);
    if sender.buffer != [] {
      WholeStream(HmacLink(mac), receiver, sender.buffer);
    }
  }

  lemma {:induction false} AllFit(link: RawLink, frames: seq<Frame>, room: nat)
    requires Lawful(link) && room >= |Chunks(link, frames)|
    ensures WholeFrames(link, frames, room) == |frames|
  {
    if frames != [] {
      AllFit(link, frames[1..], room - |Chunk(link, frames[0])|);
    }
  }

  // ---- A sender's run ----

  datatype Send =
    | One(eventType: EventType, payload: Option<Bytes>, now: int)
    | Add(eventType: EventType, bytes: Bytes, now: int)
    | Flush

  /** The codec after one sending call, and the frames that call put on the wire. */
  function SendStep(link: RawLink, s: CodecState, e: Send): (CodecState, seq<Frame>)
    requires Lawful(link) && |s.buffer| <= MAX_BATCH_SIZE
  {
    match e
    case One(t, payload, now) =>
      var (after, r) := Encode(link, s, t, payload, now);
      (after, if r.Ok? then [Frame(PROTOCOL_VERSION, t, s.sendSeq + 1, now, payload.value, 0)] else [])
    case Add(t, bytes, now) => (BatchAdd(s, t, bytes, now).0, [])
    case Flush =>
      var (after, r) := FlushBatch(link, s);
      (after, if r.Ok? then s.buffer else [])
  }

  function SendRun(link: RawLink, window: int, es: seq<Send>): (s: CodecState)
    requires Lawful(link)
    ensures |s.buffer| <= MAX_BATCH_SIZE
  {
    if es == [] then FreshCodec(window) else SendStep(link, SendRun(link, window, Front(es)), Last(es)).0
  }

  /** Everything the run put on the wire. */
  function Emitted(link: RawLink, window: int, es: seq<Send>): seq<Frame>
    requires Lawful(link)
  {
    if es == [] then []
    else Emitted(link, window, Front(es)) + SendStep(link, SendRun(link, window, Front(es)), Last(es)).1
  }

  /** What a frame cannot carry: a payload that does not pack or is too long, a clock or a
      number beyond 32 bits. */
  predicate Unsendable(payload: Option<Bytes>, now: int, number: int) {
    || payload.None? || |payload.value| > MAX_PAYLOAD_SIZE
    || !(0 <= now < 0x1_0000_0000) || number >= 0x1_0000_0000
  }

  /** A single send raises exactly on those inputs. */
  lemma SendRaisesIff(link: RawLink, s: CodecState, t: EventType, payload: Option<Bytes>, now: int)
    requires Lawful(link)
    ensures Encode(link, s, t, payload, now).1.Err? <==> Unsendable(payload, now, s.sendSeq + 1)
  {
    if payload.Some? {
      assert link.encode(Frame(PROTOCOL_VERSION, t, s.sendSeq + 1, now, payload.value, 0)).Ok?
        <==> !Unsendable(payload, now, s.sendSeq + 1);
    }
  }

  /** Event `k` is a single send of something that cannot be sent. */
  predicate FailsAt(link: RawLink, window: int, es: seq<Send>, k: nat)
    requires Lawful(link) && k < |es|
  {
    es[k].One? && Unsendable(es[k].payload, es[k].now, SendRun(link, window, es[..k]).sendSeq + 1)
  }

  /** How many single sends raised: each has used up a sequence number. */
  function Failures(link: RawLink, window: int, es: seq<Send>): nat
    requires Lawful(link)
  {
    if es == [] then 0
    else Failures(link, window, Front(es)) + (if FailsAt(link, window, es, |es| - 1) then 1 else 0)
  }

  lemma {:induction false} NoFailuresIff(link: RawLink, window: int, es: seq<Send>)
    requires Lawful(link)
    ensures Failures(link, window, es) == 0 <==> forall k :: 0 <= k < |es| ==> !FailsAt(link, window, es, k)
  {
    if es != [] {
      NoFailuresIff(link, window, Front(es));
      forall k | 0 <= k < |es| - 1 ensures FailsAt(link, window, Front(es), k) <==> FailsAt(link, window, es, k) {
        assert Front(es)[..k] == es[..k];
      }
    }
  }

  /** `frames_sent` plus the batch buffer falls short of the sequence counter by exactly
      the failed sends. */
  lemma {:induction false} SentFallsShort(link: RawLink, window: int, es: seq<Send>)
    requires Lawful(link)
    ensures
      var s := SendRun(link, window, es);
      && s.framesSent + |s.buffer| + Failures(link, window, es) == s.sendSeq
      && s.framesSent == |Emitted(link, window, es)|
  {
    if es != [] {
      SentFallsShort(link, window, Front(es));
      var e, s := Last(es), SendRun(link, window, Front(es));
      if e.One? {
        SendRaisesIff(link, s, e.eventType, e.payload, e.now);
      }
    }
  }

  /** So counter, sent and buffered agree iff no single send was given something that
      cannot be sent under its number. */
  lemma SentAccounting(link: RawLink, window: int, es: seq<Send>)
    requires Lawful(link)
    ensures
      var s := SendRun(link, window, es);
      s.framesSent + |s.buffer| == s.sendSeq <==> forall k :: 0 <= k < |es| ==> !FailsAt(link, window, es, k)
  {
    SentFallsShort(link, window, es);
    NoFailuresIff(link, window, es);
  }

  /** Two first sends that use up a number: a payload that does not pack, and any payload
      once the clock has passed 2^32 milliseconds (some fifty days). */
  lemma FailedSendUsesNumber(link: RawLink, window: int, t: EventType, payload: Option<Bytes>, now: int)
    requires Lawful(link) && (payload.None? || now >= 0x1_0000_0000)
    ensures
      var s := SendRun(link, window, [One(t, payload, now)]);
      s.sendSeq == 1 && s.framesSent == 0 && s.buffer == []
  {
    var es := [One(t, payload, now)];
    assert Front(es) == [];
    SendRaisesIff(link, FreshCodec(window), t, payload, now);
  }

  ghost predicate Numbered(frames: seq<Frame>, upTo: int) {
    forall f :: f in frames ==> 1 <= f.sequence <= upTo
  }

  ghost predicate UniqueNumbers(frames: seq<Frame>) {
    forall f, g :: f in frames && g in frames && f.sequence == g.sequence ==> f == g
  }

  lemma {:induction false} AscendingAbove(frames: seq<Frame>, above: int, f: Frame)
    requires Ascending(frames, above) && f in frames
    ensures f.sequence > above
  {
    if f != frames[0] {
      AscendingAbove(frames[1..], frames[0].sequence, f);
    }
  }

  lemma {:induction false} AscendingUnique(frames: seq<Frame>, above: int)
    requires Ascending(frames, above)
    ensures UniqueNumbers(frames)
  {
    if frames != [] {
      var rest := frames[1..];
      AscendingUnique(rest, frames[0].sequence);
      forall f | f in rest ensures f.sequence > frames[0].sequence {
        AscendingAbove(rest, frames[0].sequence, f);
      }
      assert frames == [frames[0]] + rest;
    }
  }

  lemma {:induction false} AscendingSnoc(frames: seq<Frame>, above: int, f: Frame)
    requires Ascending(frames, above) && f.sequence > above && forall g :: g in frames ==> g.sequence < f.sequence
    ensures Ascending(frames + [f], above)
  {
    if frames != [] {
      assert (frames + [f])[1..] == frames[1..] + [f];
      AscendingSnoc(frames[1..], frames[0].sequence, f);
    }
  }

  /** Numbering: a buffer in ascending order, and no number on the wire twice. */
  ghost predicate WellNumbered(link: RawLink, upTo: int, buffer: seq<Frame>, emitted: seq<Frame>) {
    && Numbered(emitted, upTo) && Numbered(buffer, upTo) && Ascending(buffer, 0)
    && UniqueNumbers(emitted)
    && (forall f, g :: f in emitted && g in buffer ==> f.sequence != g.sequence)
    && (forall f :: f in emitted ==> link.encode(f).Ok?)
  }

  lemma AddKeepsNumbering(link: RawLink, upTo: nat, buffer: seq<Frame>, emitted: seq<Frame>, f: Frame)
    requires WellNumbered(link, upTo, buffer, emitted) && f.sequence == upTo + 1
    ensures WellNumbered(link, upTo + 1, buffer + [f], emitted)
  {
    AscendingSnoc(buffer, 0, f);
  }

  lemma FlushKeepsNumbering(link: RawLink, upTo: nat, buffer: seq<Frame>, emitted: seq<Frame>)
    requires WellNumbered(link, upTo, buffer, emitted) && forall f :: f in buffer ==> link.encode(f).Ok?
    ensures WellNumbered(link, upTo, [], emitted + buffer)
  {
    AscendingUnique(buffer, 0);
  }

  lemma OneKeepsNumbering(link: RawLink, upTo: nat, buffer: seq<Frame>, emitted: seq<Frame>, f: Frame)
    requires WellNumbered(link, upTo, buffer, emitted) && f.sequence == upTo + 1 && link.encode(f).Ok?
    ensures WellNumbered(link, upTo + 1, buffer, emitted + [f])
  {
  }

  lemma SkipKeepsNumbering(link: RawLink, upTo: nat, buffer: seq<Frame>, emitted: seq<Frame>)
    requires WellNumbered(link, upTo, buffer, emitted)
    ensures WellNumbered(link, upTo, buffer, emitted + []) && WellNumbered(link, upTo + 1, buffer, emitted + [])
  {
    assert emitted + [] == emitted;
  }

  lemma OneStepKeepsNumbering(link: RawLink, s: CodecState, emitted: seq<Frame>, e: Send)
    requires Lawful(link) && |s.buffer| <= MAX_BATCH_SIZE && e.One?
    requires WellNumbered(link, s.sendSeq, s.buffer, emitted)
    ensures
      var (t, more) := SendStep(link, s, e);
      WellNumbered(link, t.sendSeq, t.buffer, emitted + more)
  {
    SkipKeepsNumbering(link, s.sendSeq, s.buffer, emitted);
    if Encode(link, s, e.eventType, e.payload, e.now).1.Ok? {
      OneKeepsNumbering(link, s.sendSeq, s.buffer, emitted,
        Frame(PROTOCOL_VERSION, e.eventType, s.sendSeq + 1, e.now, e.payload.value, 0));
    }
  }

  lemma AddStepKeepsNumbering(link: RawLink, s: CodecState, emitted: seq<Frame>, e: Send)
    requires Lawful(link) && |s.buffer| <= MAX_BATCH_SIZE && e.Add?
    requires WellNumbered(link, s.sendSeq, s.buffer, emitted)
    ensures
      var (t, more) := SendStep(link, s, e);
      WellNumbered(link, t.sendSeq, t.buffer, emitted + more)
  {
    if |s.buffer| < MAX_BATCH_SIZE {
      var f := Frame(PROTOCOL_VERSION, e.eventType, s.sendSeq + 1, e.now, e.bytes, BATCHED);
      AddKeepsNumbering(link, s.sendSeq, s.buffer, emitted, f);
      SkipKeepsNumbering(link, s.sendSeq + 1, s.buffer + [f], emitted);
    } else {
      SkipKeepsNumbering(link, s.sendSeq, s.buffer, emitted);
    }
  }

  lemma FlushStepKeepsNumbering(link: RawLink, s: CodecState, emitted: seq<Frame>, e: Send)
    requires Lawful(link) && |s.buffer| <= MAX_BATCH_SIZE && e.Flush?
    requires WellNumbered(link, s.sendSeq, s.buffer, emitted)
    ensures
      var (t, more) := SendStep(link, s, e);
      WellNumbered(link, t.sendSeq, t.buffer, emitted + more)
  {
    SkipKeepsNumbering(link, s.sendSeq, s.buffer, emitted);
    if FirstError(link, s.buffer).None? {
      FlushKeepsNumbering(link, s.sendSeq, s.buffer, emitted);
    }
  }

  lemma {:induction false} RunKeepsNumbering(link: RawLink, window: int, es: seq<Send>)
    requires Lawful(link)
    ensures
      var s := SendRun(link, window, es);
      WellNumbered(link, s.sendSeq, s.buffer, Emitted(link, window, es))
  {
    if es != [] {
      RunKeepsNumbering(link, window, Front(es));
      var s, emitted, e := SendRun(link, window, Front(es)), Emitted(link, window, Front(es)), Last(es);
      match e {
        case One(_, _, _) => OneStepKeepsNumbering(link, s, emitted, e);
        case Add(_, _, _) => AddStepKeepsNumbering(link, s, emitted, e);
        case Flush => FlushStepKeepsNumbering(link, s, emitted, e);
      }
    }
  }

  lemma AscendingFromFirst(frames: seq<Frame>, low: int, high: int)
    requires Ascending(frames, low) && (frames != [] ==> frames[0].sequence > high)
    ensures Ascending(frames, high)
  {
  }

  // ---- Batches that go wrong ----

  /** A flush succeeds exactly when every buffered frame can be encoded. */
  lemma FlushOkIff(link: RawLink, s: CodecState)
    requires Lawful(link) && |s.buffer| <= MAX_BATCH_SIZE
    ensures FlushBatch(link, s).1.Ok? <==> AllEncodable(s.buffer)
  {
  }

  /** Adding to a batch checks nothing: what cannot be sent spoils the batch. */
  lemma AddSpoilsIff(s: CodecState, t: EventType, bytes: Bytes, now: int)
    requires |s.buffer| < MAX_BATCH_SIZE && AllEncodable(s.buffer)
    ensures AllEncodable(BatchAdd(s, t, bytes, now).0.buffer) <==> !Unsendable(Some(bytes), now, s.sendSeq + 1)
  {
    var f := Frame(PROTOCOL_VERSION, t, s.sendSeq + 1, now, bytes, BATCHED);
    assert f in s.buffer + [f];
    assert Encodable(f) <==> !Unsendable(Some(bytes), now, s.sendSeq + 1);
  }

  /** A frame that cannot be encoded is never got rid of: from then on every flush fails,
      and the buffer only grows. */
  lemma {:induction false} PoisonedBatchStays(link: RawLink, window: int, es: seq<Send>, more: seq<Send>, f: Frame)
    requires Lawful(link) && f in SendRun(link, window, es).buffer && !Encodable(f)
    ensures f in SendRun(link, window, es + more).buffer
    ensures FlushBatch(link, SendRun(link, window, es + more)).1.Err?
    ensures SendRun(link, window, es).buffer <= SendRun(link, window, es + more).buffer
  {
    if more == [] {
      assert es + more == es;
    } else {
      PoisonedBatchStays(link, window, es, Front(more), f);
      assert Front(es + more) == es + Front(more);
    }
  }

  /** One oversized payload, added first: no flush ever succeeds. */
  lemma OversizedAddBlocksBatch(link: RawLink, window: int, t: EventType, bytes: Bytes, now: int, more: seq<Send>)
    requires Lawful(link) && |bytes| > MAX_PAYLOAD_SIZE
    ensures FlushBatch(link, SendRun(link, window, [Add(t, bytes, now)] + more)).1.Err?
  {
    var es, f := [Add(t, bytes, now)], Frame(PROTOCOL_VERSION, t, 1, now, bytes, BATCHED);
    assert Front(es) == [] && [] + [f] == [f];
    assert f in SendRun(link, window, es).buffer;
    PoisonedBatchStays(link, window, es, more, f);
  }

  lemma WholeChunks(link: RawLink, s: CodecState, frames: seq<Frame>)
    requires Lawful(link) && AllEncodable(frames)
    ensures
      var chunks := Chunks(link, frames);
      var got := DecodeChunks(link, s, chunks, |frames|);
      DecodesAs(s, got.0, got.1, LetThrough(link, s, chunks, |frames|), frames)
  {
    var chunks := Chunks(link, frames);
    AllFit(link, frames, |chunks|);
    PrefixDecodes(link, s, frames, chunks);
    assert frames[..|frames|] == frames;
  }

  lemma StreamIsChunks(link: RawLink, s: CodecState, frames: seq<Frame>)
    requires Lawful(link) && |frames| <= MAX_BATCH_SIZE
    ensures DecodeBatch(link, s, Stream(link, frames)) == DecodeChunks(link, s, Chunks(link, frames), |frames|)
    ensures PassedOf(link, s, Stream(link, frames)) == LetThrough(link, s, Chunks(link, frames), |frames|)
  {
    StreamParts(link, frames);
  }

  /** A whole batch at any receiver: it returns all its frames iff the guard accepts every
      number in turn. Otherwise it raises, and exactly the frames before the first
      refused one have passed the guard without being returned. */
  lemma BatchFate(link: RawLink, s: CodecState, frames: seq<Frame>)
    requires Lawful(link) && |frames| <= MAX_BATCH_SIZE && AllEncodable(frames)
    ensures
      var got := DecodeBatch(link, s, Stream(link, frames));
      DecodesAs(s, got.0, got.1, PassedOf(link, s, Stream(link, frames)), frames)
  {
    StreamIsChunks(link, s, frames);
    WholeChunks(link, s, frames);
  }

  /** What a batch loses, and when it loses nothing: all its numbers are accepted in turn,
      or already the first is not. */
  lemma LossIff(link: RawLink, s: CodecState, frames: seq<Frame>)
    requires Lawful(link) && |frames| <= MAX_BATCH_SIZE && AllEncodable(frames)
    ensures
      var n, lost := Taken(s.guard, frames), LostIn(link, s, Stream(link, frames));
      && lost == (if n == |frames| then [] else frames[..n])
      && (lost == [] <==> n == |frames| || n == 0)
  {
    BatchFate(link, s, frames);
  }

  /** A good frame with one that does not decode behind it: the batch raises, and the good
      frame is used up without being returned. */
  lemma BadChunkLosesFrame(link: RawLink, s: CodecState, f: Frame, bad: Bytes)
    requires Lawful(link) && Encodable(f) && Sane(s.guard) && f.sequence > s.guard.highest && s.guard.window >= 1
    requires |bad| < 0x1_0000 && link.decode(bad).Err?
    ensures
      var data := Be16(2) + (Chunk(link, f) + (Be16(|bad|) + bad));
      var (after, got) := DecodeBatch(link, s, data);
      && got == Err(Malformed(link.decode(bad).error)) && LostIn(link, s, data) == [f]
      && !Accepts(after.guard, f.sequence)
  {
    var rest := Be16(|bad|) + bad;
    var body := Chunk(link, f) + rest;
    var data, t := Be16(2) + body, Decode(link, s, Encoded(link, f)).0;
    U16OfBe16(2);
    assert data[..2] == Be16(2) && data[2..] == body;
    ChunkInFront(link, f, rest);
    FirstChunkDecoded(link, s, body, f, rest, 2);
    FrameDecodes(link, s, f);
    BadChunkDecoded(link, t, bad);
  }

  lemma ChunkInFront(link: RawLink, f: Frame, rest: Bytes)
    requires Lawful(link)
    ensures StartsWith(link, Chunk(link, f) + rest, f, rest)
  {
    var data, wire := Chunk(link, f) + rest, Encoded(link, f);
    U16OfBe16(|wire|);
    assert data[..2] == Be16(|wire|);
  }

  lemma BadChunkDecoded(link: RawLink, s: CodecState, bad: Bytes)
    requires |bad| < 0x1_0000 && link.decode(bad).Err?
    ensures
      var (after, got) := DecodeChunks(link, s, Be16(|bad|) + bad, 1);
      && got == Err(Malformed(link.decode(bad).error)) && after.guard == s.guard
      && LetThrough(link, s, Be16(|bad|) + bad, 1) == []
  {
    var data := Be16(|bad|) + bad;
    U16OfBe16(|bad|);
    assert data[..2] == Be16(|bad|) && data[2..2 + |bad|] == bad;
  }

  lemma DamagedOnWire(mac: Mac, f: Frame, i: nat, b: byte)
    requires Encodable(f) && i < HMAC_SIZE
    ensures
      var link := HmacLink(mac);
      var wire := Encoded(link, f);
      && |wire| >= HMAC_SIZE
      && var at := |wire| - HMAC_SIZE + i;
         wire[at] != b ==> link.decode(wire[at := b]) == Err(BadMac)
  {
    DamagedTag(mac, f, i, b);
    assert HmacLink(mac).encode(f) == ToWire(mac, f);
  }

  /** For example, two frames of a sender of which the second had a byte of its tag changed
      on the way. */
  lemma DamagedTagLosesFrame(mac: Mac, s: CodecState, f: Frame, g: Frame, at: nat, bad: Bytes)
    requires Encodable(f) && Encodable(g)
    requires Sane(s.guard) && f.sequence > s.guard.highest && s.guard.window >= 1
    ensures
      var link := HmacLink(mac);
      var wire := Encoded(link, g);
      (&& |wire| - HMAC_SIZE <= at < |wire| == |bad| && bad[at] != wire[at]
       && bad == wire[at := bad[at]])
      ==>
        var data := Be16(2) + (Chunk(link, f) + (Be16(|bad|) + bad));
        && DecodeBatch(link, s, data).1 == Err(Malformed(BadMac))
        && LostIn(link, s, data) == [f]
  {
    var link := HmacLink(mac);
    var wire := Encoded(link, g);
    if |wire| - HMAC_SIZE <= at < |wire| == |bad| && bad[at] != wire[at] && bad == wire[at := bad[at]] {
      DamagedOnWire(mac, g, at - (|wire| - HMAC_SIZE), bad[at]);
      BadChunkLosesFrame(link, s, f, bad);
    }
  }

  /** A batch with one frame twice: the second copy raises, the first is dropped with it,
      and the guard takes no further copy. */
  lemma DuplicateInBatchLosesFrame(link: RawLink, s: CodecState, f: Frame)
    requires Lawful(link) && Encodable(f) && Sane(s.guard) && f.sequence > s.guard.highest && s.guard.window >= 1
    ensures
      var (after, got) := DecodeBatch(link, s, Stream(link, [f, f]));
      got == Err(Replay) && !Accepts(after.guard, f.sequence) && after.framesReceived == s.framesReceived + 1
  {
    BatchFate(link, s, [f, f]);
    var once := CheckAndAccept(s.guard, f.sequence);
    assert [f, f][1..] == [f] && [f, f][..2] == [f, f] && [f][1..] == [];
    assert Taken(once, [f]) == 0;
    assert GuardAfter(once, [f]) == CheckAndAccept(once, f.sequence);
  }
}
