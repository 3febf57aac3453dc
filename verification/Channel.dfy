/** An unreliable channel between two codecs: it drops, repeats, reorders, garbles and cuts. */
module Channel {
  import opened Common
  import opened WireFrame
  import opened ReplayGuard
  import opened InputCodec
  import opened Outbox
  import opened Transport

  // ---- Single frames ----

  function Receive(link: RawLink, window: int, arrivals: seq<Bytes>): CodecState {
    if arrivals == [] then FreshCodec(window)
    else Decode(link, Receive(link, window, Front(arrivals)), Last(arrivals)).0
  }

  function Fruit(r: Result<Frame, DecodeError>): seq<Frame> {
    if r.Ok? then [r.value] else []
  }

  /** What `decode` returned over the run, in order. */
  function Delivered(link: RawLink, window: int, arrivals: seq<Bytes>): seq<Frame> {
    if arrivals == [] then []
    else
      Delivered(link, window, Front(arrivals))
      + Fruit(Decode(link, Receive(link, window, Front(arrivals)), Last(arrivals)).1)
  }

  ghost function Numbers(frames: seq<Frame>): multiset<int> {
    if frames == [] then multiset{} else Numbers(Front(frames)) + multiset{Last(frames).sequence}
  }

  lemma {:induction false} NumbersCountFrames(sent: seq<Frame>, frames: seq<Frame>, f: Frame)
    requires UniqueNumbers(sent) && f in sent && forall g :: g in frames ==> g in sent
    ensures Numbers(frames)[f.sequence] == multiset(frames)[f]
  {
    if frames != [] {
      assert frames == Front(frames) + [Last(frames)];
      assert Last(frames) in frames;
      NumbersCountFrames(sent, Front(frames), f);
    }
  }

  /** Nothing that decodes was made by anyone but the sender. */
  ghost predicate Unforged(link: RawLink, sent: seq<Frame>, data: Bytes)
    requires Lawful(link)
  {
    link.decode(data).Ok? ==> exists f :: f in sent && data == Encoded(link, f)
  }

  /** Such a copy of frame f arrives while the receiver's highest is below f's number + window. */
  ghost predicate Timely(link: RawLink, sent: seq<Frame>, g: GuardState, data: Bytes)
    requires Lawful(link)
  {
    forall f :: f in sent && data == Encoded(link, f) ==> g.highest < f.sequence + g.window
  }

  ghost predicate OnceEach(link: RawLink, sent: seq<Frame>, g: GuardState, delivered: seq<Frame>, arrived: seq<Bytes>)
    requires Lawful(link)
  {
    && Remembers(g, Numbers(delivered))
    && (forall f :: f in delivered ==> f in sent)
    && (forall f :: f in sent ==> multiset(delivered)[f] == (if Encoded(link, f) in arrived then 1 else 0))
  }

  lemma RejectedKeepsOnce(
      link: RawLink, sent: seq<Frame>, s: CodecState, delivered: seq<Frame>, arrived: seq<Bytes>, data: Bytes)
    requires Lawful(link) && (forall f :: f in sent ==> link.encode(f).Ok?)
    requires OnceEach(link, sent, s.guard, delivered, arrived)
    requires link.decode(data).Err?
    ensures OnceEach(link, sent, Decode(link, s, data).0.guard, delivered, arrived + [data])
  {
    forall f | f in sent ensures data != Encoded(link, f) {
      assert link.decode(link.encode(f).value) == Ok(f);
    }
  }

  /** The heart of it: a timely number is accepted iff it was not accepted before. */
  lemma TimelyAcceptedIffNew(g: GuardState, h: multiset<int>, sequence: int)
    requires Remembers(g, h) && g.highest < sequence + g.window
    ensures Accepts(g, sequence) <==> h[sequence] == 0
  {
  }

  lemma CountOneMore<T>(s: seq<T>, x: T, y: T)
    ensures multiset(s + [x])[y] == multiset(s)[y] + (if x == y then 1 else 0)
  {
  }

  lemma DistinctOnWire(link: RawLink, e: Frame, f: Frame)
    requires Lawful(link) && link.encode(e).Ok? && link.encode(f).Ok? && e != f
    ensures Encoded(link, e) != Encoded(link, f)
  {
    assert link.decode(link.encode(e).value) == Ok(e) && link.decode(link.encode(f).value) == Ok(f);
  }

  lemma NewCopyCounts(
      link: RawLink, delivered: seq<Frame>, arrived: seq<Bytes>, f: Frame, e: Frame)
    requires Lawful(link) && link.encode(e).Ok? && link.encode(f).Ok?
    requires multiset(delivered)[e] == (if Encoded(link, e) in arrived then 1 else 0)
    requires Encoded(link, f) !in arrived
    ensures multiset(delivered + [f])[e] == (if Encoded(link, e) in arrived + [Encoded(link, f)] then 1 else 0)
  {
    CountOneMore(delivered, f, e);
    if e != f {
      DistinctOnWire(link, e, f);
    }
  }

  lemma NewCopyDelivered(
      link: RawLink, sent: seq<Frame>, g: GuardState, delivered: seq<Frame>, arrived: seq<Bytes>, f: Frame)
    requires Lawful(link) && (forall e :: e in sent ==> link.encode(e).Ok?)
    requires OnceEach(link, sent, g, delivered, arrived)
    requires f in sent && Encoded(link, f) !in arrived && Accepts(g, f.sequence)
    ensures OnceEach(link, sent, CheckAndAccept(g, f.sequence), delivered + [f], arrived + [Encoded(link, f)])
  {
    CheckKeepsMemory(g, Numbers(delivered), f.sequence);
    assert Front(delivered + [f]) == delivered;
    forall e | e in sent
      ensures multiset(delivered + [f])[e] == (if Encoded(link, e) in arrived + [Encoded(link, f)] then 1 else 0)
    {
      NewCopyCounts(link, delivered, arrived, f, e);
    }
  }

  lemma RepeatedCopyBlocked(
      link: RawLink, sent: seq<Frame>, g: GuardState, delivered: seq<Frame>, arrived: seq<Bytes>, f: Frame)
    requires Lawful(link)
    requires OnceEach(link, sent, g, delivered, arrived)
    requires f in sent && Encoded(link, f) in arrived && !Accepts(g, f.sequence)
    ensures OnceEach(link, sent, CheckAndAccept(g, f.sequence), delivered, arrived + [Encoded(link, f)])
  {
    CheckKeepsMemory(g, Numbers(delivered), f.sequence);
    assert Numbers(delivered) + multiset{} == Numbers(delivered);
  }

  lemma CopyKeepsOnce(
      link: RawLink, sent: seq<Frame>, s: CodecState, delivered: seq<Frame>, arrived: seq<Bytes>, f: Frame)
    requires Lawful(link) && UniqueNumbers(sent) && (forall g :: g in sent ==> link.encode(g).Ok?)
    requires OnceEach(link, sent, s.guard, delivered, arrived)
    requires f in sent && s.guard.highest < f.sequence + s.guard.window
    ensures
      var (t, r) := Decode(link, s, Encoded(link, f));
      OnceEach(link, sent, t.guard, delivered + Fruit(r), arrived + [Encoded(link, f)])
  {
    NumbersCountFrames(sent, delivered, f);
    TimelyAcceptedIffNew(s.guard, Numbers(delivered), f.sequence);
    if Accepts(s.guard, f.sequence) {
      NewCopyDelivered(link, sent, s.guard, delivered, arrived, f);
    } else {
      RepeatedCopyBlocked(link, sent, s.guard, delivered, arrived, f);
      assert delivered + [] == delivered;
    }
  }

  ghost predicate TimelyArrivals(link: RawLink, window: int, sent: seq<Frame>, arrivals: seq<Bytes>)
    requires Lawful(link)
  {
    arrivals == [] ||
    (&& TimelyArrivals(link, window, sent, Front(arrivals))
     && Timely(link, sent, Receive(link, window, Front(arrivals)).guard, Last(arrivals)))
  }

  lemma ArrivalKeepsOnce(
      link: RawLink, sent: seq<Frame>, s: CodecState, delivered: seq<Frame>, arrived: seq<Bytes>, data: Bytes)
    requires Lawful(link) && UniqueNumbers(sent) && (forall f :: f in sent ==> link.encode(f).Ok?)
    requires OnceEach(link, sent, s.guard, delivered, arrived)
    requires Unforged(link, sent, data) && Timely(link, sent, s.guard, data)
    ensures
      var (t, r) := Decode(link, s, data);
      OnceEach(link, sent, t.guard, delivered + Fruit(r), arrived + [data])
  {
    if link.decode(data).Ok? {
      var f :| f in sent && data == Encoded(link, f);
      CopyKeepsOnce(link, sent, s, delivered, arrived, f);
    } else {
      RejectedKeepsOnce(link, sent, s, delivered, arrived, data);
      assert delivered + [] == delivered;
    }
  }

  lemma {:induction false} DeliversOnce(link: RawLink, window: int, sent: seq<Frame>, arrivals: seq<Bytes>)
    requires Lawful(link) && UniqueNumbers(sent) && (forall f :: f in sent ==> link.encode(f).Ok?)
    requires (forall data :: data in arrivals ==> Unforged(link, sent, data))
    requires TimelyArrivals(link, window, sent, arrivals)
    ensures OnceEach(link, sent, Receive(link, window, arrivals).guard, Delivered(link, window, arrivals), arrivals)
  {
    if arrivals != [] {
      var before, data := Front(arrivals), Last(arrivals);
      assert arrivals == before + [data];
      DeliversOnce(link, window, sent, before);
      ArrivalKeepsOnce(link, sent, Receive(link, window, before), Delivered(link, window, before), before, data);
    }
  }

  /** Only the sender can make authentic frames: what carries a valid tag was sent. */
  ghost predicate Unforgeable(mac: Mac, sent: seq<Frame>, arrivals: seq<Bytes>) {
    forall data :: data in arrivals && Authentic(mac, data) ==>
      exists f :: f in sent && data == Encoded(HmacLink(mac), f)
  }

  /** Exactly once: whatever the sender did and the network dropped, repeated, reordered
      or garbled, if authentic frames cannot be forged and every copy of a frame arrives
      before the window has passed it, then each frame on the wire that arrives at least
      once is delivered once and unchanged, and nothing else is delivered. */
  lemma ExactlyOnce(mac: Mac, window: int, sends: seq<Send>, arrivals: seq<Bytes>)
    ensures
      var link := HmacLink(mac);
      var sent, delivered := Emitted(link, window, sends), Delivered(link, window, arrivals);
      Unforgeable(mac, sent, arrivals) && TimelyArrivals(link, window, sent, arrivals) ==>
        && (forall f :: f in sent ==>
              multiset(delivered)[f] == (if Encoded(link, f) in arrivals then 1 else 0))
        && (forall f :: f in delivered ==> f in sent)
  {
    var link := HmacLink(mac);
    var sent := Emitted(link, window, sends);
    if Unforgeable(mac, sent, arrivals) && TimelyArrivals(link, window, sent, arrivals) {
      RunKeepsNumbering(link, window, sends);
      forall data | data in arrivals ensures Unforged(link, sent, data) {
        AcceptedIff(mac, data);
      }
      DeliversOnce(link, window, sent, arrivals);
    }
  }

  // ---- Whole batches among the arrivals ----

  /** Bytes passed to `decode`, or to `decode_batch`. */
  datatype Arrival = Single(data: Bytes) | Batch(data: Bytes)

  function Arrive(link: RawLink, s: CodecState, a: Arrival): CodecState {
    if a.Single? then Decode(link, s, a.data).0 else DecodeBatch(link, s, a.data).0
  }

  function ReceiveMixed(link: RawLink, window: int, arrivals: seq<Arrival>): CodecState {
    if arrivals == [] then FreshCodec(window)
    else Arrive(link, ReceiveMixed(link, window, Front(arrivals)), Last(arrivals))
  }

  function ReturnedBy(link: RawLink, s: CodecState, a: Arrival): seq<Frame> {
    if a.Single? then Fruit(Decode(link, s, a.data).1)
    else
      var r := DecodeBatch(link, s, a.data).1;
      if r.Ok? then r.value else []
  }

  /** What the calls returned over the run, in order. */
  function Returned(link: RawLink, window: int, arrivals: seq<Arrival>): seq<Frame> {
    if arrivals == [] then []
    else
      Returned(link, window, Front(arrivals))
      + ReturnedBy(link, ReceiveMixed(link, window, Front(arrivals)), Last(arrivals))
  }

  function LostBy(link: RawLink, s: CodecState, a: Arrival): seq<Frame> {
    if a.Single? then [] else LostIn(link, s, a.data)
  }

  /** What the guard used up in batches that raised. */
  function Lost(link: RawLink, window: int, arrivals: seq<Arrival>): seq<Frame> {
    if arrivals == [] then []
    else
      Lost(link, window, Front(arrivals))
      + LostBy(link, ReceiveMixed(link, window, Front(arrivals)), Last(arrivals))
  }

  /** The byte strings a batch decodes one by one, up to the first that raises. */
  function Pieces(link: RawLink, s: CodecState, data: Bytes, count: nat): seq<Bytes>
    decreases count
  {
    if count == 0 || |data| < 2 || 2 + U16(data[..2]) > |data| then []
    else
      var end := 2 + U16(data[..2]);
      var (t, r) := Decode(link, s, data[2..end]);
      [data[2..end]] + (if r.Err? then [] else Pieces(link, t, data[end..], count - 1))
  }

  function PiecesOf(link: RawLink, s: CodecState, a: Arrival): seq<Bytes> {
    if a.Single? then [a.data]
    else if |a.data| < 2 then []
    else Pieces(link, s, a.data[2..], U16(a.data[..2]))
  }

  /** Everything that was decoded as a frame over the run. */
  function AllPieces(link: RawLink, window: int, arrivals: seq<Arrival>): seq<Bytes> {
    if arrivals == [] then []
    else
      AllPieces(link, window, Front(arrivals))
      + PiecesOf(link, ReceiveMixed(link, window, Front(arrivals)), Last(arrivals))
  }

  lemma ReceiveSnoc(link: RawLink, window: int, before: seq<Bytes>, data: Bytes)
    ensures Receive(link, window, before + [data]) == Decode(link, Receive(link, window, before), data).0
    ensures Delivered(link, window, before + [data])
         == Delivered(link, window, before) + Fruit(Decode(link, Receive(link, window, before), data).1)
  {
    assert Front(before + [data]) == before;
  }

  /** Decoding these pieces one by one goes from `before` to `after` and delivers `frames`. */
  predicate RunsOn(
      link: RawLink, window: int, before: seq<Bytes>, pieces: seq<Bytes>, after: CodecState, frames: seq<Frame>)
  {
    && Receive(link, window, before + pieces) == after
    && Delivered(link, window, before + pieces) == Delivered(link, window, before) + frames
  }

  lemma OnePieceMore(
      link: RawLink, window: int, before: seq<Bytes>, piece: Bytes, rest: seq<Bytes>, after: CodecState,
      frames: seq<Frame>)
    ensures
      RunsOn(link, window, before + [piece], rest, after, frames) ==>
      RunsOn(link, window, before, [piece] + rest, after,
             Fruit(Decode(link, Receive(link, window, before), piece).1) + frames)
  {
    ReceiveSnoc(link, window, before, piece);
    var fruit := Fruit(Decode(link, Receive(link, window, before), piece).1);
    Associate(before, [piece], rest);
    Associate(Delivered(link, window, before), fruit, frames);
  }

  lemma Associate<T>(a: seq<T>, b: seq<T>, c: seq<T>)
    ensures a + (b + c) == a + b + c
  {
  }

  lemma PiecesTurn(link: RawLink, s: CodecState, data: Bytes, count: nat)
    requires count > 0 && |data| >= 2 && 2 + U16(data[..2]) <= |data|
    ensures
      var end := 2 + U16(data[..2]);
      var (t, r) := Decode(link, s, data[2..end]);
      var more := if r.Ok? then count - 1 else 0;
      && Pieces(link, s, data, count) == [data[2..end]] + Pieces(link, t, data[end..], more)
      && LetThrough(link, s, data, count) == Fruit(r) + LetThrough(link, t, data[end..], more)
      && DecodeChunks(link, s, data, count).0 == DecodeChunks(link, t, data[end..], more).0
  {
  }

  /** Behind `before`, decoding the pieces one by one does what the batch does. */
  predicate PiecesFit(link: RawLink, window: int, before: seq<Bytes>, data: Bytes, count: nat) {
    var s := Receive(link, window, before);
    RunsOn(link, window, before, Pieces(link, s, data, count), DecodeChunks(link, s, data, count).0,
           LetThrough(link, s, data, count))
  }

  lemma NoPieces(link: RawLink, window: int, before: seq<Bytes>, data: Bytes, count: nat)
    requires count == 0 || |data| < 2 || 2 + U16(data[..2]) > |data|
    ensures PiecesFit(link, window, before, data, count)
  {
    assert before + [] == before && Delivered(link, window, before) + [] == Delivered(link, window, before);
  }

  lemma PiecesStep(
      link: RawLink, window: int, before: seq<Bytes>, data: Bytes, count: nat, piece: Bytes, rest: Bytes, more: nat)
    requires
      var s := Receive(link, window, before);
      var (t, r) := Decode(link, s, piece);
      && Pieces(link, s, data, count) == [piece] + Pieces(link, t, rest, more)
      && LetThrough(link, s, data, count) == Fruit(r) + LetThrough(link, t, rest, more)
      && DecodeChunks(link, s, data, count).0 == DecodeChunks(link, t, rest, more).0
    ensures PiecesFit(link, window, before + [piece], rest, more) ==> PiecesFit(link, window, before, data, count)
  {
    var t := Decode(link, Receive(link, window, before), piece).0;
    ReceiveSnoc(link, window, before, piece);
    OnePieceMore(link, window, before, piece, Pieces(link, t, rest, more), DecodeChunks(link, t, rest, more).0,
                 LetThrough(link, t, rest, more));
  }

  lemma {:induction false} PiecesRun(link: RawLink, window: int, before: seq<Bytes>, data: Bytes, count: nat)
    ensures PiecesFit(link, window, before, data, count)
    decreases count
  {
    if count == 0 || |data| < 2 || 2 + U16(data[..2]) > |data| {
      NoPieces(link, window, before, data, count);
    } else {
      var end := 2 + U16(data[..2]);
      var s := Receive(link, window, before);
      var more := if Decode(link, s, data[2..end]).1.Ok? then count - 1 else 0;
      PiecesTurn(link, s, data, count);
      PiecesStep(link, window, before, data, count, data[2..end], data[end..], more);
      PiecesRun(link, window, before + [data[2..end]], data[end..], more);
    }
  }

  /** A batch that does not raise returns what it let through; one that raises loses it. */
  lemma ReturnedOrLost(link: RawLink, s: CodecState, data: Bytes)
    ensures ReturnedBy(link, s, Batch(data)) + LostBy(link, s, Batch(data)) == PassedOf(link, s, data)
  {
    if |data| >= 2 {
      ReturnsWhatItLetThrough(link, s, data[2..], U16(data[..2]));
    }
  }

  lemma ArrivalPieces(link: RawLink, window: int, before: seq<Bytes>, a: Arrival)
    ensures
      var s := Receive(link, window, before);
      var after := before + PiecesOf(link, s, a);
      && Receive(link, window, after) == Arrive(link, s, a)
      && Delivered(link, window, after)
           == Delivered(link, window, before) + (ReturnedBy(link, s, a) + LostBy(link, s, a))
  {
    var s := Receive(link, window, before);
    if a.Single? {
      ReceiveSnoc(link, window, before, a.data);
      assert ReturnedBy(link, s, a) + [] == ReturnedBy(link, s, a);
    } else {
      ReturnedOrLost(link, s, a.data);
      if |a.data| >= 2 {
        PiecesRun(link, window, before, a.data[2..], U16(a.data[..2]));
      } else {
        assert before + [] == before && Delivered(link, window, before) + [] == Delivered(link, window, before);
      }
    }
  }

  /** A mixed run is the run of its pieces; what those deliver is returned or lost. */
  lemma {:induction false} MixedRun(link: RawLink, window: int, arrivals: seq<Arrival>)
    ensures Receive(link, window, AllPieces(link, window, arrivals)) == ReceiveMixed(link, window, arrivals)
    ensures multiset(Delivered(link, window, AllPieces(link, window, arrivals)))
         == multiset(Returned(link, window, arrivals)) + multiset(Lost(link, window, arrivals))
  {
    if arrivals != [] {
      MixedRun(link, window, Front(arrivals));
      ArrivalPieces(link, window, AllPieces(link, window, Front(arrivals)), Last(arrivals));
    }
  }

  /** Exactly once, whatever mixture of single frames and batches arrives: each frame on
      the wire that is decoded at least once in time is returned once, or lost once in a
      batch that raised; nothing else is returned. So it is returned iff it was decoded
      and not lost. */
  lemma ExactlyOnceOrLost(mac: Mac, window: int, sends: seq<Send>, arrivals: seq<Arrival>)
    ensures
      var link := HmacLink(mac);
      var sent, pieces := Emitted(link, window, sends), AllPieces(link, window, arrivals);
      var returned, lost := Returned(link, window, arrivals), Lost(link, window, arrivals);
      Unforgeable(mac, sent, pieces) && TimelyArrivals(link, window, sent, pieces) ==>
        && (forall f :: f in sent ==>
              multiset(returned)[f] + multiset(lost)[f] == (if Encoded(link, f) in pieces then 1 else 0))
        && (forall f :: f in returned || f in lost ==> f in sent)
  {
    var link := HmacLink(mac);
    var pieces := AllPieces(link, window, arrivals);
    ExactlyOnce(mac, window, sends, pieces);
    MixedRun(link, window, arrivals);
    SplitInTwo(Delivered(link, window, pieces), Returned(link, window, arrivals), Lost(link, window, arrivals));
  }

  lemma SplitInTwo<T>(all: seq<T>, a: seq<T>, b: seq<T>)
    requires multiset(all) == multiset(a) + multiset(b)
    ensures forall x :: multiset(all)[x] == multiset(a)[x] + multiset(b)[x]
    ensures forall x :: x in all <==> x in a || x in b
  {
    forall x ensures x in all <==> x in a || x in b {
      assert x in all <==> x in multiset(all);
      assert x in a <==> x in multiset(a);
      assert x in b <==> x in multiset(b);
    }
  }

  /** So in terms of the sender's calls: each call whose frame was decoded in time comes back
      once, as it was given, or is lost once in a batch that raised. */
  lemma EachCallOnceOrLost(mac: Mac, window: int, sends: seq<Send>, arrivals: seq<Arrival>, i: nat)
    requires i < |OutboxAfter(sends).sent|
    ensures
      var link := HmacLink(mac);
      var sent, pieces := Emitted(link, window, sends), AllPieces(link, window, arrivals);
      && |sent| == |OutboxAfter(sends).sent| && Carries(sent[i], OutboxAfter(sends).sent[i])
      && (Unforgeable(mac, sent, pieces) && TimelyArrivals(link, window, sent, pieces) ==>
            multiset(Returned(link, window, arrivals))[sent[i]] + multiset(Lost(link, window, arrivals))[sent[i]]
              == (if Encoded(link, sent[i]) in pieces then 1 else 0))
  {
    SenderRefinesOutbox(HmacLink(mac), window, sends);
    ExactlyOnceOrLost(mac, window, sends, arrivals);
    assert Emitted(HmacLink(mac), window, sends)[i] in Emitted(HmacLink(mac), window, sends);
  }

  // ---- The receiver's counters ----

  function TotalBytes(arrivals: seq<Bytes>): nat {
    if arrivals == [] then 0 else TotalBytes(Front(arrivals)) + |Last(arrivals)|
  }

  /** How many arrivals decode, whether or not they are accepted. */
  function Decodable(link: RawLink, arrivals: seq<Bytes>): nat {
    if arrivals == [] then 0
    else Decodable(link, Front(arrivals)) + (if link.decode(Last(arrivals)).Ok? then 1 else 0)
  }

  function BadTags(link: RawLink, arrivals: seq<Bytes>): nat {
    if arrivals == [] then 0
    else BadTags(link, Front(arrivals)) + (if link.decode(Last(arrivals)) == Err(BadMac) then 1 else 0)
  }

  lemma DecodeCounts(link: RawLink, s: CodecState, data: Bytes)
    ensures
      var (t, r) := Decode(link, s, data);
      && t.bytesReceived == s.bytesReceived + |data|
      && t.framesReceived == s.framesReceived + |Fruit(r)|
      && t.replayBlocked == s.replayBlocked + (if link.decode(data).Ok? then 1 else 0) - |Fruit(r)|
      && t.hmacFailures == s.hmacFailures + (if link.decode(data) == Err(BadMac) then 1 else 0)
  {
  }

  /** Bytes count on arrival, frames when delivered, replays where a frame decoded and was
      not, and of the undecodable ones those with a bad tag. */
  lemma {:induction false} ReceivingCounters(link: RawLink, window: int, arrivals: seq<Bytes>)
    ensures
      var s := Receive(link, window, arrivals);
      && s.bytesReceived == TotalBytes(arrivals) && s.framesReceived == |Delivered(link, window, arrivals)|
      && s.replayBlocked == Decodable(link, arrivals) - |Delivered(link, window, arrivals)|
      && s.hmacFailures == BadTags(link, arrivals)
  {
    if arrivals != [] {
      ReceivingCounters(link, window, Front(arrivals));
      DecodeCounts(link, Receive(link, window, Front(arrivals)), Last(arrivals));
    }
  }

  lemma {:induction false} ReceiversAreSane(link: RawLink, window: nat, arrivals: seq<Bytes>)
    ensures Sane(Receive(link, window, arrivals).guard)
  {
    if arrivals != [] {
      ReceiversAreSane(link, window, Front(arrivals));
    }
  }

  /** The truncation law for any two codecs in use: whatever was sent and received before,
      if the buffered frames can be encoded and the receiver is still below the first of
      their numbers, then the flushed batch, cut anywhere, decodes to exactly the frames
      that lie wholly before the cut. */
  lemma AnyBatchCutAnywhere(mac: Mac, window: nat, sends: seq<Send>, arrivals: seq<Arrival>, cut: nat)
    ensures
      var link := HmacLink(mac);
      var sender, receiver := SendRun(link, window, sends), ReceiveMixed(link, window, arrivals);
      var sent := FlushBatch(link, sender).1;
      AllEncodable(sender.buffer)
      && (sender.buffer != [] ==> receiver.guard.highest < sender.buffer[0].sequence)
      ==>
        && sent.Ok?
        && DecodeBatch(link, receiver, Prefix(sent.value, cut)).1
             == Ok(sender.buffer[..WholeFrames(link, sender.buffer, cut - 2)])
  {
    var link := HmacLink(mac);
    var sender, receiver := SendRun(link, window, sends), ReceiveMixed(link, window, arrivals);
    if AllEncodable(sender.buffer)
       && (sender.buffer != [] ==> receiver.guard.highest < sender.buffer[0].sequence) {
      RunKeepsNumbering(link, window, sends);
      MixedRun(link, window, arrivals);
      ReceiversAreSane(link, window, AllPieces(link, window, arrivals));
      AscendingFromFirst(sender.buffer, 0, receiver.guard.highest);
      TruncatedBatch(mac, sender, receiver, cut);
    }
  }
}
