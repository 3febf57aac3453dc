/** The audio jitter buffer: insertion in sequence order, drop-oldest on overflow. */
module JitterBuffer {
  import opened Common

  datatype AudioFrame = AudioFrame(sequence: int, durationMs: int, data: int)

  datatype State = State(
    buffer: seq<AudioFrame>, nextExpected: int, framesIn: nat, framesOut: nat,
    framesDropped: nat, framesLate: nat, underruns: nat, overruns: nat)

  datatype Event = Push(frame: AudioFrame) | Pop

  const EMPTY := State([], 0, 0, 0, 0, 0, 0, 0)

  /** Just behind the last frame with a smaller sequence number. */
  function InsertPosition(buffer: seq<AudioFrame>, sequence: int): (k: nat)
    ensures k <= |buffer|
  {
    if buffer == [] then 0
    else if Last(buffer).sequence < sequence then |buffer|
    else InsertPosition(Front(buffer), sequence)
  }

  function Insert(buffer: seq<AudioFrame>, f: AudioFrame): seq<AudioFrame> {
    var k := InsertPosition(buffer, f.sequence);
    buffer[..k] + [f] + buffer[k..]
  }

  predicate Overflows(maxMs: int, s: State, f: AudioFrame) {
    |s.buffer| * f.durationMs > maxMs
  }

  /** Dropping from an empty buffer raises; the push is counted and nothing else done. */
  predicate Raises(maxMs: int, s: State, f: AudioFrame) {
    Overflows(maxMs, s, f) && s.buffer == []
  }

  function DoPush(maxMs: int, s: State, f: AudioFrame): State {
    var full := Overflows(maxMs, s, f);
    if full && s.buffer == [] then s.(framesIn := s.framesIn + 1)
    else
      s.(buffer := Insert(if full then s.buffer[1..] else s.buffer, f), framesIn := s.framesIn + 1,
         overruns := s.overruns + (if full then 1 else 0),
         framesDropped := s.framesDropped + (if full then 1 else 0),
         framesLate := s.framesLate + (if f.sequence < s.nextExpected then 1 else 0))
  }

  function DoPop(s: State): (State, Option<AudioFrame>) {
    if s.buffer == [] then (s.(underruns := s.underruns + 1), None)
    else
      (s.(buffer := s.buffer[1..], nextExpected := s.buffer[0].sequence + 1, framesOut := s.framesOut + 1),
       Some(s.buffer[0]))
  }

  function Step(maxMs: int, s: State, e: Event): State {
    match e
    case Push(f) => DoPush(maxMs, s, f)
    case Pop => DoPop(s).0
  }

  function Run(maxMs: int, es: seq<Event>): State {
    if es == [] then EMPTY else Step(maxMs, Run(maxMs, Front(es)), Last(es))
  }

  class Buffer {
    const maxMs: int
    var buffer: seq<AudioFrame>
    var nextExpected: int
    var framesIn: nat
    var framesOut: nat
    var framesDropped: nat
    var framesLate: nat
    var underruns: nat
    var overruns: nat

    function View(): State
      reads this
    {
      State(buffer, nextExpected, framesIn, framesOut, framesDropped, framesLate, underruns, overruns)
    }

    constructor (maxMs: int)
      ensures this.maxMs == maxMs && View() == EMPTY
    {
      this.maxMs := maxMs;
      buffer, nextExpected := [], 0;
      framesIn, framesOut, framesDropped, framesLate, underruns, overruns := 0, 0, 0, 0, 0, 0;
    }

    method PushFrame(f: AudioFrame) returns (raised: bool)
      modifies this
      ensures View() == DoPush(maxMs, old(View()), f)
      ensures raised == Raises(maxMs, old(View()), f)
    {
      framesIn := framesIn + 1;
      if |buffer| * f.durationMs > maxMs {
        if buffer == [] {
          return true;
        }
        buffer := buffer[1..];
        overruns := overruns + 1;
        framesDropped := framesDropped + 1;
      }
      InsertInOrder(f);
      if f.sequence < nextExpected {
        framesLate := framesLate + 1;
      }
      return false;
    }

    /** The backward scan for the place of a new frame. */
    method InsertInOrder(f: AudioFrame)
      modifies this`buffer
      ensures buffer == Insert(old(buffer), f)
    {
      ghost var kept := buffer;
      assert kept[..|kept|] == kept;
      for i := |buffer| downto 0
        invariant buffer == kept
        invariant InsertPosition(kept, f.sequence) == InsertPosition(kept[..i], f.sequence)
      {
        assert Front(kept[..i + 1]) == kept[..i];
        if buffer[i].sequence < f.sequence {
          buffer := buffer[..i + 1] + [f] + buffer[i + 1..];
          return;
        }
      }
      buffer := [f] + buffer;
      assert buffer == Insert(kept, f);
    }

    method PopFrame() returns (r: Option<AudioFrame>)
      modifies this
      ensures View() == DoPop(old(View())).0 && r == DoPop(old(View())).1
    {
      if buffer == [] {
        underruns := underruns + 1;
        return None;
      }
      var frame := buffer[0];
      buffer := buffer[1..];
      nextExpected := frame.sequence + 1;
      framesOut := framesOut + 1;
      return Some(frame);
    }
  }

  lemma EmptyNeverOverflows(maxMs: nat, s: State, f: AudioFrame)
    ensures Overflows(maxMs, s, f) ==> s.buffer != []
  {
  }

  /** A push raises exactly when the configured maximum is negative. */
  lemma {:induction false} PushRaisesIff(maxMs: int, es: seq<Event>, f: AudioFrame)
    ensures Raises(maxMs, Run(maxMs, es), f) <==> maxMs < 0
    ensures maxMs < 0 ==> Run(maxMs, es).buffer == []
  {
    if es != [] {
      PushRaisesIff(maxMs, Front(es), if Last(es).Push? then Last(es).frame else f);
    }
  }

  // ---- What happened over a run, for a maximum that is not negative ----

  function EventPushed(e: Event): seq<AudioFrame> {
    if e.Push? then [e.frame] else []
  }

  /** What a pop returned. */
  function EventPlayed(s: State, e: Event): seq<AudioFrame> {
    if e.Pop? && DoPop(s).1.Some? then [DoPop(s).1.value] else []
  }

  function EventDropped(maxMs: nat, s: State, e: Event): seq<AudioFrame> {
    if e.Push? && Overflows(maxMs, s, e.frame) && s.buffer != [] then [s.buffer[0]] else []
  }

  function Pushed(es: seq<Event>): seq<AudioFrame> {
    if es == [] then [] else Pushed(Front(es)) + EventPushed(Last(es))
  }

  /** The playout: what the pops returned. */
  function Played(maxMs: nat, es: seq<Event>): seq<AudioFrame> {
    if es == [] then [] else Played(maxMs, Front(es)) + EventPlayed(Run(maxMs, Front(es)), Last(es))
  }

  function Dropped(maxMs: nat, es: seq<Event>): seq<AudioFrame> {
    if es == [] then [] else Dropped(maxMs, Front(es)) + EventDropped(maxMs, Run(maxMs, Front(es)), Last(es))
  }

  ghost predicate Sorted(frames: seq<AudioFrame>) {
    forall i, j :: 0 <= i < j < |frames| ==> frames[i].sequence <= frames[j].sequence
  }

  /** In a sorted buffer the position splits it: smaller numbers before, the rest behind.
      A frame goes in front of those that share its number. */
  lemma {:induction false} PositionSplits(buffer: seq<AudioFrame>, sequence: int)
    requires Sorted(buffer)
    ensures
      var k := InsertPosition(buffer, sequence);
      && (forall i :: 0 <= i < k ==> buffer[i].sequence < sequence)
      && (forall i :: k <= i < |buffer| ==> buffer[i].sequence >= sequence)
  {
    if buffer != [] && Last(buffer).sequence >= sequence {
      PositionSplits(Front(buffer), sequence);
    }
  }

  lemma InsertKeepsFrames(buffer: seq<AudioFrame>, f: AudioFrame)
    ensures multiset(Insert(buffer, f)) == multiset(buffer) + multiset{f}
    ensures |Insert(buffer, f)| == |buffer| + 1
  {
    var k := InsertPosition(buffer, f.sequence);
    assert buffer == buffer[..k] + buffer[k..];
  }

  lemma InsertKeepsSorted(buffer: seq<AudioFrame>, f: AudioFrame)
    requires Sorted(buffer)
    ensures Sorted(Insert(buffer, f))
  {
    PositionSplits(buffer, f.sequence);
    var k, longer := InsertPosition(buffer, f.sequence), Insert(buffer, f);
    assert forall i :: 0 <= i < k ==> longer[i] == buffer[i];
    assert forall i :: k < i < |longer| ==> longer[i] == buffer[i - 1];
  }

  lemma {:induction false} AlwaysSorted(maxMs: nat, es: seq<Event>)
    ensures Sorted(Run(maxMs, es).buffer)
  {
    if es != [] {
      AlwaysSorted(maxMs, Front(es));
      var s := Run(maxMs, Front(es));
      if Last(es).Push? {
        var kept := if Overflows(maxMs, s, Last(es).frame) && s.buffer != [] then s.buffer[1..] else s.buffer;
        InsertKeepsSorted(kept, Last(es).frame);
      }
    }
  }

  /** Both a pop and an overflow take the frame with the smallest number. */
  lemma FrontIsOldest(maxMs: nat, es: seq<Event>, f: AudioFrame)
    requires f in Run(maxMs, es).buffer
    ensures Run(maxMs, es).buffer[0].sequence <= f.sequence
  {
    AlwaysSorted(maxMs, es);
  }

  lemma PushConserves(maxMs: nat, s: State, g: AudioFrame, f: AudioFrame)
    ensures multiset(s.buffer)[f] + multiset{g}[f]
         == multiset(EventDropped(maxMs, s, Push(g)))[f] + multiset(DoPush(maxMs, s, g).buffer)[f]
  {
    if Overflows(maxMs, s, g) && s.buffer != [] {
      assert s.buffer == [s.buffer[0]] + s.buffer[1..];
      InsertKeepsFrames(s.buffer[1..], g);
    } else {
      InsertKeepsFrames(s.buffer, g);
    }
  }

  lemma PopConserves(s: State, f: AudioFrame)
    ensures multiset(s.buffer)[f] == multiset(EventPlayed(s, Pop))[f] + multiset(DoPop(s).0.buffer)[f]
  {
    if s.buffer != [] {
      assert s.buffer == [s.buffer[0]] + s.buffer[1..];
    }
  }

  lemma {:induction false} FrameConserved(maxMs: nat, es: seq<Event>, f: AudioFrame)
    ensures multiset(Pushed(es))[f]
         == multiset(Played(maxMs, es))[f] + multiset(Dropped(maxMs, es))[f] + multiset(Run(maxMs, es).buffer)[f]
  {
    if es != [] {
      FrameConserved(maxMs, Front(es), f);
      if Last(es).Push? {
        PushConserves(maxMs, Run(maxMs, Front(es)), Last(es).frame, f);
      } else {
        PopConserves(Run(maxMs, Front(es)), f);
      }
    }
  }

  /** No frame is lost or made up: what went in was played, dropped or is still there. */
  lemma FramesConserved(maxMs: nat, es: seq<Event>)
    ensures multiset(Pushed(es))
         == multiset(Played(maxMs, es)) + multiset(Dropped(maxMs, es)) + multiset(Run(maxMs, es).buffer)
  {
    forall f
      ensures multiset(Pushed(es))[f]
           == (multiset(Played(maxMs, es)) + multiset(Dropped(maxMs, es)) + multiset(Run(maxMs, es).buffer))[f]
    {
      FrameConserved(maxMs, es, f);
    }
  }

  /** The counters are the lengths of those logs, and so add up as the frames do. */
  lemma {:induction false} CountersMatch(maxMs: nat, es: seq<Event>)
    ensures
      var s := Run(maxMs, es);
      && s.framesIn == |Pushed(es)| && s.framesOut == |Played(maxMs, es)|
      && s.framesDropped == s.overruns == |Dropped(maxMs, es)|
      && s.framesIn == s.framesOut + s.framesDropped + |s.buffer|
  {
    if es != [] {
      CountersMatch(maxMs, Front(es));
      var s := Run(maxMs, Front(es));
      if Last(es).Push? {
        EmptyNeverOverflows(maxMs, s, Last(es).frame);
      }
    }
  }

  lemma PushDepth(maxMs: nat, s: State, f: AudioFrame, d: nat)
    requires f.durationMs == d && |s.buffer| * d <= maxMs + d
    ensures |DoPush(maxMs, s, f).buffer| * d <= maxMs + d
  {
    EmptyNeverOverflows(maxMs, s, f);
    assert (|s.buffer| + 1) * d == |s.buffer| * d + d;
  }

  lemma PopDepth(s: State, limit: nat, d: nat)
    requires |s.buffer| * d <= limit
    ensures |DoPop(s).0.buffer| * d <= limit
  {
    if s.buffer != [] {
      assert (|s.buffer| - 1) * d == |s.buffer| * d - d;
    }
  }

  /** With frames of one duration the buffer holds at most one frame more than `maxMs`. */
  lemma {:induction false} DepthBounded(maxMs: nat, es: seq<Event>, d: nat)
    requires forall f :: f in Pushed(es) ==> f.durationMs == d
    ensures |Run(maxMs, es).buffer| * d <= maxMs + d
  {
    if es != [] {
      DepthBounded(maxMs, Front(es), d);
      if Last(es).Push? {
        assert Last(es).frame in Pushed(es);
        PushDepth(maxMs, Run(maxMs, Front(es)), Last(es).frame, d);
      } else {
        PopDepth(Run(maxMs, Front(es)), maxMs + d, d);
      }
    }
  }

  /** After the last frame played, nothing smaller waits in the buffer. */
  ghost predicate Ahead(s: State, played: seq<AudioFrame>) {
    played != [] ==>
      && s.nextExpected == Last(played).sequence + 1
      && forall f :: f in s.buffer ==> f.sequence >= Last(played).sequence
  }

  lemma TimelyPushStaysAhead(maxMs: nat, s: State, played: seq<AudioFrame>, f: AudioFrame)
    requires Ahead(s, played) && f.sequence >= s.nextExpected
    ensures Ahead(DoPush(maxMs, s, f), played)
  {
    var kept := if Overflows(maxMs, s, f) && s.buffer != [] then s.buffer[1..] else s.buffer;
    InsertKeepsFrames(kept, f);
    forall g | g in Insert(kept, f) ensures g == f || g in s.buffer {
      assert g in multiset(Insert(kept, f));
    }
  }

  lemma LatenessCounted(maxMs: nat, s: State, f: AudioFrame)
    ensures DoPush(maxMs, s, f).framesLate == s.framesLate + (if f.sequence < s.nextExpected then 1 else 0)
  {
    EmptyNeverOverflows(maxMs, s, f);
  }

  lemma PopStaysAhead(s: State, played: seq<AudioFrame>)
    requires s.buffer != [] && Sorted(s.buffer) && Ahead(s, played) && Sorted(played)
    ensures Ahead(DoPop(s).0, played + [s.buffer[0]]) && Sorted(played + [s.buffer[0]])
  {
    assert s.buffer[0] in s.buffer;
  }

  lemma LateOnlyGrows(maxMs: nat, s: State, e: Event)
    ensures Step(maxMs, s, e).framesLate >= s.framesLate
  {
  }

  lemma PopPlaysFront(s: State)
    ensures EventPlayed(s, Pop) == if s.buffer == [] then [] else [s.buffer[0]]
  {
  }

  lemma PushKeepsOrder(maxMs: nat, s: State, played: seq<AudioFrame>, f: AudioFrame)
    requires Sorted(played) && Ahead(s, played) && DoPush(maxMs, s, f).framesLate == s.framesLate
    ensures Sorted(played + []) && Ahead(DoPush(maxMs, s, f), played + [])
  {
    assert played + [] == played;
    LatenessCounted(maxMs, s, f);
    TimelyPushStaysAhead(maxMs, s, played, f);
  }

  lemma EmptyPopKeepsOrder(s: State, played: seq<AudioFrame>)
    requires s.buffer == [] && Sorted(played) && Ahead(s, played)
    ensures Sorted(played + []) && Ahead(DoPop(s).0, played + [])
  {
    assert played + [] == played;
  }

  lemma EventKeepsOrder(maxMs: nat, s: State, played: seq<AudioFrame>, e: Event)
    requires Sorted(s.buffer) && Sorted(played) && Ahead(s, played)
    requires Step(maxMs, s, e).framesLate == s.framesLate
    ensures Sorted(played + EventPlayed(s, e)) && Ahead(Step(maxMs, s, e), played + EventPlayed(s, e))
  {
    PopPlaysFront(s);
    if e.Push? {
      PushKeepsOrder(maxMs, s, played, e.frame);
    } else if s.buffer == [] {
      EmptyPopKeepsOrder(s, played);
    } else {
      PopStaysAhead(s, played);
    }
  }

  /** If no push was counted late, the playout is in sequence order. */
  lemma {:induction false} PlayoutInOrder(maxMs: nat, es: seq<Event>)
    requires Run(maxMs, es).framesLate == 0
    ensures Sorted(Played(maxMs, es)) && Ahead(Run(maxMs, es), Played(maxMs, es))
  {
    if es != [] {
      LateOnlyGrows(maxMs, Run(maxMs, Front(es)), Last(es));
      PlayoutInOrder(maxMs, Front(es));
      AlwaysSorted(maxMs, Front(es));
      EventKeepsOrder(maxMs, Run(maxMs, Front(es)), Played(maxMs, Front(es)), Last(es));
    }
  }

  /** `after` is `before` with `f` behind the smaller numbers and in front of all others. */
  ghost predicate InsertedInto(before: seq<AudioFrame>, f: AudioFrame, after: seq<AudioFrame>) {
    exists k :: 0 <= k <= |before| && InsertedAt(before, f, after, k)
  }

  predicate InsertedAt(before: seq<AudioFrame>, f: AudioFrame, after: seq<AudioFrame>, k: nat)
    requires k <= |before|
  {
    && after == before[..k] + [f] + before[k..]
    && (forall i :: 0 <= i < k ==> before[i].sequence < f.sequence)
    && (forall i :: k <= i < |before| ==> before[i].sequence >= f.sequence)
  }

  /** A push drops the front frame exactly if as many frames of the new one's duration as
      wait in the buffer would exceed the maximum; and then nothing else. */
  lemma PushDropsIff(maxMs: nat, es: seq<Event>, f: AudioFrame)
    ensures
      var s, t := Run(maxMs, es), Run(maxMs, es + [Push(f)]);
      if |s.buffer| * f.durationMs <= maxMs then
        InsertedInto(s.buffer, f, t.buffer) && t.framesDropped == s.framesDropped
      else
        && s.buffer != [] && InsertedInto(s.buffer[1..], f, t.buffer)
        && t.framesDropped == s.framesDropped + 1
        && Dropped(maxMs, es + [Push(f)]) == Dropped(maxMs, es) + [s.buffer[0]]
  {
    var s := Run(maxMs, es);
    AlwaysSorted(maxMs, es);
    assert Front(es + [Push(f)]) == es;
    var kept := if Overflows(maxMs, s, f) && s.buffer != [] then s.buffer[1..] else s.buffer;
    PositionSplits(kept, f.sequence);
    assert InsertedAt(kept, f, Insert(kept, f), InsertPosition(kept, f.sequence));
  }

  /** How many pushes came behind the last frame played. */
  function LatePushes(maxMs: nat, es: seq<Event>): nat {
    if es == [] then 0
    else
      var played := Played(maxMs, Front(es));
      LatePushes(maxMs, Front(es))
      + (if && Last(es).Push?
            && Last(es).frame.sequence <= (if played == [] then -1 else Last(played).sequence)
         then 1 else 0)
  }

  function Pops(es: seq<Event>): nat {
    if es == [] then 0 else Pops(Front(es)) + (if Last(es).Pop? then 1 else 0)
  }

  /** The number expected next, the late pushes and the underruns follow from the playout:
      a frame is late if its number is not above the last one played. */
  lemma {:induction false} LatenessExact(maxMs: nat, es: seq<Event>)
    ensures
      var s, played := Run(maxMs, es), Played(maxMs, es);
      && s.nextExpected == (if played == [] then 0 else Last(played).sequence + 1)
      && s.framesLate == LatePushes(maxMs, es)
      && s.underruns == Pops(es) - |played|
  {
    if es != [] {
      LatenessExact(maxMs, Front(es));
      var s, played := Run(maxMs, Front(es)), Played(maxMs, Front(es));
      assert played + [] == played;
      if Last(es).Push? {
        LatenessCounted(maxMs, s, Last(es).frame);
      }
    }
  }

  lemma PushedFrameBoundsFront(maxMs: nat, s: State, f: AudioFrame)
    requires Sorted(s.buffer)
    ensures DoPush(maxMs, s, f).buffer != [] && DoPush(maxMs, s, f).buffer[0].sequence <= f.sequence
  {
    var kept := if Overflows(maxMs, s, f) && s.buffer != [] then s.buffer[1..] else s.buffer;
    PositionSplits(kept, f.sequence);
  }

  lemma OneMore(maxMs: nat, es: seq<Event>, e: Event)
    ensures Run(maxMs, es + [e]) == Step(maxMs, Run(maxMs, es), e)
    ensures Played(maxMs, es + [e]) == Played(maxMs, es) + EventPlayed(Run(maxMs, es), e)
  {
    assert Front(es + [e]) == es;
  }

  /** And that is tight: a frame pushed behind the last one played is out of order as
      soon as the next pop comes. */
  lemma StaleFramePlaysOutOfOrder(maxMs: nat, es: seq<Event>, f: AudioFrame)
    requires Played(maxMs, es) != [] && f.sequence < Last(Played(maxMs, es)).sequence
    ensures !Sorted(Played(maxMs, es + [Push(f)] + [Pop]))
  {
    var played, pushed := Played(maxMs, es), es + [Push(f)];
    AlwaysSorted(maxMs, es);
    OneMore(maxMs, es, Push(f));
    OneMore(maxMs, pushed, Pop);
    PushedFrameBoundsFront(maxMs, Run(maxMs, es), f);
    OutOfOrder(played, DoPush(maxMs, Run(maxMs, es), f).buffer[0]);
    assert played + [] == played;
  }

  lemma OutOfOrder(played: seq<AudioFrame>, next: AudioFrame)
    requires played != [] && next.sequence < Last(played).sequence
    ensures !Sorted(played + [next])
  {
    var after := played + [next];
    assert after[|played| - 1].sequence > after[|played|].sequence;
  }
}
