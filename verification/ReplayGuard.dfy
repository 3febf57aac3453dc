/** Sequence-number replay protection with a bounded memory. */
module ReplayGuard {
  import opened Common

  datatype GuardState = GuardState(
    window: int, highest: int, seen: set<int>, accepted: nat, rejectedReplay: nat, rejectedOld: nat)

  function Fresh(window: int): GuardState {
    GuardState(window, 0, {}, 0, 0, 0)
  }

  predicate Accepts(g: GuardState, sequence: int) {
    sequence !in g.seen && sequence >= g.highest - g.window
  }

  function CheckAndAccept(g: GuardState, sequence: int): GuardState {
    if sequence in g.seen then g.(rejectedReplay := g.rejectedReplay + 1)
    else if sequence < g.highest - g.window then g.(rejectedOld := g.rejectedOld + 1)
    else
      var noted := g.seen + {sequence};
      if sequence > g.highest then
        g.(seen := (set s | s in noted && s > sequence - g.window), highest := sequence, accepted := g.accepted + 1)
      else g.(seen := noted, accepted := g.accepted + 1)
  }

  function Run(window: int, arrivals: seq<int>): GuardState {
    if arrivals == [] then Fresh(window)
    else CheckAndAccept(Run(window, Front(arrivals)), Last(arrivals))
  }

  class Guard {
    const window: int
    var highest: int
    var seen: set<int>
    var accepted: nat
    var rejectedReplay: nat
    var rejectedOld: nat

    function View(): GuardState
      reads this
    {
      GuardState(window, highest, seen, accepted, rejectedReplay, rejectedOld)
    }

    constructor (window: int)
      ensures View() == Fresh(window)
    {
      this.window := window;
      highest, seen, accepted, rejectedReplay, rejectedOld := 0, {}, 0, 0, 0;
    }

    method Check(sequence: int) returns (ok: bool)
      modifies this
      ensures View() == CheckAndAccept(old(View()), sequence)
      ensures ok == Accepts(old(View()), sequence)
    {
      if sequence in seen {
        rejectedReplay := rejectedReplay + 1;
        return false;
      }
      if sequence < highest - window {
        rejectedOld := rejectedOld + 1;
        return false;
      }
      seen := seen + {sequence};
      if sequence > highest {
        highest := sequence;
        var cutoff := highest - window;
        seen := set s | s in seen && s > cutoff;
      }
      accepted := accepted + 1;
      return true;
    }
  }

  // ---- The same run, with unlimited memory ----

  /** How often each number was accepted, ever. */
  ghost function Accepted(window: int, arrivals: seq<int>): multiset<int> {
    if arrivals == [] then multiset{}
    else
      Accepted(window, Front(arrivals))
      + (if Accepts(Run(window, Front(arrivals)), Last(arrivals)) then multiset{Last(arrivals)} else multiset{})
  }

  /** What the bounded state knows about the unbounded history `h`. Above the edge
      `highest - window` the memory is exact; at the edge an acceptance may have been
      forgotten once; below it everything is rejected by age. */
  ghost predicate Remembers(g: GuardState, h: multiset<int>) {
    && (forall s :: s in g.seen ==> g.highest - g.window <= s <= g.highest && s in h)
    && (forall s :: s in h ==> s <= g.highest)
    && (forall s :: h[s] <= 2)
    && (forall s :: s > g.highest - g.window ==> (s in g.seen <==> h[s] == 1) && h[s] <= 1)
    && (g.highest - g.window !in g.seen ==> h[g.highest - g.window] <= 1)
  }

  lemma CheckKeepsMemory(g: GuardState, h: multiset<int>, sequence: int)
    requires Remembers(g, h)
    ensures Remembers(CheckAndAccept(g, sequence),
                      h + (if Accepts(g, sequence) then multiset{sequence} else multiset{}))
  {
    var g', h' := CheckAndAccept(g, sequence), h + (if Accepts(g, sequence) then multiset{sequence} else multiset{});
    forall s ensures h'[s] == h[s] + (if s == sequence && Accepts(g, sequence) then 1 else 0) {
    }
  }

  lemma {:induction false} RunRemembers(window: int, arrivals: seq<int>)
    ensures Remembers(Run(window, arrivals), Accepted(window, arrivals))
    ensures Run(window, arrivals).window == window
  {
    if arrivals != [] {
      RunRemembers(window, Front(arrivals));
      CheckKeepsMemory(Run(window, Front(arrivals)), Accepted(window, Front(arrivals)), Last(arrivals));
    }
  }

  /** The pruned guard decides like one that never forgets - "new, and not too old" -
      for every number except the one at the edge of the window. */
  lemma RefinesUnboundedMemory(window: int, arrivals: seq<int>, sequence: int)
    ensures
      var g, h := Run(window, arrivals), Accepted(window, arrivals);
      sequence != g.highest - window ==>
        (Accepts(g, sequence) <==> sequence !in h && sequence >= g.highest - window)
  {
    RunRemembers(window, arrivals);
  }

  /** What was accepted since the arrival that last raised the highest number. */
  ghost function AcceptedSinceRaise(window: int, arrivals: seq<int>): set<int> {
    if arrivals == [] then {}
    else
      var g, before := Run(window, Front(arrivals)), AcceptedSinceRaise(window, Front(arrivals));
      if !Accepts(g, Last(arrivals)) then before
      else if Last(arrivals) > g.highest then {}
      else before + {Last(arrivals)}
  }

  /** At the edge the memory reaches back to that arrival and no further. */
  lemma {:induction false} EdgeRemembers(window: int, arrivals: seq<int>)
    ensures
      var g := Run(window, arrivals);
      && g.window == window
      && (g.highest - window in g.seen <==> g.highest - window in AcceptedSinceRaise(window, arrivals))
  {
    if arrivals != [] {
      EdgeRemembers(window, Front(arrivals));
    }
  }

  /** A number already accepted is accepted again exactly at the edge of the window, if
      its acceptance lies before the arrival that brought the edge there; and no number is
      ever accepted three times. */
  lemma SecondAcceptanceOnlyAtEdge(window: int, arrivals: seq<int>, sequence: int)
    requires sequence in Accepted(window, arrivals)
    ensures
      var g, h := Run(window, arrivals), Accepted(window, arrivals);
      && (Accepts(g, sequence) <==>
            sequence == g.highest - window && sequence !in AcceptedSinceRaise(window, arrivals))
      && (Accepts(g, sequence) ==> h[sequence] == 1)
      && h[sequence] <= 2
  {
    RunRemembers(window, arrivals);
    EdgeRemembers(window, arrivals);
    ForgottenOnlyAtEdge(Run(window, arrivals), Accepted(window, arrivals), sequence);
  }

  lemma ForgottenOnlyAtEdge(g: GuardState, h: multiset<int>, sequence: int)
    requires Remembers(g, h) && sequence in h
    ensures Accepts(g, sequence) <==> sequence == g.highest - g.window && sequence !in g.seen
    ensures Accepts(g, sequence) ==> h[sequence] == 1
  {
    if sequence > g.highest - g.window {
      assert h[sequence] == 1;
    }
  }

  /** For every window size the edge really does let one replay through. (Negative windows admit
      nothing old at all.) */
  lemma EdgeReplayHappens(window: nat)
    ensures Accepted(window, [1] + [1 + window] + [1])[1] == 2
  {
    var a, b := [1], [1] + [1 + window];
    assert Front(a) == [] && Front(b) == a && Front(b + [1]) == b;
    assert Run(window, a) == CheckAndAccept(Fresh(window), 1);
    assert Run(window, b) == CheckAndAccept(Run(window, a), 1 + window);
    assert Accepted(window, a) == multiset{1};
    assert window > 0 ==> Accepts(Run(window, b), 1);
  }

  /** The set of remembered numbers stays inside the window and within window + 1 entries. */
  lemma MemoryBounded(window: int, arrivals: seq<int>)
    ensures
      var g := Run(window, arrivals);
      && (forall s :: s in g.seen ==> g.highest - window <= s <= g.highest)
      && |g.seen| <= Max(0, window + 1)
  {
    RunRemembers(window, arrivals);
    var g := Run(window, arrivals);
    if window >= 0 {
      BoundedSet(g.seen, g.highest - window, g.highest);
    } else {
      assert forall s :: s in g.seen ==> false;
    }
  }

  lemma {:induction false} BoundedSet(numbers: set<int>, lo: int, hi: int)
    requires lo <= hi && forall s :: s in numbers ==> lo <= s <= hi
    ensures |numbers| <= hi - lo + 1
    decreases hi - lo
  {
    var rest := numbers - {hi};
    if lo == hi {
      assert forall s :: s in rest ==> false;
    } else {
      BoundedSet(rest, lo, hi - 1);
    }
    assert numbers <= rest + {hi};
  }

  /** The highest number is the highest accepted one, or still zero; with a window no
      arrival was above it. */
  lemma {:induction false} HighestIsHighest(window: int, arrivals: seq<int>)
    ensures
      var g, h := Run(window, arrivals), Accepted(window, arrivals);
      && g.highest >= 0 && (g.highest == 0 || g.highest in h) && (forall s :: s in h ==> s <= g.highest)
      && (window >= 0 ==> forall i :: 0 <= i < |arrivals| ==> arrivals[i] <= g.highest)
  {
    RunRemembers(window, arrivals);
    if arrivals != [] {
      HighestIsHighest(window, Front(arrivals));
      RunRemembers(window, Front(arrivals));
    }
  }

  /** How many arrivals were below the window of their moment. */
  function TooOld(window: int, arrivals: seq<int>): nat {
    if arrivals == [] then 0
    else
      TooOld(window, Front(arrivals))
      + (if Last(arrivals) < Run(window, Front(arrivals)).highest - window then 1 else 0)
  }

  /** Each counter on its own: what is too old is never counted as a replay. */
  lemma {:induction false} CountersExact(window: int, arrivals: seq<int>)
    ensures
      var g := Run(window, arrivals);
      && g.rejectedOld == TooOld(window, arrivals) && g.accepted == |Accepted(window, arrivals)|
      && g.rejectedReplay == |arrivals| - |Accepted(window, arrivals)| - TooOld(window, arrivals)
  {
    CountersAddUp(window, arrivals);
    if arrivals != [] {
      CountersExact(window, Front(arrivals));
      RunRemembers(window, Front(arrivals));
    }
  }

  /** The counters account for every arrival. */
  lemma {:induction false} CountersAddUp(window: int, arrivals: seq<int>)
    ensures
      var g := Run(window, arrivals);
      && g.accepted + g.rejectedReplay + g.rejectedOld == |arrivals|
      && g.accepted == |Accepted(window, arrivals)|
  {
    if arrivals != [] {
      CountersAddUp(window, Front(arrivals));
    }
  }
}
