/** The per-provider breaker: enter, exit, reset and state reads are separate locked
    steps, so that calls interleave freely. */
module CircuitBreaker {
  import opened Common
  import opened SlidingWindow

  datatype Mode = CLOSED | OPEN | HALF_OPEN

  datatype Config = Config(threshold: int, window: real, resetTimeout: real)

  /** How a call ended: normally, with an upstream error, or with a `CircuitOpenError`
      raised inside it, which is not counted as a failure. */
  datatype Outcome = Success | Failure | ShortCircuit

  /** `call` tells calls apart; the breaker itself never looks at it. */
  datatype Event =
    | Enter(call: nat, now: real)
    | Exit(call: nat, outcome: Outcome, now: real)
    | Reset(now: real)
    | Observe(now: real)

  datatype State = State(
    mode: Mode, failureTimes: seq<real>, openedAt: Option<real>, probeInFlight: bool,
    totalCalls: nat, totalFailures: nat, totalShortCircuits: nat)

  const INITIAL := State(CLOSED, [], None, false, 0, 0, 0)

  /** Long enough after an opening for a probe. A breaker opened at clock reading 0
      never is: the source tests the reading for truth. */
  predicate Ready(cfg: Config, openedAt: real, now: real) {
    openedAt != 0.0 && now - openedAt >= cfg.resetTimeout
  }

  function Evaluate(cfg: Config, s: State, now: real): State {
    if s.mode.OPEN? && s.openedAt.Some? && Ready(cfg, s.openedAt.value, now)
    then s.(mode := HALF_OPEN) else s
  }

  function TryEnter(cfg: Config, s: State, now: real): (State, bool) {
    var e := Evaluate(cfg, s, now);
    if e.mode.OPEN? || (e.mode.HALF_OPEN? && e.probeInFlight) then
      (e.(totalShortCircuits := e.totalShortCircuits + 1), false)
    else
      (e.(probeInFlight := e.probeInFlight || e.mode.HALF_OPEN?, totalCalls := e.totalCalls + 1), true)
  }

  function Cleared(s: State): State {
    s.(mode := CLOSED, failureTimes := [], openedAt := None, probeInFlight := false)
  }

  function Failed(cfg: Config, s: State, now: real): State {
    var times := Recent(s.failureTimes, now, cfg.window) + [now];
    var f := s.(failureTimes := times, totalFailures := s.totalFailures + 1);
    if |times| >= cfg.threshold
    then f.(mode := OPEN, openedAt := Some(now), probeInFlight := false) else f
  }

  function Leave(cfg: Config, s: State, outcome: Outcome, now: real): State {
    var t := match outcome
      case Success => Cleared(s)
      case Failure => Failed(cfg, s, now)
      case ShortCircuit => s;
    if t.mode.HALF_OPEN? then t.(probeInFlight := false) else t
  }

  function Step(cfg: Config, s: State, e: Event): State {
    match e
    case Enter(_, now) => TryEnter(cfg, s, now).0
    case Exit(_, outcome, now) => Leave(cfg, s, outcome, now)
    case Reset(_) => Cleared(s)
    case Observe(now) => Evaluate(cfg, s, now)
  }

  function Run(cfg: Config, es: seq<Event>): State {
    if es == [] then INITIAL else Step(cfg, Run(cfg, Front(es)), Last(es))
  }

  class Breaker {
    const cfg: Config
    var mode: Mode
    var failureTimes: seq<real>
    var openedAt: Option<real>
    var probeInFlight: bool
    var totalCalls: nat
    var totalFailures: nat
    var totalShortCircuits: nat

    function View(): State
      reads this
    {
      State(mode, failureTimes, openedAt, probeInFlight, totalCalls, totalFailures, totalShortCircuits)
    }

    constructor (cfg: Config)
      ensures this.cfg == cfg && View() == INITIAL
    {
      this.cfg := cfg;
      mode, failureTimes, openedAt, probeInFlight := CLOSED, [], None, false;
      totalCalls, totalFailures, totalShortCircuits := 0, 0, 0;
    }

    method EvaluatedState(now: real) returns (m: Mode)
      modifies this
      ensures View() == Evaluate(cfg, old(View()), now) && m == mode
    {
      if mode == OPEN {
        if openedAt.Some? && openedAt.value != 0.0 && now - openedAt.value >= cfg.resetTimeout {
          mode := HALF_OPEN;
        }
      }
      return mode;
    }

    method AEnter(now: real) returns (admitted: bool)
      modifies this
      ensures (View(), admitted) == TryEnter(cfg, old(View()), now)
    {
      var effective := EvaluatedState(now);
      if effective == OPEN {
        totalShortCircuits := totalShortCircuits + 1;
        return false;
      }
      if effective == HALF_OPEN {
        if probeInFlight {
          totalShortCircuits := totalShortCircuits + 1;
          return false;
        }
        probeInFlight := true;
      }
      totalCalls := totalCalls + 1;
      return true;
    }

    method AExit(outcome: Outcome, now: real)
      modifies this
      ensures View() == Leave(cfg, old(View()), outcome, now)
    {
      if outcome == Success {
        ManualReset();
      } else if outcome == Failure {
        OnFailure(now);
      }
      if mode == HALF_OPEN {
        probeInFlight := false;
      }
    }

    method OnFailure(now: real)
      modifies this
      ensures View() == Failed(cfg, old(View()), now)
    {
      totalFailures := totalFailures + 1;
      failureTimes := Recent(failureTimes, now, cfg.window);
      failureTimes := failureTimes + [now];
      if |failureTimes| >= cfg.threshold {
        mode := OPEN;
        openedAt := Some(now);
        probeInFlight := false;
      }
    }

    /** What a successful exit and the reset endpoint both write. */
    method ManualReset()
      modifies this
      ensures View() == Cleared(old(View()))
    {
      mode := CLOSED;
      failureTimes := [];
      openedAt := None;
      probeInFlight := false;
    }
  }

  // ---- The same run, seen from its full history of failures ----

  function AfterEvent(history: seq<real>, e: Event): seq<real> {
    match e
    case Exit(_, Success, _) => []
    case Reset(_) => []
    case Exit(_, Failure, now) => history + [now]
    case _ => history
  }

  /** All failures since the last success or reset, of any age. */
  function FailuresSinceClear(es: seq<Event>): seq<real> {
    if es == [] then [] else AfterEvent(FailuresSinceClear(Front(es)), Last(es))
  }

  /** A failure at `now`, after these, reaches the threshold within the window. */
  predicate Trips(cfg: Config, history: seq<real>, now: real) {
    |Recent(history, now, cfg.window)| + 1 >= cfg.threshold
  }

  /** The latest failure that found enough company in its window. */
  function LastTrip(cfg: Config, history: seq<real>): Option<real> {
    if history == [] then None
    else if Trips(cfg, Front(history), Last(history)) then Some(Last(history))
    else LastTrip(cfg, Front(history))
  }

  /** The history as the latest failure saw it, pruned once. */
  function Kept(cfg: Config, history: seq<real>): seq<real> {
    if history == [] then []
    else Recent(Front(history), Last(history), cfg.window) + [Last(history)]
  }

  ghost predicate ClockOk(es: seq<Event>) {
    forall i, j :: 0 <= i < j < |es| ==> es[i].now <= es[j].now
  }

  ghost predicate StandsFor(cfg: Config, s: State, history: seq<real>, now: real) {
    && s.openedAt == LastTrip(cfg, history)
    && s.failureTimes == Kept(cfg, history)
    && (s.mode.CLOSED? <==> s.openedAt.None?)
    && (s.probeInFlight ==> s.mode.HALF_OPEN?)
    && (s.mode.HALF_OPEN? ==> Ready(cfg, s.openedAt.value, now))
    && (history != [] ==> Last(history) <= now)
  }

  lemma FailureKeepsStanding(cfg: Config, s: State, history: seq<real>, before: real, now: real)
    requires before <= now && StandsFor(cfg, s, history, before)
    ensures StandsFor(cfg, Leave(cfg, s, Failure, now), history + [now], now)
    ensures |Leave(cfg, s, Failure, now).failureTimes| >= cfg.threshold <==> Trips(cfg, history, now)
  {
    assert Front(history + [now]) == history;
    if history != [] {
      RecentAbsorbs(Front(history), Last(history), now, cfg.window);
      RecentAppend(Recent(Front(history), Last(history), cfg.window), Last(history), now, cfg.window);
      assert Recent(s.failureTimes, now, cfg.window) == Recent(history, now, cfg.window);
    }
  }

  lemma EvaluateKeepsStanding(cfg: Config, s: State, history: seq<real>, before: real, now: real)
    requires before <= now && StandsFor(cfg, s, history, before)
    ensures StandsFor(cfg, Evaluate(cfg, s, now), history, now)
  {
  }

  lemma StepKeepsStanding(cfg: Config, s: State, history: seq<real>, before: real, e: Event)
    requires before <= e.now && StandsFor(cfg, s, history, before)
    ensures StandsFor(cfg, Step(cfg, s, e), AfterEvent(history, e), e.now)
  {
    match e {
      case Enter(_, now) => EvaluateKeepsStanding(cfg, s, history, before, now);
      case Exit(_, Failure, now) => FailureKeepsStanding(cfg, s, history, before, now);
      case Exit(_, _, _) =>
      case Reset(_) =>
      case Observe(now) => EvaluateKeepsStanding(cfg, s, history, before, now);
    }
  }

  /** Mode, opening time and stored failures are a function of the full failure history:
      the incremental pruning loses nothing, and stale exits cannot confuse it. */
  lemma {:induction false} StateFromHistory(cfg: Config, es: seq<Event>)
    requires ClockOk(es)
    ensures es != [] ==> StandsFor(cfg, Run(cfg, es), FailuresSinceClear(es), Last(es).now)
    ensures es == [] ==> forall now :: StandsFor(cfg, Run(cfg, es), FailuresSinceClear(es), now)
  {
    if es != [] {
      StateFromHistory(cfg, Front(es));
      var before := if |es| == 1 then Last(es).now else Last(Front(es)).now;
      StepKeepsStanding(cfg, Run(cfg, Front(es)), FailuresSinceClear(Front(es)), before, Last(es));
    }
  }

  lemma StandsForFrom(cfg: Config, es: seq<Event>, now: real)
    requires ClockOk(es) && (es != [] ==> Last(es).now <= now)
    ensures StandsFor(cfg, Run(cfg, es), FailuresSinceClear(es), now)
  {
    StateFromHistory(cfg, es);
  }

  /** Closed exactly while unopened; and then fewer failures are stored than trip. */
  lemma ClosedInvariant(cfg: Config, es: seq<Event>)
    requires ClockOk(es)
    ensures
      var s := Run(cfg, es);
      && (s.mode.CLOSED? <==> s.openedAt.None?)
      && (s.mode.CLOSED? ==> |s.failureTimes| < Max(1, cfg.threshold))
      && (s.probeInFlight ==> s.mode.HALF_OPEN?)
  {
    StandsForFrom(cfg, es, if es == [] then 0.0 else Last(es).now);
  }

  lemma OnlyFailuresOpen(cfg: Config, s: State, e: Event)
    requires s.mode.CLOSED? && !(e.Exit? && e.outcome.Failure?)
    ensures Step(cfg, s, e).mode.CLOSED?
  {
  }

  lemma ClosedFailure(cfg: Config, s: State, history: seq<real>, now: real)
    requires StandsFor(cfg, s, history, now) && s.mode.CLOSED?
    ensures
      var t := Leave(cfg, s, Failure, now);
      if Trips(cfg, history, now) then t.mode.OPEN? && t.openedAt == Some(now) else t.mode.CLOSED?
  {
    FailureKeepsStanding(cfg, s, history, now, now);
  }

  /** The breaker leaves CLOSED at a failure that is at least the threshold-th of its
      window since the last success or reset, and at nothing else. */
  lemma TripExactness(cfg: Config, es: seq<Event>, e: Event)
    requires ClockOk(es + [e])
    requires Run(cfg, es).mode.CLOSED?
    ensures !Run(cfg, es + [e]).mode.CLOSED?
       <==> e.Exit? && e.outcome.Failure? && Trips(cfg, FailuresSinceClear(es), e.now)
    ensures !Run(cfg, es + [e]).mode.CLOSED?
        ==> Run(cfg, es + [e]).mode.OPEN? && Run(cfg, es + [e]).openedAt == Some(e.now)
  {
    ClockSnoc(es, e);
    StandsForFrom(cfg, es, e.now);
    RunSnoc(cfg, es, e);
    if e.Exit? && e.outcome.Failure? {
      ClosedFailure(cfg, Run(cfg, es), FailuresSinceClear(es), e.now);
    } else {
      OnlyFailuresOpen(cfg, Run(cfg, es), e);
    }
  }

  lemma FailureOutcome(cfg: Config, s: State, history: seq<real>, now: real)
    requires StandsFor(cfg, s, history, now)
    ensures
      var t := Leave(cfg, s, Failure, now);
      if Trips(cfg, history, now) then t.mode.OPEN?
      else t.mode == s.mode && !t.probeInFlight
  {
    FailureKeepsStanding(cfg, s, history, now, now);
  }

  /** Whether a failing exit leaves the breaker open, in any mode. In HALF_OPEN this is
      not every failure: the window still decides. */
  lemma FailureReopensIff(cfg: Config, es: seq<Event>, call: nat, now: real)
    requires ClockOk(es + [Exit(call, Failure, now)])
    ensures
      var after := Run(cfg, es + [Exit(call, Failure, now)]);
      && (after.mode.OPEN? <==> Run(cfg, es).mode.OPEN? || Trips(cfg, FailuresSinceClear(es), now))
      && (!after.mode.OPEN? ==> after.mode == Run(cfg, es).mode && !after.probeInFlight)
  {
    var e := Exit(call, Failure, now);
    ClockSnoc(es, e);
    StandsForFrom(cfg, es, now);
    RunSnoc(cfg, es, e);
    FailureOutcome(cfg, Run(cfg, es), FailuresSinceClear(es), now);
  }

  /** A call is admitted exactly when nothing tripped since the last success or reset,
      or the latest trip is old enough and no probe is out. */
  lemma AdmissionExact(cfg: Config, es: seq<Event>, now: real)
    requires ClockOk(es) && (es != [] ==> Last(es).now <= now)
    ensures
      var trip := LastTrip(cfg, FailuresSinceClear(es));
      TryEnter(cfg, Run(cfg, es), now).1
      <==> (trip.None? || (&& trip.value != 0.0 && now >= trip.value + cfg.resetTimeout
                           && !Run(cfg, es).probeInFlight))
  {
    StandsForFrom(cfg, es, now);
  }

  lemma ClockSnoc(es: seq<Event>, e: Event)
    requires ClockOk(es + [e])
    ensures ClockOk(es) && (es != [] ==> Last(es).now <= e.now)
  {
    assert (es + [e])[|es|] == e;
    forall i, j | 0 <= i < j < |es| ensures es[i].now <= es[j].now {
      assert es[i] == (es + [e])[i] && es[j] == (es + [e])[j];
    }
    if es != [] {
      assert Last(es) == (es + [e])[|es| - 1];
    }
  }

  lemma RunSnoc(cfg: Config, es: seq<Event>, e: Event)
    ensures Run(cfg, es + [e]) == Step(cfg, Run(cfg, es), e)
    ensures InFlight(cfg, es + [e]) == InFlight(cfg, es) + Flow(cfg, Run(cfg, es), e)
  {
    assert Front(es + [e]) == es;
  }

  // ---- Calls in flight ----

  /** +1 for an admission, -1 for an exit. */
  function Flow(cfg: Config, s: State, e: Event): int {
    match e
    case Enter(_, now) => if TryEnter(cfg, s, now).1 then 1 else 0
    case Exit(_, _, _) => -1
    case _ => 0
  }

  function InFlight(cfg: Config, es: seq<Event>): int {
    if es == [] then 0 else InFlight(cfg, Front(es)) + Flow(cfg, Run(cfg, Front(es)), Last(es))
  }

  function Enters(es: seq<Event>): nat {
    if es == [] then 0 else Enters(Front(es)) + (if Last(es).Enter? then 1 else 0)
  }

  function Exits(es: seq<Event>): nat {
    if es == [] then 0 else Exits(Front(es)) + (if Last(es).Exit? then 1 else 0)
  }

  function FailedExits(es: seq<Event>): nat {
    if es == [] then 0
    else FailedExits(Front(es)) + (if Last(es).Exit? && Last(es).outcome.Failure? then 1 else 0)
  }

  lemma StepCounts(cfg: Config, s: State, e: Event)
    ensures
      var t := Step(cfg, s, e);
      && t.totalCalls + t.totalShortCircuits == s.totalCalls + s.totalShortCircuits + (if e.Enter? then 1 else 0)
      && t.totalCalls == s.totalCalls + Flow(cfg, s, e) + (if e.Exit? then 1 else 0)
      && t.totalFailures == s.totalFailures + (if e.Exit? && e.outcome.Failure? then 1 else 0)
  {
  }

  /** No attempt is lost: it was admitted or short-circuited, and an admitted call has
      exited or is still in flight. */
  lemma {:induction false} Accounting(cfg: Config, es: seq<Event>)
    ensures Run(cfg, es).totalCalls + Run(cfg, es).totalShortCircuits == Enters(es)
    ensures Run(cfg, es).totalCalls == Exits(es) + InFlight(cfg, es)
    ensures Run(cfg, es).totalFailures == FailedExits(es)
  {
    if es != [] {
      Accounting(cfg, Front(es));
      StepCounts(cfg, Run(cfg, Front(es)), Last(es));
    }
  }

  /** The event admits a call in HALF_OPEN. */
  predicate TakesSlot(cfg: Config, s: State, e: Event) {
    e.Enter? && Evaluate(cfg, s, e.now).mode.HALF_OPEN? && TryEnter(cfg, s, e.now).1
  }

  predicate AdmitsProbe(cfg: Config, es: seq<Event>, i: nat)
    requires i < |es|
  {
    TakesSlot(cfg, Run(cfg, es[..i]), es[i])
  }

  predicate Releases(e: Event) {
    e.Exit? || e.Reset?
  }

  lemma {:induction false} ProbeStaysOut(cfg: Config, es: seq<Event>, i: nat, m: nat)
    requires i < m <= |es| && AdmitsProbe(cfg, es, i)
    requires forall k :: i < k < m ==> !Releases(es[k])
    ensures Run(cfg, es[..m]).mode.HALF_OPEN? && Run(cfg, es[..m]).probeInFlight
  {
    assert es[..m] == es[..m - 1] + [es[m - 1]];
    RunSnoc(cfg, es[..m - 1], es[m - 1]);
    if m > i + 1 {
      ProbeStaysOut(cfg, es, i, m - 1);
    }
  }

  /** Between two admissions in HALF_OPEN some call exits or somebody resets. */
  lemma ReleaseBetweenProbes(cfg: Config, es: seq<Event>, i: nat, j: nat)
    requires i < j < |es| && AdmitsProbe(cfg, es, i) && AdmitsProbe(cfg, es, j)
    ensures exists k :: i < k < j && Releases(es[k])
  {
    if forall k :: i < k < j ==> !Releases(es[k]) {
      ProbeStaysOut(cfg, es, i, j);
    }
  }

  /** After event `a` the breaker is HALF_OPEN without a break until after event `b`. */
  ghost predicate HalfOpenPhase(cfg: Config, es: seq<Event>, a: nat, b: nat)
    requires a <= b <= |es|
  {
    && !Run(cfg, es[..a]).probeInFlight
    && forall k :: a < k <= b ==> Run(cfg, es[..k]).mode.HALF_OPEN?
  }

  /** While HALF_OPEN, only taking the free probe slot adds a call. */
  lemma SlotPaysForCall(cfg: Config, s: State, e: Event)
    requires Step(cfg, s, e).mode.HALF_OPEN?
    ensures Flow(cfg, s, e) + (if s.probeInFlight then 1 else 0)
         <= if Step(cfg, s, e).probeInFlight then 1 else 0
  {
  }

  lemma PhaseStep(cfg: Config, es: seq<Event>, e: Event, atStart: int)
    requires InFlight(cfg, es) <= atStart + (if Run(cfg, es).probeInFlight then 1 else 0)
    requires Run(cfg, es + [e]).mode.HALF_OPEN?
    ensures InFlight(cfg, es + [e]) <= atStart + (if Run(cfg, es + [e]).probeInFlight then 1 else 0)
  {
    RunSnoc(cfg, es, e);
    SlotPaysForCall(cfg, Run(cfg, es), e);
  }

  /** A HALF_OPEN phase adds at most one call to those in flight when it began; if all
      earlier calls had exited, at most one is in flight while it lasts. */
  lemma {:induction false} HalfOpenConcurrency(cfg: Config, es: seq<Event>, a: nat, b: nat)
    requires a <= b <= |es| && HalfOpenPhase(cfg, es, a, b)
    ensures InFlight(cfg, es[..b])
         <= InFlight(cfg, es[..a]) + (if Run(cfg, es[..b]).probeInFlight then 1 else 0)
    ensures InFlight(cfg, es[..a]) == 0 ==> InFlight(cfg, es[..b]) <= 1
  {
    if a < b {
      HalfOpenConcurrency(cfg, es, a, b - 1);
      assert es[..b] == es[..b - 1] + [es[b - 1]];
      PhaseStep(cfg, es[..b - 1], es[b - 1], InFlight(cfg, es[..a]));
    }
  }

  // ---- Which calls are in flight ----

  /** The calls that have entered, admitted or not. */
  function Entered(es: seq<Event>): set<nat> {
    if es == [] then {} else Entered(Front(es)) + (if Last(es).Enter? then {Last(es).call} else {})
  }

  function CallsAfter(calls: set<nat>, cfg: Config, s: State, e: Event): set<nat> {
    match e
    case Enter(call, now) => if TryEnter(cfg, s, now).1 then calls + {call} else calls
    case Exit(call, _, _) => calls - {call}
    case _ => calls
  }

  function CallsInFlight(cfg: Config, es: seq<Event>): set<nat> {
    if es == [] then {}
    else CallsAfter(CallsInFlight(cfg, Front(es)), cfg, Run(cfg, Front(es)), Last(es))
  }

  /** The calls admitted in HALF_OPEN, ever. */
  function Probes(cfg: Config, es: seq<Event>): set<nat> {
    if es == [] then {}
    else Probes(cfg, Front(es)) + (if TakesSlot(cfg, Run(cfg, Front(es)), Last(es)) then {Last(es).call} else {})
  }

  /** Every call enters once, and only calls in flight exit. */
  predicate Proper(cfg: Config, es: seq<Event>) {
    es == [] ||
    (&& Proper(cfg, Front(es))
     && (Last(es).Enter? ==> Last(es).call !in Entered(Front(es)))
     && (Last(es).Exit? ==> Last(es).call in CallsInFlight(cfg, Front(es))))
  }

  lemma TrackSnoc(cfg: Config, es: seq<Event>, e: Event)
    ensures Run(cfg, es + [e]) == Step(cfg, Run(cfg, es), e)
    ensures CallsInFlight(cfg, es + [e]) == CallsAfter(CallsInFlight(cfg, es), cfg, Run(cfg, es), e)
    ensures Entered(es + [e]) == Entered(es) + (if e.Enter? then {e.call} else {})
    ensures Probes(cfg, es + [e]) == Probes(cfg, es) + (if TakesSlot(cfg, Run(cfg, es), e) then {e.call} else {})
    ensures Proper(cfg, es + [e]) <==>
      && Proper(cfg, es) && (e.Enter? ==> e.call !in Entered(es))
      && (e.Exit? ==> e.call in CallsInFlight(cfg, es))
  {
    assert Front(es + [e]) == es;
  }

  /** By name or by number, the calls in flight are the same. */
  lemma {:induction false} FlightsCounted(cfg: Config, es: seq<Event>)
    requires Proper(cfg, es)
    ensures CallsInFlight(cfg, es) <= Entered(es)
    ensures |CallsInFlight(cfg, es)| == InFlight(cfg, es)
  {
    if es != [] {
      FlightsCounted(cfg, Front(es));
    }
  }

  /** Above every call that has entered. */
  function FreshCall(es: seq<Event>): nat {
    if es == [] then 0
    else Max(FreshCall(Front(es)), if Last(es).Enter? then Last(es).call + 1 else 0)
  }

  lemma {:induction false} FreshCallIsFresh(es: seq<Event>)
    ensures forall c :: c in Entered(es) ==> c < FreshCall(es)
  {
    if es != [] {
      FreshCallIsFresh(Front(es));
    }
  }

  /** Two calls that entered after `es` as probes are in flight after `all`. */
  predicate BothOut(cfg: Config, es: seq<Event>, all: seq<Event>, c: nat, d: nat) {
    && c != d && c !in Entered(es) && d !in Entered(es)
    && c in Probes(cfg, all) && d in Probes(cfg, all)
    && c in CallsInFlight(cfg, all) && d in CallsInFlight(cfg, all)
  }

  /** After `es` the breaker stays HALF_OPEN through `more`, at the end of which two calls
      admitted in that phase are in flight. */
  ghost predicate TwoProbesOut(cfg: Config, es: seq<Event>, more: seq<Event>) {
    && ClockOk(es + more) && Proper(cfg, es + more)
    && HalfOpenPhase(cfg, es + more, |es|, |es + more|)
    && exists c, d :: BothOut(cfg, es, es + more, c, d)
  }

  lemma QuietPhase(cfg: Config, all: seq<Event>, n: nat)
    requires n <= |all| && HalfOpenPhase(cfg, all, n, |all|)
    requires Proper(cfg, all) && InFlight(cfg, all[..n]) == 0
    ensures |CallsInFlight(cfg, all)| <= 1
  {
    assert all[..|all|] == all;
    FlightsCounted(cfg, all);
    HalfOpenConcurrency(cfg, all, n, |all|);
  }

  lemma TwoMembers(calls: set<nat>, c: nat, d: nat)
    requires c != d && c in calls && d in calls
    ensures |calls| >= 2
  {
    SubsetSize({c, d}, calls);
  }

  lemma QuietStartOneProbe(cfg: Config, es: seq<Event>, more: seq<Event>)
    requires CallsInFlight(cfg, es) == {} && Proper(cfg, es)
    ensures !TwoProbesOut(cfg, es, more)
  {
    if TwoProbesOut(cfg, es, more) {
      var all := es + more;
      assert all[..|es|] == es;
      FlightsCounted(cfg, es);
      QuietPhase(cfg, all, |es|);
      var c, d :| BothOut(cfg, es, all, c, d);
      TwoMembers(CallsInFlight(cfg, all), c, d);
    }
  }

  lemma {:induction false} SubsetSize(a: set<nat>, b: set<nat>)
    requires a <= b
    ensures |a| <= |b|
  {
    if a != {} {
      var x :| x in a;
      SubsetSize(a - {x}, b - {x});
    }
  }

  /** While OPEN the slot is free. */
  lemma OpenSlotFree(cfg: Config, es: seq<Event>)
    requires ClockOk(es) && Run(cfg, es).mode.OPEN?
    ensures !Run(cfg, es).probeInFlight
  {
    ClosedInvariant(cfg, es);
  }

  /** An old call that exits between two new ones makes room for the second. */
  lemma SqueezeSteps(cfg: Config, es: seq<Event>, oldCall: nat, c: nat, d: nat, now: real)
    requires Proper(cfg, es) && !Run(cfg, es).probeInFlight && Evaluate(cfg, Run(cfg, es), now).mode.HALF_OPEN?
    requires oldCall in CallsInFlight(cfg, es) && oldCall in Entered(es)
    requires c !in Entered(es) && d !in Entered(es) && c != d
    ensures
      var e1 := es + [Enter(c, now)];
      var e2 := e1 + [Exit(oldCall, ShortCircuit, now)];
      var e3 := e2 + [Enter(d, now)];
      && Run(cfg, e1).mode.HALF_OPEN? && Run(cfg, e2).mode.HALF_OPEN? && Run(cfg, e3).mode.HALF_OPEN?
      && Proper(cfg, e3) && BothOut(cfg, es, e3, c, d)
  {
    var e1 := es + [Enter(c, now)];
    var e2 := e1 + [Exit(oldCall, ShortCircuit, now)];
    TrackSnoc(cfg, es, Enter(c, now));
    TrackSnoc(cfg, e1, Exit(oldCall, ShortCircuit, now));
    TrackSnoc(cfg, e2, Enter(d, now));
  }

  lemma ClockAt(es: seq<Event>, more: seq<Event>, now: real)
    requires ClockOk(es) && (es != [] ==> Last(es).now <= now)
    requires forall e :: e in more ==> e.now == now
    ensures ClockOk(es + more)
  {
    var all := es + more;
    forall i, j | 0 <= i < j < |all| ensures all[i].now <= all[j].now {
      if j >= |es| {
        assert all[j] in more;
        if i >= |es| {
          assert all[i] in more;
        } else {
          assert all[i] == es[i] && es[i].now <= Last(es).now;
        }
      }
    }
  }

  lemma Prefixes<T>(s: seq<T>, e: T, f: T, g: T)
    ensures
      var all := s + [e, f, g];
      && all[..|s|] == s && all[..|s| + 1] == s + [e] && all[..|s| + 2] == s + [e] + [f]
      && all[..|s| + 3] == all && all == s + [e] + [f] + [g]
  {
  }

  lemma ThreeMoreHalfOpen(cfg: Config, all: seq<Event>, n: nat)
    requires n + 3 == |all| && !Run(cfg, all[..n]).probeInFlight
    requires Run(cfg, all[..n + 1]).mode.HALF_OPEN? && Run(cfg, all[..n + 2]).mode.HALF_OPEN?
    requires Run(cfg, all[..n + 3]).mode.HALF_OPEN?
    ensures HalfOpenPhase(cfg, all, n, n + 3)
  {
    forall k | n < k <= n + 3 ensures Run(cfg, all[..k]).mode.HALF_OPEN? {
      assert k == n + 1 || k == n + 2 || k == n + 3;
    }
  }

  lemma StragglerMakesRoom(
      cfg: Config, es: seq<Event>, all: seq<Event>, straggler: nat, c: nat, d: nat, now: real)
    requires Proper(cfg, es) && !Run(cfg, es).probeInFlight && Evaluate(cfg, Run(cfg, es), now).mode.HALF_OPEN?
    requires straggler in CallsInFlight(cfg, es) && straggler in Entered(es)
    requires c !in Entered(es) && d !in Entered(es) && c != d
    requires all == es + [Enter(c, now), Exit(straggler, ShortCircuit, now), Enter(d, now)]
    ensures Proper(cfg, all) && HalfOpenPhase(cfg, all, |es|, |all|) && BothOut(cfg, es, all, c, d)
  {
    SqueezeSteps(cfg, es, straggler, c, d, now);
    Prefixes(es, Enter(c, now), Exit(straggler, ShortCircuit, now), Enter(d, now));
    ThreeMoreHalfOpen(cfg, all, |es|);
  }

  lemma FreshPair(cfg: Config, es: seq<Event>) returns (c: nat, d: nat)
    requires Proper(cfg, es)
    ensures c !in Entered(es) && d !in Entered(es) && c != d && CallsInFlight(cfg, es) <= Entered(es)
  {
    FlightsCounted(cfg, es);
    FreshCallIsFresh(es);
    c, d := FreshCall(es), FreshCall(es) + 1;
  }

  lemma BusyStartTwoProbes(cfg: Config, es: seq<Event>, now: real)
    requires ClockOk(es) && Proper(cfg, es) && (es != [] ==> Last(es).now <= now)
    requires !Run(cfg, es).probeInFlight && Evaluate(cfg, Run(cfg, es), now).mode.HALF_OPEN?
    requires CallsInFlight(cfg, es) != {}
    ensures exists more :: TwoProbesOut(cfg, es, more)
  {
    var c, d := FreshPair(cfg, es);
    var straggler :| straggler in CallsInFlight(cfg, es);
    var more := [Enter(c, now), Exit(straggler, ShortCircuit, now), Enter(d, now)];
    StragglerMakesRoom(cfg, es, es + more, straggler, c, d, now);
    ClockAt(es, more, now);
    assert TwoProbesOut(cfg, es, more);
  }

  /** "Only one probe at a time", exactly: when a HALF_OPEN phase begins, it can come to hold
      two of its own calls in flight if and only if some earlier call is still in flight
      at that moment. */
  lemma TwoProbesIffStraggler(cfg: Config, es: seq<Event>, now: real)
    requires ClockOk(es) && Proper(cfg, es) && (es != [] ==> Last(es).now <= now)
    requires Run(cfg, es).mode.OPEN? && Evaluate(cfg, Run(cfg, es), now).mode.HALF_OPEN?
    ensures (exists more :: TwoProbesOut(cfg, es, more)) <==> CallsInFlight(cfg, es) != {}
  {
    OpenSlotFree(cfg, es);
    if CallsInFlight(cfg, es) != {} {
      BusyStartTwoProbes(cfg, es, now);
    } else {
      forall more ensures !TwoProbesOut(cfg, es, more) {
        QuietStartOneProbe(cfg, es, more);
      }
    }
  }

  // ---- Where the code is weaker than its own description ----

  const SMALL := Config(2, 10.0, 30.0)

  /** Three calls start. */
  const STARTED := [] + [Enter(0, 1.0)] + [Enter(1, 1.0)] + [Enter(2, 1.0)]

  /** Two of them fail and open the breaker. */
  const OUTAGE := STARTED + [Exit(0, Failure, 1.0)] + [Exit(1, Failure, 1.0)]

  lemma ThreeStarted()
    ensures Run(SMALL, STARTED) == INITIAL.(totalCalls := 3)
    ensures CallsInFlight(SMALL, STARTED) == {0, 1, 2} && Probes(SMALL, STARTED) == {}
    ensures Proper(SMALL, STARTED) && Entered(STARTED) == {0, 1, 2}
  {
    TrackSnoc(SMALL, [], Enter(0, 1.0));
    TrackSnoc(SMALL, [] + [Enter(0, 1.0)], Enter(1, 1.0));
    TrackSnoc(SMALL, [] + [Enter(0, 1.0)] + [Enter(1, 1.0)], Enter(2, 1.0));
  }

  lemma OutageOpens()
    ensures Run(SMALL, OUTAGE) == State(OPEN, [1.0, 1.0], Some(1.0), false, 3, 2, 0)
    ensures CallsInFlight(SMALL, OUTAGE) == {2} && Probes(SMALL, OUTAGE) == {}
    ensures Proper(SMALL, OUTAGE) && Entered(OUTAGE) == {0, 1, 2}
  {
    ThreeStarted();
    TrackSnoc(SMALL, STARTED, Exit(0, Failure, 1.0));
    TrackSnoc(SMALL, STARTED + [Exit(0, Failure, 1.0)], Exit(1, Failure, 1.0));
    RecentAppend([], 1.0, 1.0, 10.0);
    assert [] + [1.0] == [1.0];
  }

  lemma StaleFailuresForgotten()
    ensures Recent([1.0, 1.0], 41.0, 10.0) == []
  {
    RecentAppend([1.0], 1.0, 41.0, 10.0);
    RecentAppend([], 1.0, 41.0, 10.0);
    assert [1.0] + [1.0] == [1.0, 1.0] && [] + [1.0] == [1.0];
  }

  const PROBING := OUTAGE + [Enter(3, 40.0)]

  lemma ProbeTaken()
    ensures Run(SMALL, PROBING) == State(HALF_OPEN, [1.0, 1.0], Some(1.0), true, 4, 2, 0)
    ensures CallsInFlight(SMALL, PROBING) == {2, 3} && Probes(SMALL, PROBING) == {3}
    ensures Proper(SMALL, PROBING) && Entered(PROBING) == {0, 1, 2, 3}
  {
    OutageOpens();
    TrackSnoc(SMALL, OUTAGE, Enter(3, 40.0));
  }

  const STRAGGLED := PROBING + [Exit(2, Failure, 41.0)]

  lemma LateFailure(s: State)
    requires s.mode.HALF_OPEN? && s.failureTimes == [1.0, 1.0]
    ensures Leave(SMALL, s, Failure, 41.0)
         == s.(failureTimes := [41.0], probeInFlight := false, totalFailures := s.totalFailures + 1)
  {
    StaleFailuresForgotten();
    assert [] + [41.0] == [41.0];
  }

  lemma SlotFreed()
    ensures Run(SMALL, STRAGGLED) == State(HALF_OPEN, [41.0], Some(1.0), false, 4, 3, 0)
    ensures CallsInFlight(SMALL, STRAGGLED) == {3} && Probes(SMALL, STRAGGLED) == {3}
    ensures Proper(SMALL, STRAGGLED) && Entered(STRAGGLED) == {0, 1, 2, 3}
  {
    ProbeTaken();
    LateFailure(Run(SMALL, PROBING));
    TrackSnoc(SMALL, PROBING, Exit(2, Failure, 41.0));
  }

  /** Call 3 probes; call 2, left over from before the outage, fails without reopening the
      breaker; call 4 is admitted while call 3 is still out. */
  lemma StragglerFreesTheProbeSlot()
    ensures Run(SMALL, PROBING).mode.HALF_OPEN? && CallsInFlight(SMALL, PROBING) == {2, 3}
    ensures Run(SMALL, STRAGGLED).mode.HALF_OPEN? && CallsInFlight(SMALL, STRAGGLED) == {3}
    ensures
      var second := STRAGGLED + [Enter(4, 41.0)];
      && Run(SMALL, second).mode.HALF_OPEN? && CallsInFlight(SMALL, second) == {3, 4}
      && Probes(SMALL, second) == {3, 4} && Proper(SMALL, second)
  {
    ProbeTaken();
    SlotFreed();
    TrackSnoc(SMALL, STRAGGLED, Enter(4, 41.0));
  }
}
