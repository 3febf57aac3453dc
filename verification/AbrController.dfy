/** The adaptive-bitrate controller: a hysteresis loop over a ladder of bitrate rungs.
    Clock readings are reals; a ramp takes a second, later reading than its event. */
module AbrController {
  import opened Common

  datatype Rung = Rung(minKbps: int, maxKbps: int, targetKbps: int)

  datatype Mode = IDLE | RAMPING_UP | STABLE | CONGESTED | RAMPING_DOWN | THROTTLED | PAUSED

  datatype Signal = REMB | TRANSPORT_CC | PLI | NACK | FIR | PACKET_LOSS | RTT_SPIKE

  datatype Config = Config(
    ladder: seq<Rung>, rampUpInterval: real, rampDownInterval: real, congestionCooldown: real,
    batteryThreshold: int, throttleRung: nat)

  datatype State = State(
    rung: nat, mode: Mode, lastUp: real, lastDown: real, lastCongestion: real, target: int)

  datatype Event =
    | Estimate(now: real, later: real, available: real)
    | Congestion(now: real, later: real, signal: Signal)
    | BatteryLow(now: real, later: real, percent: int)
    | Thermal(now: real, later: real)
    | ClearThrottle(now: real, later: real)

  datatype Settings = Settings(bitrateKbps: int, rungIndex: nat)

  const DEFAULT_LADDER := [
    Rung(300, 800, 500), Rung(500, 1500, 1000), Rung(1000, 4000, 2500), Rung(2000, 8000, 5000)]

  /** The constructor replaces an empty ladder. */
  predicate ValidConfig(cfg: Config) {
    cfg.ladder != []
  }

  predicate InRange(cfg: Config, s: State) {
    s.rung < |cfg.ladder|
  }

  function Top(cfg: Config): nat
    requires ValidConfig(cfg)
  {
    |cfg.ladder| - 1
  }

  function Initial(cfg: Config, initialRung: nat): (s: State)
    requires ValidConfig(cfg)
    ensures InRange(cfg, s)
  {
    var r := Min(initialRung, Top(cfg));
    State(r, IDLE, 0.0, 0.0, 0.0, cfg.ladder[r].targetKbps)
  }

  predicate Deficit(cfg: Config, r: nat, available: real)
    requires r < |cfg.ladder|
  {
    available < cfg.ladder[r].minKbps as real * 0.8
  }

  predicate Surplus(cfg: Config, r: nat, available: real)
    requires r < |cfg.ladder|
  {
    available > cfg.ladder[r].maxKbps as real * 1.2
  }

  function RampUp(cfg: Config, s: State, at: real): (t: State)
    requires ValidConfig(cfg) && InRange(cfg, s)
    ensures InRange(cfg, t)
  {
    if s.mode.THROTTLED? || s.rung >= Top(cfg) then s
    else s.(rung := s.rung + 1, target := cfg.ladder[s.rung + 1].targetKbps, lastUp := at, mode := RAMPING_UP)
  }

  function RampDown(cfg: Config, s: State, at: real): (t: State)
    requires ValidConfig(cfg) && InRange(cfg, s)
    ensures InRange(cfg, t)
  {
    if s.rung == 0 then
      s.(target := Max(cfg.ladder[0].minKbps, Truncate(s.target as real * 0.7)), mode := CONGESTED)
    else
      s.(rung := s.rung - 1, target := cfg.ladder[s.rung - 1].targetKbps, lastDown := at, mode := RAMPING_DOWN)
  }

  /** The share of the rung's span that the estimate pays for. */
  function StableTarget(r: Rung, available: real): int
    requires r.maxKbps != 0
  {
    var share := available / r.maxKbps as real;
    var ratio := if share <= 1.0 then share else 1.0;
    Truncate(r.minKbps as real + ratio * (r.maxKbps - r.minKbps) as real)
  }

  function OnEstimate(cfg: Config, s: State, now: real, later: real, available: real): (t: State)
    requires ValidConfig(cfg) && InRange(cfg, s)
    ensures InRange(cfg, t)
  {
    if now - s.lastCongestion < cfg.congestionCooldown then s
    else if Deficit(cfg, s.rung, available) then
      if now - s.lastDown >= cfg.rampDownInterval then RampDown(cfg, s, later) else s
    else if Surplus(cfg, s.rung, available) then
      if now - s.lastUp >= cfg.rampUpInterval then RampUp(cfg, s, later) else s
    else if Divides(cfg, s) then s.(target := StableTarget(cfg.ladder[s.rung], available), mode := STABLE)
    else s
  }

  /** The proportional target divides by the rung's maximum. */
  predicate Divides(cfg: Config, s: State)
    requires InRange(cfg, s)
  {
    cfg.ladder[s.rung].maxKbps != 0
  }

  /** The estimates whose handling raises a division by zero; they change nothing. */
  predicate Raises(cfg: Config, s: State, now: real, available: real)
    requires InRange(cfg, s)
  {
    && now - s.lastCongestion >= cfg.congestionCooldown && !Divides(cfg, s)
    && !Deficit(cfg, s.rung, available) && !Surplus(cfg, s.rung, available)
  }

  function OnCongestion(cfg: Config, s: State, now: real, later: real, signal: Signal): (t: State)
    requires ValidConfig(cfg) && InRange(cfg, s)
    ensures InRange(cfg, t)
  {
    var c := s.(lastCongestion := now);
    match signal
    case PLI => RampDown(cfg, c, later)
    case FIR => RampDown(cfg, c, later)
    case PACKET_LOSS => RampDown(cfg, c, later)
    case NACK => c.(target := Truncate(c.target as real * 0.8), mode := CONGESTED)
    case RTT_SPIKE => c.(target := Truncate(c.target as real * 0.7), mode := CONGESTED)
    case REMB => c
    case TRANSPORT_CC => c
  }

  function Throttle(cfg: Config, s: State, limit: nat): (t: State)
    requires ValidConfig(cfg) && InRange(cfg, s)
    ensures InRange(cfg, t)
  {
    var capped := if s.rung > limit then s.(rung := limit, target := cfg.ladder[limit].targetKbps) else s;
    capped.(mode := THROTTLED)
  }

  function Step(cfg: Config, s: State, e: Event): (t: State)
    requires ValidConfig(cfg) && InRange(cfg, s)
    ensures InRange(cfg, t)
  {
    match e
    case Estimate(now, later, available) => OnEstimate(cfg, s, now, later, available)
    case Congestion(now, later, signal) => OnCongestion(cfg, s, now, later, signal)
    case BatteryLow(_, _, percent) =>
      if percent < cfg.batteryThreshold then Throttle(cfg, s, cfg.throttleRung) else s
    case Thermal(_, _) => Throttle(cfg, s, Min(cfg.throttleRung, Top(cfg)))
    case ClearThrottle(_, _) => if s.mode.THROTTLED? then s.(mode := STABLE) else s
  }

  /** The rung stays on the ladder in every run, from any state on it. */
  function Run(cfg: Config, s: State, es: seq<Event>): (t: State)
    requires ValidConfig(cfg) && InRange(cfg, s)
    ensures InRange(cfg, t)
  {
    if es == [] then s else Step(cfg, Run(cfg, s, Front(es)), Last(es))
  }

  function CurrentSettings(cfg: Config, s: State): Settings
    requires InRange(cfg, s)
  {
    var r := cfg.ladder[s.rung];
    Settings(Max(r.minKbps, Min(s.target, r.maxKbps)), s.rung)
  }

  class Controller {
    const cfg: Config
    var rung: nat
    var mode: Mode
    var lastUp: real
    var lastDown: real
    var lastCongestion: real
    var target: int

    function View(): State
      reads this
    {
      State(rung, mode, lastUp, lastDown, lastCongestion, target)
    }

    ghost predicate Valid()
      reads this
    {
      ValidConfig(cfg) && InRange(cfg, View())
    }

    /** An empty ladder is replaced by the default one. */
    constructor (cfg: Config, initialRung: nat)
      ensures this.cfg == if cfg.ladder == [] then cfg.(ladder := DEFAULT_LADDER) else cfg
      ensures Valid() && View() == Initial(this.cfg, initialRung)
    {
      var ladder := if cfg.ladder == [] then DEFAULT_LADDER else cfg.ladder;
      this.cfg := cfg.(ladder := ladder);
      rung := Min(initialRung, |ladder| - 1);
      mode := IDLE;
      lastUp, lastDown, lastCongestion := 0.0, 0.0, 0.0;
      target := ladder[Min(initialRung, |ladder| - 1)].targetKbps;
    }

    method GetCurrentSettings() returns (r: Settings)
      requires Valid()
      ensures r == CurrentSettings(cfg, View())
    {
      var current := cfg.ladder[rung];
      r := Settings(Max(current.minKbps, Min(target, current.maxKbps)), rung);
    }

    /** No settings are returned where the division raises. */
    method OnNetworkEstimate(now: real, later: real, available: real) returns (r: Option<Settings>)
      requires Valid()
      modifies this
      ensures Valid() && View() == Step(cfg, old(View()), Estimate(now, later, available))
      ensures r == if old(Raises(cfg, View(), now, available)) then None else Some(CurrentSettings(cfg, View()))
    {
      var current := cfg.ladder[rung];
      if now - lastCongestion < cfg.congestionCooldown {
        var settled := GetCurrentSettings();
        return Some(settled);
      }
      if available < current.minKbps as real * 0.8 {
        if now - lastDown >= cfg.rampDownInterval {
          StepDown(later);
        }
      } else if available > current.maxKbps as real * 1.2 {
        if now - lastUp >= cfg.rampUpInterval {
          StepUp(later);
        }
      } else if current.maxKbps == 0 {
        return None;
      } else {
        target := StableTarget(current, available);
        mode := STABLE;
      }
      var settings := GetCurrentSettings();
      return Some(settings);
    }

    method HandleCongestion(now: real, later: real, signal: Signal) returns (r: Settings)
      requires Valid()
      modifies this
      ensures Valid() && View() == Step(cfg, old(View()), Congestion(now, later, signal))
      ensures r == CurrentSettings(cfg, View())
    {
      lastCongestion := now;
      if signal in {PLI, FIR} {
        StepDown(later);
      } else if signal == NACK {
        target := Truncate(target as real * 0.8);
        mode := CONGESTED;
      } else if signal == PACKET_LOSS {
        StepDown(later);
      } else if signal == RTT_SPIKE {
        target := Truncate(target as real * 0.7);
        mode := CONGESTED;
      }
      r := GetCurrentSettings();
    }

    method OnBatteryLow(now: real, later: real, percent: int) returns (r: Settings)
      requires Valid()
      modifies this
      ensures Valid() && View() == Step(cfg, old(View()), BatteryLow(now, later, percent))
      ensures r == CurrentSettings(cfg, View())
    {
      if percent < cfg.batteryThreshold {
        if rung > cfg.throttleRung {
          rung := cfg.throttleRung;
          target := cfg.ladder[rung].targetKbps;
        }
        mode := THROTTLED;
      }
      r := GetCurrentSettings();
    }

    method OnThermalThrottle(now: real, later: real) returns (r: Settings)
      requires Valid()
      modifies this
      ensures Valid() && View() == Step(cfg, old(View()), Thermal(now, later))
      ensures r == CurrentSettings(cfg, View())
    {
      var limit := Min(cfg.throttleRung, |cfg.ladder| - 1);
      if rung > limit {
        rung := limit;
        target := cfg.ladder[limit].targetKbps;
      }
      mode := THROTTLED;
      r := GetCurrentSettings();
    }

    method Unthrottle(now: real, later: real)
      requires Valid()
      modifies this
      ensures Valid() && View() == Step(cfg, old(View()), ClearThrottle(now, later))
    {
      if mode == THROTTLED {
        mode := STABLE;
      }
    }

    method StepUp(at: real)
      requires Valid()
      modifies this
      ensures Valid() && View() == RampUp(cfg, old(View()), at)
    {
      if mode == THROTTLED {
        return;
      }
      if rung >= |cfg.ladder| - 1 {
        return;
      }
      rung := rung + 1;
      target := cfg.ladder[rung].targetKbps;
      lastUp := at;
      mode := RAMPING_UP;
    }

    method StepDown(at: real)
      requires Valid()
      modifies this
      ensures Valid() && View() == RampDown(cfg, old(View()), at)
    {
      if rung <= 0 {
        target := Max(cfg.ladder[0].minKbps, Truncate(target as real * 0.7));
        mode := CONGESTED;
        return;
      }
      rung := rung - 1;
      target := cfg.ladder[rung].targetKbps;
      lastDown := at;
      mode := RAMPING_DOWN;
    }
  }

  // ---- What the encoder is told ----

  /** Never below the rung's minimum; within its maximum too, unless the ladder's limits
      are crossed (as a configured cap below a rung's minimum makes them). */
  lemma EmittedWithinRung(cfg: Config, s: State)
    requires InRange(cfg, s)
    ensures
      var r, out := cfg.ladder[s.rung], CurrentSettings(cfg, s).bitrateKbps;
      r.minKbps <= out && (out <= r.maxKbps <==> r.minKbps <= r.maxKbps)
    ensures
      var r, out := cfg.ladder[s.rung], CurrentSettings(cfg, s);
      && out.rungIndex == s.rung
      && (r.minKbps <= s.target <= r.maxKbps ==> out.bitrateKbps == s.target)
      && (r.minKbps <= r.maxKbps < s.target ==> out.bitrateKbps == r.maxKbps)
      && (s.target < r.minKbps ==> out.bitrateKbps == r.minKbps)
  {
  }

  /** Between the two hysteresis limits the proportional target needs no clamping. */
  lemma StableTargetWithinRung(r: Rung, available: real)
    requires 0 <= r.minKbps <= r.maxKbps && r.maxKbps > 0 && available >= 0.0
    ensures r.minKbps <= StableTarget(r, available) <= r.maxKbps
  {
    var share := available / r.maxKbps as real;
    var ratio := if share <= 1.0 then share else 1.0;
    QuotientNonnegative(available, r.maxKbps as real);
    var span := (r.maxKbps - r.minKbps) as real;
    var gain := ratio * span;
    ProductWithin(ratio, span);
    assert 0.0 <= gain <= span;
    TruncateWithin(r.minKbps, r.maxKbps, gain);
    assert StableTarget(r, available) == Truncate(r.minKbps as real + gain);
  }

  lemma QuotientNonnegative(a: real, b: real)
    requires a >= 0.0 && b > 0.0
    ensures a / b >= 0.0
  {
  }

  lemma ProductWithin(ratio: real, span: real)
    requires 0.0 <= ratio <= 1.0 && 0.0 <= span
    ensures 0.0 <= ratio * span <= span
  {
    assert (1.0 - ratio) * span >= 0.0;
  }

  lemma TruncateWithin(lo: nat, hi: nat, gain: real)
    requires lo <= hi && 0.0 <= gain <= (hi - lo) as real
    ensures lo <= Truncate(lo as real + gain) <= hi
  {
  }

  /** What a congestion signal does to the emitted bitrate: it never rises - except that a
      drop to the next rung also restores that rung's own target, which may be more than
      what was being sent. Any target may be current, as long as the current rung's
      minimum is not negative. */
  lemma CongestionLowersUnless(cfg: Config, s: State, e: Event)
    requires ValidConfig(cfg) && InRange(cfg, s) && cfg.ladder[s.rung].minKbps >= 0 && e.Congestion?
    ensures
      var sent := CurrentSettings(cfg, s).bitrateKbps;
      CurrentSettings(cfg, Step(cfg, s, e)).bitrateKbps <= sent
      <==>
      !(&& e.signal in {PLI, FIR, PACKET_LOSS} && s.rung > 0
        && (var below := cfg.ladder[s.rung - 1];
            Max(below.minKbps, Min(below.targetKbps, below.maxKbps)) > sent))
  {
  }

  lemma OneMore(cfg: Config, s: State, es: seq<Event>, e: Event)
    requires ValidConfig(cfg) && InRange(cfg, s)
    ensures Run(cfg, s, es + [e]) == Step(cfg, Run(cfg, s, es), e)
  {
    assert Front(es + [e]) == es;
  }

  /** On the default ladder five NACKs at the top take the emitted bitrate down to 2000;
      a picture loss then raises it to 2500. */
  lemma PictureLossCanRaise(cfg: Config, t: real)
    requires cfg.ladder == DEFAULT_LADDER
    ensures
      var nack, loss := Congestion(t, t, NACK), Congestion(t, t, PLI);
      var nacks := [] + [nack] + [nack] + [nack] + [nack] + [nack];
      && CurrentSettings(cfg, Run(cfg, Initial(cfg, 3), nacks)) == Settings(2000, 3)
      && CurrentSettings(cfg, Run(cfg, Initial(cfg, 3), nacks + [loss])) == Settings(2500, 2)
  {
    var nack, loss, s := Congestion(t, t, NACK), Congestion(t, t, PLI), Initial(cfg, 3);
    var two := [] + [nack] + [nack];
    OneMore(cfg, s, [], nack);
    OneMore(cfg, s, [] + [nack], nack);
    assert Run(cfg, s, two).target == 3200;
    OneMore(cfg, s, two, nack);
    OneMore(cfg, s, two + [nack], nack);
    assert Run(cfg, s, two + [nack] + [nack]).target == 2048;
    OneMore(cfg, s, two + [nack] + [nack], nack);
    OneMore(cfg, s, two + [nack] + [nack] + [nack], loss);
  }

  // ---- What one event does, told without the code's own steps ----

  lemma QuotientsOrdered(low: real, high: real, max: real)
    requires max > 0.0 && low <= high
    ensures low / max <= high / max
  {
  }

  lemma FactorUpTo(factor: real, paid: real, max: real)
    requires max > 0.0
    ensures factor * max <= paid <==> factor <= paid / max
  {
    if factor <= paid / max {
      FactorAtMost(factor, paid, max);
    } else {
      FactorAbove(factor, paid, max);
    }
  }

  lemma FactorAtMost(factor: real, paid: real, max: real)
    requires max > 0.0 && factor <= paid / max
    ensures factor * max <= paid
  {
  }

  lemma FactorAbove(factor: real, paid: real, max: real)
    requires max > 0.0 && paid / max < factor
    ensures paid < factor * max
  {
  }

  /** `gain` is the whole part of `paid / max`, told in products. */
  predicate WholePart(gain: int, paid: real, max: real) {
    gain as real * max <= paid < (gain + 1) as real * max
  }

  lemma WholePartIff(gain: int, paid: real, max: real)
    requires max > 0.0
    ensures WholePart(gain, paid, max) <==> gain as real <= paid / max < (gain + 1) as real
  {
    FactorUpTo(gain as real, paid, max);
    FactorUpTo((gain + 1) as real, paid, max);
  }

  lemma ShareOfSpan(available: real, max: real, span: real)
    requires max > 0.0
    ensures available / max * span == available * span / max
  {
  }

  lemma QuotientWithin(a: real, b: real)
    requires 0.0 <= a <= b && b > 0.0
    ensures 0.0 <= a / b <= 1.0
  {
  }

  lemma BelowMaximum(r: Rung, available: real) returns (ratio: real)
    requires 0 < r.maxKbps && 0.0 <= available < r.maxKbps as real
    ensures 0.0 <= ratio <= 1.0 && ratio == available / r.maxKbps as real
    ensures StableTarget(r, available) == Truncate(r.minKbps as real + ratio * (r.maxKbps - r.minKbps) as real)
  {
    ratio := available / r.maxKbps as real;
    QuotientWithin(available, r.maxKbps as real);
  }

  lemma TruncatedShare(low: nat, available: real, ratio: real, span: real, max: real) returns (gain: int)
    requires max > 0.0 && span >= 0.0 && 0.0 <= ratio <= 1.0 && ratio == available / max
    ensures Truncate(low as real + ratio * span) == low + gain
    ensures WholePart(gain, available * span, max)
  {
    ProductWithin(ratio, span);
    ShareOfSpan(available, max, span);
    TruncateGain(low, ratio * span);
    gain := Truncate(low as real + ratio * span) - low;
    WholePartIff(gain, available * span, max);
  }

  lemma ShareIsWhole(r: Rung, available: real) returns (gain: int)
    requires 0 <= r.minKbps <= r.maxKbps && 0 < r.maxKbps && 0.0 <= available < r.maxKbps as real
    ensures StableTarget(r, available) == r.minKbps + gain
    ensures WholePart(gain, available * (r.maxKbps - r.minKbps) as real, r.maxKbps as real)
  {
    var ratio := BelowMaximum(r, available);
    gain := TruncatedShare(r.minKbps, available, ratio, (r.maxKbps - r.minKbps) as real, r.maxKbps as real);
  }

  lemma TruncateGain(low: nat, gain: real)
    requires gain >= 0.0
    ensures (Truncate(low as real + gain) - low) as real <= gain < (Truncate(low as real + gain) - low + 1) as real
  {
  }

  lemma FullShare(r: Rung, available: real)
    requires 0 <= r.minKbps <= r.maxKbps && 0 < r.maxKbps && available >= r.maxKbps as real
    ensures StableTarget(r, available) == r.maxKbps
  {
    assert available / r.maxKbps as real >= 1.0;
  }

  /** In proportion to the bandwidth: the rung's maximum if that is available, and below it
      the whole part of the share of the span that available / maximum gives. */
  predicate InProportion(r: Rung, available: real, target: int) {
    if available >= r.maxKbps as real then target == r.maxKbps
    else WholePart(target - r.minKbps, available * (r.maxKbps - r.minKbps) as real, r.maxKbps as real)
  }

  lemma StableInProportion(r: Rung, available: real)
    requires 0 <= r.minKbps <= r.maxKbps && 0 < r.maxKbps && 0.0 <= available
    ensures InProportion(r, available, StableTarget(r, available))
  {
    if available >= r.maxKbps as real {
      FullShare(r, available);
    } else {
      var gain := ShareIsWhole(r, available);
    }
  }

  lemma InBandTarget(cfg: Config, s: State, now: real, later: real, available: real)
    requires ValidConfig(cfg) && InRange(cfg, s) && now - s.lastCongestion >= cfg.congestionCooldown
    requires cfg.ladder[s.rung].maxKbps != 0
    requires cfg.ladder[s.rung].minKbps as real * 0.8 <= available <= cfg.ladder[s.rung].maxKbps as real * 1.2
    ensures
      var t := Step(cfg, s, Estimate(now, later, available));
      t.target == StableTarget(cfg.ladder[s.rung], available) && t.rung == s.rung && t.mode == STABLE
  {
  }

  /** An estimate within the band moves the target into the rung in proportion to it. */
  lemma ProportionalTarget(cfg: Config, s: State, now: real, later: real, available: real)
    requires ValidConfig(cfg) && InRange(cfg, s) && now - s.lastCongestion >= cfg.congestionCooldown
    requires
      var r := cfg.ladder[s.rung];
      && 0 <= r.minKbps <= r.maxKbps && 0 < r.maxKbps
      && r.minKbps as real * 0.8 <= available <= r.maxKbps as real * 1.2
    ensures
      var t := Step(cfg, s, Estimate(now, later, available));
      t.rung == s.rung && t.mode == STABLE && InProportion(cfg.ladder[s.rung], available, t.target)
  {
    InBandTarget(cfg, s, now, later, available);
    StableInProportion(cfg.ladder[s.rung], available);
  }

  lemma WholePartsOrdered(a: int, b: int, low: real, high: real, max: real)
    requires low <= high && max > 0.0 && WholePart(a, low, max) && WholePart(b, high, max)
    ensures a <= b
  {
    WholePartIff(a, low, max);
    WholePartIff(b, high, max);
    QuotientsOrdered(low, high, max);
  }

  lemma ProductOrdered(low: real, high: real, factor: real)
    requires low <= high && factor >= 0.0
    ensures low * factor <= high * factor
  {
  }

  lemma SharesOrdered(a: int, b: int, low: real, high: real, span: real, max: real)
    requires low <= high && span >= 0.0 && max > 0.0
    requires WholePart(a, low * span, max) && WholePart(b, high * span, max)
    ensures a <= b
  {
    ProductOrdered(low, high, span);
    WholePartsOrdered(a, b, low * span, high * span, max);
  }

  lemma AtMostSpan(gain: int, available: real, span: int, max: real)
    requires max > 0.0 && span >= 0 && available <= max && WholePart(gain, available * span as real, max)
    ensures gain <= span
  {
    ProductOrdered(available, max, span as real);
    WholePartIff(gain, available * span as real, max);
    QuotientsOrdered(available * span as real, max * span as real, max);
    assert max * span as real / max == span as real;
  }

  lemma BothBelow(r: Rung, low: real, high: real, a: int, b: int)
    requires 0 <= r.minKbps <= r.maxKbps && 0 < r.maxKbps && 0.0 <= low <= high < r.maxKbps as real
    requires InProportion(r, low, a) && InProportion(r, high, b)
    ensures a <= b
  {
    SharesOrdered(a - r.minKbps, b - r.minKbps, low, high, (r.maxKbps - r.minKbps) as real, r.maxKbps as real);
  }

  lemma NotAboveMaximum(r: Rung, available: real, target: int)
    requires 0 <= r.minKbps <= r.maxKbps && 0 < r.maxKbps && InProportion(r, available, target)
    ensures target <= r.maxKbps
  {
    if available < r.maxKbps as real {
      AtMostSpan(target - r.minKbps, available, r.maxKbps - r.minKbps, r.maxKbps as real);
    }
  }

  lemma ProportionMonotone(r: Rung, low: real, high: real, a: int, b: int)
    requires 0 <= r.minKbps <= r.maxKbps && 0 < r.maxKbps && 0.0 <= low <= high
    requires InProportion(r, low, a) && InProportion(r, high, b)
    ensures a <= b
  {
    if high < r.maxKbps as real {
      BothBelow(r, low, high, a, b);
    } else {
      NotAboveMaximum(r, low, a);
    }
  }

  /** So a higher estimate within the band never lowers the target. */
  lemma TargetMonotone(cfg: Config, s: State, now: real, later: real, low: real, high: real)
    requires ValidConfig(cfg) && InRange(cfg, s) && now - s.lastCongestion >= cfg.congestionCooldown
    requires
      var r := cfg.ladder[s.rung];
      && 0 <= r.minKbps <= r.maxKbps && 0 < r.maxKbps
      && r.minKbps as real * 0.8 <= low <= high <= r.maxKbps as real * 1.2
    ensures Step(cfg, s, Estimate(now, later, low)).target <= Step(cfg, s, Estimate(now, later, high)).target
  {
    ProportionalTarget(cfg, s, now, later, low);
    ProportionalTarget(cfg, s, now, later, high);
    ProportionMonotone(cfg.ladder[s.rung], low, high, Step(cfg, s, Estimate(now, later, low)).target,
                       Step(cfg, s, Estimate(now, later, high)).target);
  }

  predicate LossSignal(signal: Signal) {
    signal == PLI || signal == FIR || signal == PACKET_LOSS
  }

  /** The whole part, toward zero, of so many tenths of the old target. */
  predicate IsTenths(target: int, was: int, tenths: int) {
    if was >= 0 then 10 * target <= tenths * was < 10 * (target + 1)
    else 10 * (target - 1) < tenths * was <= 10 * target
  }

  /** Which events lower the rung, and to where: one step for an estimate in deficit and
      for a loss, down to the cap for a throttle. */
  lemma FallNeeds(cfg: Config, s: State, e: Event)
    requires ValidConfig(cfg) && InRange(cfg, s)
    ensures
      var r, t := cfg.ladder[s.rung], Step(cfg, s, e);
      var oneStep :=
        && s.rung > 0
        && (|| (e.Congestion? && LossSignal(e.signal))
            || (&& e.Estimate? && e.now - s.lastCongestion >= cfg.congestionCooldown
                && 10.0 * e.available < 8.0 * r.minKbps as real && e.now - s.lastDown >= cfg.rampDownInterval));
      var capped := s.rung > cfg.throttleRung && (e.Thermal? || (e.BatteryLow? && e.percent < cfg.batteryThreshold));
      && (t.rung < s.rung <==> oneStep || capped)
      && (oneStep ==> t.rung == s.rung - 1)
      && (capped ==> t.rung == cfg.throttleRung)
  {
  }

  /** Whatever changes the rung restores the new rung's own target. */
  lemma NewRungOwnTarget(cfg: Config, s: State, e: Event)
    requires ValidConfig(cfg) && InRange(cfg, s)
    ensures Step(cfg, s, e).rung != s.rung ==> Step(cfg, s, e).target == cfg.ladder[Step(cfg, s, e).rung].targetKbps
  {
  }

  /** On an unchanged rung the target is cut by a NACK to eight tenths, by a round-trip spike
      to seven, and at the bottom by a loss or a deficit to seven but not below the
      minimum; an estimate within the band sets it; nothing else touches it. */
  lemma TargetTold(cfg: Config, s: State, e: Event)
    requires ValidConfig(cfg) && InRange(cfg, s) && Step(cfg, s, e).rung == s.rung
    ensures
      var r, t := cfg.ladder[s.rung], Step(cfg, s, e).target;
      var over := e.Estimate? && e.now - s.lastCongestion >= cfg.congestionCooldown;
      var deficit := over && 10.0 * e.available < 8.0 * r.minKbps as real;
      var surplus := over && !deficit && 10.0 * e.available > 12.0 * r.maxKbps as real;
      if e.Congestion? && e.signal == NACK then IsTenths(t, s.target, 8)
      else if e.Congestion? && e.signal == RTT_SPIKE then IsTenths(t, s.target, 7)
      else if (e.Congestion? && LossSignal(e.signal)) || (deficit && e.now - s.lastDown >= cfg.rampDownInterval)
      then s.rung == 0 && t >= r.minKbps && exists cut :: IsTenths(cut, s.target, 7) && t == Max(r.minKbps, cut)
      else (over && !deficit && !surplus && r.maxKbps != 0) || t == s.target
  {
    IsSomeTenths(s.target, 7);
    IsSomeTenths(s.target, 8);
  }

  lemma IsSomeTenths(target: int, tenths: nat)
    requires tenths == 7 || tenths == 8
    ensures IsTenths(Truncate(target as real * (if tenths == 7 then 0.7 else 0.8)), target, tenths)
  {
  }

  /** The timers: a rise notes its second clock reading, a fall that is not a throttle
      notes its own, a congestion signal its first. */
  lemma TimersTold(cfg: Config, s: State, e: Event)
    requires ValidConfig(cfg) && InRange(cfg, s)
    ensures
      var t := Step(cfg, s, e);
      && t.lastUp == (if t.rung > s.rung then e.later else s.lastUp)
      && t.lastDown == (if t.rung < s.rung && (e.Estimate? || e.Congestion?) then e.later else s.lastDown)
      && t.lastCongestion == (if e.Congestion? then e.now else s.lastCongestion)
  {
  }

  /** The mode follows from what happened. */
  lemma ModeTold(cfg: Config, s: State, e: Event)
    requires ValidConfig(cfg) && InRange(cfg, s)
    ensures
      var r, t := cfg.ladder[s.rung], Step(cfg, s, e);
      var over := e.Estimate? && e.now - s.lastCongestion >= cfg.congestionCooldown;
      var deficit := over && 10.0 * e.available < 8.0 * r.minKbps as real;
      var surplus := over && !deficit && 10.0 * e.available > 12.0 * r.maxKbps as real;
      t.mode ==
        if e.Thermal? || (e.BatteryLow? && e.percent < cfg.batteryThreshold) then THROTTLED
        else if e.ClearThrottle? && s.mode == THROTTLED then STABLE
        else if t.rung > s.rung then RAMPING_UP
        else if t.rung < s.rung then RAMPING_DOWN
        else if e.Congestion? && e.signal != REMB && e.signal != TRANSPORT_CC then CONGESTED
        else if deficit && e.now - s.lastDown >= cfg.rampDownInterval then CONGESTED
        else if over && !deficit && !surplus && r.maxKbps != 0 then STABLE
        else s.mode
  {
  }

  /** While THROTTLED, in any run of a new controller, the rung is not above the cap. */
  lemma {:induction false} ThrottledBelowCap(cfg: Config, initialRung: nat, es: seq<Event>)
    requires ValidConfig(cfg)
    ensures
      var s := Run(cfg, Initial(cfg, initialRung), es);
      s.mode == THROTTLED ==> s.rung <= cfg.throttleRung
  {
    if es != [] {
      ThrottledBelowCap(cfg, initialRung, Front(es));
      var s := Run(cfg, Initial(cfg, initialRung), Front(es));
      FallNeeds(cfg, s, Last(es));
      ModeTold(cfg, s, Last(es));
      RiseNeeds(cfg, s, Last(es));
    }
  }

  /** A new controller stands on the rung asked for, or the top, with its own target. */
  lemma StartTold(cfg: Config, initialRung: nat)
    requires ValidConfig(cfg)
    ensures
      var s := Initial(cfg, initialRung);
      && s.rung == (if initialRung < |cfg.ladder| then initialRung else |cfg.ladder| - 1)
      && s.target == cfg.ladder[s.rung].targetKbps && s.mode == IDLE
      && s.lastUp == s.lastDown == s.lastCongestion == 0.0
  {
  }

  /** A division by zero: a rung whose maximum is zero, and an estimate at or below it that
      is no deficit. */
  lemma RaisesIff(cfg: Config, s: State, now: real, available: real)
    requires InRange(cfg, s)
    ensures Raises(cfg, s, now, available) <==>
      && now - s.lastCongestion >= cfg.congestionCooldown && cfg.ladder[s.rung].maxKbps == 0
      && 8.0 * cfg.ladder[s.rung].minKbps as real <= 10.0 * available <= 0.0
  {
  }

  // ---- Timing ----

  ghost predicate ClockOk(es: seq<Event>) {
    && (forall i :: 0 <= i < |es| ==> es[i].now <= es[i].later)
    && (forall i, j :: 0 <= i < j < |es| ==> es[i].later <= es[j].now)
  }

  lemma ClockOkFront(es: seq<Event>)
    requires es != [] && ClockOk(es)
    ensures ClockOk(Front(es))
  {
  }

  predicate Rises(cfg: Config, s: State, e: Event)
    requires ValidConfig(cfg) && InRange(cfg, s)
  {
    Step(cfg, s, e).rung > s.rung
  }

  /** One event lifts the rung by exactly one, and only on a surplus estimate, outside
      THROTTLED, with both intervals elapsed. */
  lemma RiseNeeds(cfg: Config, s: State, e: Event)
    requires ValidConfig(cfg) && InRange(cfg, s)
    ensures Rises(cfg, s, e) <==>
      && e.Estimate? && !s.mode.THROTTLED? && s.rung < Top(cfg)
      && e.now - s.lastCongestion >= cfg.congestionCooldown
      && e.now - s.lastUp >= cfg.rampUpInterval
      && !Deficit(cfg, s.rung, e.available)
      && e.available > cfg.ladder[s.rung].maxKbps as real * 1.2
    ensures Rises(cfg, s, e) ==>
      Step(cfg, s, e).rung == s.rung + 1 && Step(cfg, s, e).lastUp == e.later
  {
  }

  lemma {:induction false} CongestionRemembered(cfg: Config, s: State, es: seq<Event>, i: nat)
    requires ValidConfig(cfg) && InRange(cfg, s) && ClockOk(es)
    requires i < |es| && es[i].Congestion?
    ensures Run(cfg, s, es).lastCongestion >= es[i].now
  {
    ClockOkFront(es);
    if i < |es| - 1 {
      CongestionRemembered(cfg, s, Front(es), i);
    }
  }

  /** No rise comes within the cooldown of any earlier congestion signal of the run. */
  lemma NoRiseDuringCooldown(cfg: Config, s: State, es: seq<Event>, e: Event, i: nat)
    requires ValidConfig(cfg) && InRange(cfg, s) && ClockOk(es + [e])
    requires i < |es| && es[i].Congestion?
    requires Rises(cfg, Run(cfg, s, es), e)
    ensures e.now - es[i].now >= cfg.congestionCooldown
  {
    assert Front(es + [e]) == es;
    ClockOkFront(es + [e]);
    CongestionRemembered(cfg, s, es, i);
    RiseNeeds(cfg, Run(cfg, s, es), e);
  }

  /** The times at which the rung rose. */
  function RiseTimes(cfg: Config, s: State, es: seq<Event>): seq<real>
    requires ValidConfig(cfg) && InRange(cfg, s)
  {
    if es == [] then []
    else
      RiseTimes(cfg, s, Front(es))
      + (if Rises(cfg, Run(cfg, s, Front(es)), Last(es)) then [Last(es).now] else [])
  }

  lemma {:induction false} LastRiseRemembered(cfg: Config, s: State, es: seq<Event>)
    requires ValidConfig(cfg) && InRange(cfg, s) && ClockOk(es)
    requires RiseTimes(cfg, s, es) != []
    ensures Run(cfg, s, es).lastUp >= Last(RiseTimes(cfg, s, es))
  {
    ClockOkFront(es);
    RiseNeeds(cfg, Run(cfg, s, Front(es)), Last(es));
    if !Rises(cfg, Run(cfg, s, Front(es)), Last(es)) {
      assert RiseTimes(cfg, s, es) == RiseTimes(cfg, s, Front(es));
      LastRiseRemembered(cfg, s, Front(es));
      LastUpOnlyMovesOnRise(cfg, Run(cfg, s, Front(es)), Last(es));
    }
  }

  lemma LastUpOnlyMovesOnRise(cfg: Config, s: State, e: Event)
    requires ValidConfig(cfg) && InRange(cfg, s) && !Rises(cfg, s, e)
    ensures Step(cfg, s, e).lastUp == s.lastUp
  {
  }

  /** A new rise comes at least one interval after the previous one. */
  lemma NextRiseSpaced(cfg: Config, s: State, es: seq<Event>)
    requires ValidConfig(cfg) && InRange(cfg, s) && ClockOk(es) && es != []
    requires RiseTimes(cfg, s, Front(es)) != []
    requires Rises(cfg, Run(cfg, s, Front(es)), Last(es))
    ensures Last(es).now - Last(RiseTimes(cfg, s, Front(es))) >= cfg.rampUpInterval
  {
    ClockOkFront(es);
    LastRiseRemembered(cfg, s, Front(es));
    RiseNeeds(cfg, Run(cfg, s, Front(es)), Last(es));
  }

  ghost predicate Spaced(times: seq<real>, gap: real) {
    forall k :: 0 <= k < |times| - 1 ==> times[k + 1] - times[k] >= gap
  }

  lemma {:induction false} RisesSpaced(cfg: Config, s: State, es: seq<Event>)
    requires ValidConfig(cfg) && InRange(cfg, s) && ClockOk(es)
    ensures Spaced(RiseTimes(cfg, s, es), cfg.rampUpInterval)
  {
    if es != [] {
      ClockOkFront(es);
      RisesSpaced(cfg, s, Front(es));
      if Rises(cfg, Run(cfg, s, Front(es)), Last(es)) && RiseTimes(cfg, s, Front(es)) != [] {
        NextRiseSpaced(cfg, s, es);
      }
    }
  }

  lemma {:induction false} SpacedSum(times: seq<real>, gap: real, i: nat, j: nat)
    requires Spaced(times, gap) && i <= j < |times|
    ensures times[j] - times[i] >= (j - i) as real * gap
  {
    if i < j {
      SpacedSum(times, gap, i, j - 1);
      assert times[(j - 1) + 1] - times[j - 1] >= gap;
      assert (j - i) as real == (j - 1 - i) as real + 1.0;
    }
  }

  /** Rises `i` to `j` that fit into a span of length `span` are at most
      1 + floor(span / interval) many. */
  lemma RisesInSpan(cfg: Config, s: State, es: seq<Event>, i: nat, j: nat, span: real)
    requires ValidConfig(cfg) && InRange(cfg, s) && ClockOk(es) && cfg.rampUpInterval > 0.0
    requires i <= j < |RiseTimes(cfg, s, es)|
    requires RiseTimes(cfg, s, es)[j] - RiseTimes(cfg, s, es)[i] <= span
    ensures j - i + 1 <= 1 + (span / cfg.rampUpInterval).Floor
  {
    RisesSpaced(cfg, s, es);
    SpacedInSpan(RiseTimes(cfg, s, es), cfg.rampUpInterval, i, j, span);
  }

  lemma SpacedInSpan(times: seq<real>, gap: real, i: nat, j: nat, span: real)
    requires Spaced(times, gap) && gap > 0.0 && i <= j < |times| && times[j] - times[i] <= span
    ensures j - i <= (span / gap).Floor
  {
    SpacedSum(times, gap, i, j);
    QuotientAtLeast(j - i, span, gap);
  }

  lemma QuotientAtLeast(n: nat, span: real, interval: real)
    requires interval > 0.0 && n as real * interval <= span
    ensures n <= (span / interval).Floor
  {
    assert n as real <= span / interval;
  }

  // ---- Convergence under a constant estimate ----

  /** Neighbouring rungs overlap, so that stepping up cannot land in deficit. */
  predicate Overlapping(cfg: Config) {
    forall r :: 0 <= r < |cfg.ladder| - 1 ==>
      cfg.ladder[r + 1].minKbps as real * 0.8 <= cfg.ladder[r].maxKbps as real * 1.2
  }

  lemma DefaultOverlaps(cfg: Config)
    requires cfg.ladder == DEFAULT_LADDER
    ensures ValidConfig(cfg) && Overlapping(cfg)
  {
  }

  /** Inside the hysteresis band, or at the end of the ladder that stops the move. */
  predicate AtRest(cfg: Config, r: nat, available: real)
    requires r < |cfg.ladder|
  {
    || cfg.ladder[r].minKbps as real * 0.8 <= available <= cfg.ladder[r].maxKbps as real * 1.2
    || (&& available >= cfg.ladder[r].minKbps as real * 0.8
        && available > cfg.ladder[r].maxKbps as real * 1.2 && r == |cfg.ladder| - 1)
    || (available < cfg.ladder[r].minKbps as real * 0.8 && r == 0)
  }

  function ClimbFrom(cfg: Config, r: nat, available: real): (t: nat)
    requires r < |cfg.ladder|
    ensures r <= t < |cfg.ladder|
    decreases |cfg.ladder| - r
  {
    if Surplus(cfg, r, available) && r < |cfg.ladder| - 1 then ClimbFrom(cfg, r + 1, available) else r
  }

  function SinkFrom(cfg: Config, r: nat, available: real): (t: nat)
    requires r < |cfg.ladder|
    ensures t <= r
  {
    if Deficit(cfg, r, available) && r > 0 then SinkFrom(cfg, r - 1, available) else r
  }

  /** Where a constant estimate takes the controller from rung `r`. */
  function RestFrom(cfg: Config, r: nat, available: real): (t: nat)
    requires r < |cfg.ladder|
    ensures t < |cfg.ladder|
  {
    if Deficit(cfg, r, available) then SinkFrom(cfg, r, available) else ClimbFrom(cfg, r, available)
  }

  lemma {:induction false} ClimbRests(cfg: Config, r: nat, available: real)
    requires ValidConfig(cfg) && Overlapping(cfg) && r < |cfg.ladder| && !Deficit(cfg, r, available)
    ensures AtRest(cfg, ClimbFrom(cfg, r, available), available)
    decreases |cfg.ladder| - r
  {
    if Surplus(cfg, r, available) && r < |cfg.ladder| - 1 {
      ClimbRests(cfg, r + 1, available);
    }
  }

  lemma {:induction false} SinkRests(cfg: Config, r: nat, available: real)
    requires ValidConfig(cfg) && Overlapping(cfg) && r < |cfg.ladder|
    requires Deficit(cfg, r, available) || !Surplus(cfg, r, available)
    ensures AtRest(cfg, SinkFrom(cfg, r, available), available)
  {
    if Deficit(cfg, r, available) && r > 0 {
      NoOvershoot(cfg, r - 1, available);
      SinkRests(cfg, r - 1, available);
    }
  }

  lemma NoOvershoot(cfg: Config, r: nat, available: real)
    requires Overlapping(cfg) && r + 1 < |cfg.ladder|
    ensures Surplus(cfg, r, available) ==> !Deficit(cfg, r + 1, available)
  {
  }

  lemma RestFromRests(cfg: Config, r: nat, available: real)
    requires ValidConfig(cfg) && Overlapping(cfg) && r < |cfg.ladder|
    ensures AtRest(cfg, RestFrom(cfg, r, available), available)
    ensures RestFrom(cfg, r, available) == r <==> AtRest(cfg, r, available)
  {
    if Deficit(cfg, r, available) {
      SinkRests(cfg, r, available);
      assert r > 0 ==> SinkFrom(cfg, r, available) == SinkFrom(cfg, r - 1, available);
    } else {
      ClimbRests(cfg, r, available);
    }
  }

  lemma NeighbourRests(cfg: Config, r: nat, available: real)
    requires Overlapping(cfg) && r + 1 < |cfg.ladder|
    ensures Deficit(cfg, r + 1, available) ==> RestFrom(cfg, r, available) == RestFrom(cfg, r + 1, available)
    ensures !Deficit(cfg, r, available) && Surplus(cfg, r, available) ==>
      RestFrom(cfg, r, available) == RestFrom(cfg, r + 1, available)
  {
    NoOvershoot(cfg, r, available);
    if Deficit(cfg, r + 1, available) {
      assert SinkFrom(cfg, r + 1, available) == SinkFrom(cfg, r, available);
    }
  }

  function Distance(a: nat, b: nat): nat {
    if a <= b then b - a else a - b
  }

  /** `t` lies between `r` and the resting place that both share. */
  predicate Between(cfg: Config, r: nat, t: nat, available: real)
    requires r < |cfg.ladder| && t < |cfg.ladder|
  {
    var rest := RestFrom(cfg, r, available);
    RestFrom(cfg, t, available) == rest && (r <= t <= rest || rest <= t <= r)
  }

  /** An estimate moves the rung by at most one, only toward its resting place. */
  lemma StepTowardRest(cfg: Config, s: State, e: Event)
    requires ValidConfig(cfg) && InRange(cfg, s) && Overlapping(cfg) && e.Estimate?
    ensures Between(cfg, s.rung, Step(cfg, s, e).rung, e.available)
    ensures Distance(s.rung, Step(cfg, s, e).rung) <= 1
  {
    var t := Step(cfg, s, e);
    if t.rung < s.rung {
      NeighbourRests(cfg, t.rung, e.available);
    } else if t.rung > s.rung {
      NeighbourRests(cfg, s.rung, e.available);
    }
  }

  ghost predicate ConstantEstimates(es: seq<Event>, available: real) {
    forall i :: 0 <= i < |es| ==> es[i].Estimate? && es[i].available == available
  }

  function Moves(cfg: Config, s: State, es: seq<Event>): nat
    requires ValidConfig(cfg) && InRange(cfg, s)
  {
    if es == [] then 0
    else
      Moves(cfg, s, Front(es))
      + (if Run(cfg, s, es).rung != Run(cfg, s, Front(es)).rung then 1 else 0)
  }

  /** Under a constant estimate the rung only ever moves toward one resting place, so each
      move is progress and there are fewer of them than rungs. */
  lemma {:induction false} OneDirection(cfg: Config, s: State, es: seq<Event>, available: real)
    requires ValidConfig(cfg) && InRange(cfg, s) && Overlapping(cfg)
    requires ConstantEstimates(es, available)
    ensures Between(cfg, s.rung, Run(cfg, s, es).rung, available)
    ensures Moves(cfg, s, es) == Distance(s.rung, Run(cfg, s, es).rung) <= |cfg.ladder| - 1
  {
    if es != [] {
      OneDirection(cfg, s, Front(es), available);
      StepTowardRest(cfg, Run(cfg, s, Front(es)), Last(es));
    }
  }

  /** Nothing holds a move back: no cooldown, no ramp interval, no throttling. */
  predicate Ripe(cfg: Config, s: State, now: real) {
    && !s.mode.THROTTLED?
    && now - s.lastCongestion >= cfg.congestionCooldown
    && now - s.lastUp >= cfg.rampUpInterval
    && now - s.lastDown >= cfg.rampDownInterval
  }

  /** Away from rest, a ripe estimate always gets one rung nearer; and it leaves the
      controller ripe again once both ramp intervals have passed. */
  lemma RipeEstimateProgresses(cfg: Config, s: State, e: Event, next: real)
    requires ValidConfig(cfg) && InRange(cfg, s) && Overlapping(cfg) && e.Estimate?
    requires Ripe(cfg, s, e.now) && e.now <= e.later
    requires next - e.later >= cfg.rampUpInterval && next - e.later >= cfg.rampDownInterval && next >= e.now
    ensures
      var rest, t := RestFrom(cfg, s.rung, e.available), Step(cfg, s, e);
      && RestFrom(cfg, t.rung, e.available) == rest
      && Distance(t.rung, rest) == (if s.rung == rest then 0 else Distance(s.rung, rest) - 1)
      && Ripe(cfg, t, next)
  {
    RestFromRests(cfg, s.rung, e.available);
    StepTowardRest(cfg, s, e);
  }

  lemma {:induction false} RunConcat(cfg: Config, s: State, a: seq<Event>, b: seq<Event>)
    requires ValidConfig(cfg) && InRange(cfg, s)
    ensures Run(cfg, s, a + b) == Run(cfg, Run(cfg, s, a), b)
  {
    if b == [] {
      assert a + b == a;
    } else {
      RunConcat(cfg, s, a, Front(b));
      assert Front(a + b) == a + Front(b);
    }
  }

  /** `f` comes late enough after `e` for both ramp intervals. */
  predicate Apart(cfg: Config, e: Event, f: Event) {
    f.now - e.later >= cfg.rampUpInterval && f.now - e.later >= cfg.rampDownInterval
  }

  /** Some events of the run, in order and pairwise far apart; any others may lie between. */
  ghost predicate Ticks(cfg: Config, es: seq<Event>, ticks: seq<nat>) {
    && (forall m :: 0 <= m < |ticks| ==> ticks[m] < |es|)
    && (forall m, n :: 0 <= m < n < |ticks| ==>
          ticks[m] < ticks[n] && Apart(cfg, es[ticks[m]], es[ticks[n]]))
  }

  /** After estimates that are long enough over, the controller is ripe again. */
  lemma {:induction false} StaysRipe(cfg: Config, s: State, es: seq<Event>, available: real, e: Event)
    requires ValidConfig(cfg) && InRange(cfg, s) && ConstantEstimates(es, available) && ClockOk(es)
    requires Ripe(cfg, s, e.now) && (es != [] ==> Apart(cfg, Last(es), e))
    ensures Ripe(cfg, Run(cfg, s, es), e.now)
  {
    if es != [] {
      StaysRipe(cfg, s, Front(es), available, e);
    }
  }

  /** Estimates that do not move the rung leave the timers alone. */
  lemma {:induction false} IdleStaysRipe(cfg: Config, s: State, es: seq<Event>, available: real, now: real)
    requires ValidConfig(cfg) && InRange(cfg, s) && ConstantEstimates(es, available)
    requires Ripe(cfg, s, now) && Moves(cfg, s, es) == 0
    ensures Ripe(cfg, Run(cfg, s, es), now) && Run(cfg, s, es).rung == s.rung
  {
    if es != [] {
      IdleStaysRipe(cfg, s, Front(es), available, now);
    }
  }

  lemma BetweenIsNearer(cfg: Config, r: nat, t: nat, available: real)
    requires r < |cfg.ladder| && t < |cfg.ladder| && Between(cfg, r, t, available)
    ensures Distance(t, RestFrom(cfg, t, available)) == Distance(r, RestFrom(cfg, r, available)) - Distance(r, t)
  {
  }

  /** How far the rung is from where the estimate takes it. */
  function ToGo(cfg: Config, s: State, available: real): nat
    requires InRange(cfg, s)
  {
    Distance(s.rung, RestFrom(cfg, s.rung, available))
  }

  lemma NeverFurther(cfg: Config, s: State, es: seq<Event>, available: real)
    requires ValidConfig(cfg) && InRange(cfg, s) && Overlapping(cfg) && ConstantEstimates(es, available)
    ensures ToGo(cfg, Run(cfg, s, es), available) == ToGo(cfg, s, available) - Moves(cfg, s, es)
  {
    OneDirection(cfg, s, es, available);
    BetweenIsNearer(cfg, s.rung, Run(cfg, s, es).rung, available);
  }

  /** From a state that will be ripe at `e`, the estimates up to `e` make progress: one of
      them has moved the rung, or `e` does. */
  lemma TickProgresses(cfg: Config, s: State, es: seq<Event>, e: Event, available: real)
    requires ValidConfig(cfg) && InRange(cfg, s) && Overlapping(cfg)
    requires ConstantEstimates(es, available) && e.Estimate? && e.available == available && e.now <= e.later
    requires Ripe(cfg, s, e.now)
    ensures ToGo(cfg, Step(cfg, Run(cfg, s, es), e), available) <= Max(0, ToGo(cfg, s, available) - 1)
  {
    var t := Run(cfg, s, es);
    NeverFurther(cfg, s, es, available);
    StepTowardRest(cfg, t, e);
    BetweenIsNearer(cfg, t.rung, Step(cfg, t, e).rung, available);
    if Moves(cfg, s, es) == 0 {
      IdleStaysRipe(cfg, s, es, available, e.now);
      RipeEstimateProgresses(cfg, t, e, e.later + LongerInterval(cfg));
    }
  }

  function LongerInterval(cfg: Config): real {
    if cfg.rampUpInterval <= 0.0 && cfg.rampDownInterval <= 0.0 then 0.0
    else if cfg.rampUpInterval >= cfg.rampDownInterval then cfg.rampUpInterval
    else cfg.rampDownInterval
  }

  lemma Pieces(es: seq<Event>, p: nat, j: nat)
    requires p <= j < |es|
    ensures es == es[..p] + (es[p..j] + [es[j]]) + es[j + 1..]
  {
  }

  lemma RunByPieces(cfg: Config, s: State, base: seq<Event>, es: seq<Event>, e: Event, tail: seq<Event>)
    requires ValidConfig(cfg) && InRange(cfg, s)
    ensures Run(cfg, s, base + (es + [e]) + tail)
         == Run(cfg, Step(cfg, Run(cfg, Run(cfg, s, base), es), e), tail)
  {
    RunConcat(cfg, s, base + (es + [e]), tail);
    RunConcat(cfg, s, base, es + [e]);
    OneMore(cfg, Run(cfg, s, base), es, e);
  }

  /** Where the part of the run begins that the last tick closes. */
  function AfterPrevious(ticks: seq<nat>): nat
    requires ticks != []
  {
    if |ticks| == 1 then 0 else ticks[|ticks| - 2] + 1
  }

  lemma TicksFront(cfg: Config, es: seq<Event>, ticks: seq<nat>)
    requires Ticks(cfg, es, ticks) && ticks != []
    ensures AfterPrevious(ticks) <= Last(ticks) < |es|
    ensures Ticks(cfg, es[..AfterPrevious(ticks)], Front(ticks))
    ensures |ticks| > 1 ==> ticks[0] < AfterPrevious(ticks)
  {
    var p := AfterPrevious(ticks);
    forall m | 0 <= m < |ticks| - 1 ensures ticks[m] < p {
      assert m == |ticks| - 2 || ticks[m] < ticks[|ticks| - 2];
    }
  }

  lemma TickRipe(cfg: Config, s: State, es: seq<Event>, ticks: seq<nat>, available: real)
    requires ValidConfig(cfg) && InRange(cfg, s)
    requires ConstantEstimates(es, available) && ClockOk(es) && Ticks(cfg, es, ticks) && ticks != []
    requires Ripe(cfg, s, es[ticks[0]].now)
    ensures AfterPrevious(ticks) <= Last(ticks) < |es|
    ensures Ripe(cfg, Run(cfg, s, es[..AfterPrevious(ticks)]), es[Last(ticks)].now)
  {
    if |ticks| > 1 {
      var p := AfterPrevious(ticks);
      assert es[ticks[0]].now <= es[ticks[0]].later <= es[Last(ticks)].now;
      assert Apart(cfg, es[ticks[|ticks| - 2]], es[Last(ticks)]) && Last(es[..p]) == es[p - 1];
      StaysRipe(cfg, s, es[..p], available, es[Last(ticks)]);
    }
  }

  lemma PartsConstant(es: seq<Event>, p: nat, j: nat, available: real)
    requires ConstantEstimates(es, available) && p <= j < |es|
    ensures ConstantEstimates(es[p..j], available) && ConstantEstimates(es[j + 1..], available)
    ensures es[j].Estimate? && es[j].available == available
  {
  }

  lemma LastTick(
      cfg: Config, s: State, base: seq<Event>, es: seq<Event>, e: Event, tail: seq<Event>, available: real)
    requires ValidConfig(cfg) && InRange(cfg, s) && Overlapping(cfg)
    requires ConstantEstimates(es, available) && ConstantEstimates(tail, available)
    requires e.Estimate? && e.available == available && e.now <= e.later
    requires Ripe(cfg, Run(cfg, s, base), e.now)
    ensures ToGo(cfg, Run(cfg, s, base + (es + [e]) + tail), available)
         <= Max(0, ToGo(cfg, Run(cfg, s, base), available) - 1)
  {
    var mid := Run(cfg, s, base);
    TickProgresses(cfg, mid, es, e, available);
    NeverFurther(cfg, Step(cfg, Run(cfg, mid, es), e), tail, available);
    RunByPieces(cfg, s, base, es, e, tail);
  }

  /** Each tick accounts for a move, or the controller is at rest. */
  lemma {:induction false} TicksProgress(
      cfg: Config, s: State, es: seq<Event>, ticks: seq<nat>, available: real)
    requires ValidConfig(cfg) && InRange(cfg, s) && Overlapping(cfg)
    requires ConstantEstimates(es, available) && ClockOk(es) && Ticks(cfg, es, ticks)
    requires ticks != [] ==> Ripe(cfg, s, es[ticks[0]].now)
    ensures ToGo(cfg, Run(cfg, s, es), available) <= Max(0, ToGo(cfg, s, available) - |ticks|)
    decreases |ticks|
  {
    if ticks == [] {
      NeverFurther(cfg, s, es, available);
    } else {
      TicksFront(cfg, es, ticks);
      TickRipe(cfg, s, es, ticks, available);
      TicksProgress(cfg, s, es[..AfterPrevious(ticks)], Front(ticks), available);
      var p, j := AfterPrevious(ticks), Last(ticks);
      Pieces(es, p, j);
      PartsConstant(es, p, j, available);
      LastTick(cfg, s, es[..p], es[p..j], es[j], es[j + 1..], available);
    }
  }

  /** Convergence: however often a constant estimate comes, once as many of its readings as
      there are steps on the ladder lie both ramp intervals apart, the first of them when
      no timer of the start still holds, the controller is at rest. */
  lemma Converges(cfg: Config, s: State, es: seq<Event>, ticks: seq<nat>, available: real)
    requires ValidConfig(cfg) && InRange(cfg, s) && Overlapping(cfg)
    requires ConstantEstimates(es, available) && ClockOk(es) && Ticks(cfg, es, ticks)
    requires ticks != [] ==> Ripe(cfg, s, es[ticks[0]].now)
    requires |ticks| >= |cfg.ladder| - 1
    ensures AtRest(cfg, Run(cfg, s, es).rung, available)
  {
    TicksProgress(cfg, s, es, ticks, available);
    RestFromRests(cfg, Run(cfg, s, es).rung, available);
  }

  // ---- Throttling ----

  /** The events that end throttling. `clear_throttle` is only one of them: an estimate
      within the band, a low estimate that ramps down and most congestion signals
      replace the THROTTLED state too. */
  lemma ThrottleEndsIff(cfg: Config, s: State, e: Event)
    requires ValidConfig(cfg) && InRange(cfg, s) && s.mode.THROTTLED?
    ensures !Step(cfg, s, e).mode.THROTTLED? <==>
      || e.ClearThrottle?
      || (e.Congestion? && e.signal in {PLI, FIR, NACK, PACKET_LOSS, RTT_SPIKE})
      || (&& e.Estimate? && e.now - s.lastCongestion >= cfg.congestionCooldown
          && (|| (Deficit(cfg, s.rung, e.available) && e.now - s.lastDown >= cfg.rampDownInterval)
              || (&& !Deficit(cfg, s.rung, e.available) && !Surplus(cfg, s.rung, e.available)
                  && cfg.ladder[s.rung].maxKbps != 0)))
    ensures Step(cfg, s, e).rung <= s.rung
  {
  }

  /** So two ordinary estimates climb above the throttle rung with no `clear_throttle`. */
  lemma ThrottleLeaks(cfg: Config, s: State)
    requires cfg == Config(DEFAULT_LADDER, 5.0, 1.0, 10.0, 20, 1)
    requires s == Step(cfg, Initial(cfg, 1), Thermal(100.0, 100.0))
    ensures s.mode.THROTTLED? && s.rung == 1
    ensures Run(cfg, s, [Estimate(101.0, 101.0, 1000.0)] + [Estimate(102.0, 102.0, 9000.0)]).rung == 2
  {
    var a, b := Estimate(101.0, 101.0, 1000.0), Estimate(102.0, 102.0, 9000.0);
    assert Front([a] + [b]) == [a] && Front([a]) == [];
    assert Run(cfg, s, [a]) == Step(cfg, s, a);
    assert Run(cfg, s, [a] + [b]) == Step(cfg, Run(cfg, s, [a]), b);
  }
}
