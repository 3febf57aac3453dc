# Verified model of the SYLION pipeline's stateful components

This project models eight self-contained components of the SYLION pipeline in Dafny and
proves what they promise over whole runs. Every class method is specified by a function on
values; the lemmas are about those functions and about runs of them: sequences of calls,
arrivals or events of any length.

| file | component |
|---|---|
| `WireFrame.dfy` | the binary input frame: header, payload, HMAC |
| `ReplayGuard.dfy` | sequence-number replay protection with a bounded memory |
| `InputCodec.dfy` | the codec: numbering, batching, decoding |
| `Transport.dfy` | a sender's run; its batches cut short, spoilt or refused |
| `Outbox.dfy` | the sender seen by its calls alone: what its frames carry |
| `Channel.dfy` | an unreliable channel for single frames and whole batches |
| `CircuitBreaker.dfy` | the per-provider breaker under interleaved calls |
| `RateLimiter.dfy` | the per-key limiter in front of the manual reset |
| `AbrController.dfy` | the adaptive-bitrate controller |
| `FileVerification.dfy` | file claims against a before/after difference |
| `JitterBuffer.dfy` | the audio jitter buffer |
| `BenchmarkStats.dfy` | rank percentiles, p95 verdicts, the drop scan |
| `BudgetGuard.dfy` | the daily cost cap with restarts and day rollover |
| `BookGuardian.dfy` | the memoised document check |
| `SlidingWindow.dfy`, `Common.dfy` | timestamps filtered by age; small shared vocabulary |

`dafny verify dfyconfig.toml` checks everything.

## How the model speaks

- Time, cost and bitrate are reals, and 0.7, 0.8, 1.2, 1.5, 0.10 and 0.95 are exact
  rationals. Every clock reading is a parameter of the step that takes it; a lemma that
  needs a clock that does not run backwards says so.
- `Recent` is the inline pruning that the breaker and the limiter share.
- HMAC-SHA256 under a key is a function `Mac` of which only the 32-byte length is used;
  that nobody else can make an authentic frame is a premise of the exactly-once laws of
  `Channel` alone. Content hashes are arbitrary functions; a lemma that needs injectivity asks for it.
- Exceptions are values of a result type (`WireError`, `SendError`, `DecodeError`,
  `Decision.IndexError`, `Outcome.ZeroDivision`).
- The five single-frame encoders of the codec differ only in event type and payload and are
  one operation, `InputCodec.Codec.EncodeEvent`.
- A `Run` is built from the initial state by one step per event; `Front` and `Last` take an
  event sequence apart.

## Where the code is weaker than it sounds

Apart from the first, each is told by an if-and-only-if lemma with the exact condition under
which the promise holds, and most by a concrete input that breaks it as well.

- The header comment lists the payload length before the flags
  (src/sylion-pipeline/input_protocol.py:31); the packing code has them the other way round
  (lines 156-164). `WireFrame.Header` follows the code.
- Replay guard: a number exactly `highest - window` can be accepted a second time, because
  pruning keeps `>` and rejection uses `<`. `ReplayGuard.SecondAcceptanceOnlyAtEdge`,
  `ReplayGuard.EdgeReplayHappens`.
- Codec: an encode that raises has already taken its sequence number, so `frames_sent` plus
  the buffer falls behind the counter (`Transport.SentAccounting`,
  `Transport.FailedSendUsesNumber`); it does so on every send once the monotonic clock has
  passed 2^32 milliseconds. `batch_add` checks nothing, and one frame that cannot be
  encoded blocks its batch for good (`Transport.AddSpoilsIff`, `Transport.FlushOkIff`,
  `Transport.PoisonedBatchStays`, `Transport.OversizedAddBlocksBatch`). A refused frame
  inside a batch, or a garbled one, loses the frames decoded before it
  (`Transport.AnyBatchLoss`, `Transport.BatchFate`, `Transport.LossIff`,
  `Transport.DuplicateInBatchLosesFrame`, `Transport.DamagedTagLosesFrame`).
- Breaker: the module text says a HALF_OPEN failure reopens it; in the code the windowed
  count decides (`CircuitBreaker.FailureReopensIff`). Only one probe at a time is promised;
  two can be out exactly if an older call is in flight when the phase begins
  (`CircuitBreaker.TwoProbesIffStraggler`, `CircuitBreaker.StragglerFreesTheProbeSlot`). A
  breaker opened at clock reading 0.0 is never probed, as `CircuitBreaker.AdmissionExact`
  shows.
- Limiter: a non-positive limit makes every check crash (`RateLimiter.CrashesIffNoLimit`).
- ABR: a congestion signal is said to reduce quality at once
  (src/sylion-pipeline/abr_controller.py:413-415), but a rung drop can raise the bitrate
  (`AbrController.CongestionLowersUnless`, `AbrController.PictureLossCanRaise`); throttling
  ends not only by `clear_throttle` (`AbrController.ThrottleEndsIff`,
  `AbrController.ThrottleLeaks`).
- File verification: with no claims the verdict is clean whatever was found
  (`FileVerification.CleanVerdictIff`, `FileVerification.CleanDespiteChange`); around the
  guard, watching more files can remove or replace a finding about a claim
  (`FileVerification.WatchingMoreKeepsFindingsIff`,
  `FileVerification.WatchingClearsClaimIff`, `FileVerification.WatchingTradesFinding`).
- Jitter buffer: with a negative maximum every push raises (`JitterBuffer.PushRaisesIff`).
- Benchmarks: a failed setup is stored as an infinite sample, over which
  `statistics.stdev` of Python 3.11 raises as soon as there are two samples: the run ends
  without a verdict (`BenchmarkStats.SetupEnding`, `BenchmarkStats.FailedSetupRaises`). An
  input-to-photon run in which every measurement fails passes
  (`BenchmarkStats.PhotonEnding`).
- Budget: a restart right after a refusal forgets `is_exceeded`
  (`BudgetGuard.ExceededFlagExact`, `BudgetGuard.RestartForgetsRefusal`); a save that fails
  loses costs for good if the process restarts before the next good one, and one cut short
  the whole day's (`BudgetGuard.EntriesKeptIff`, `BudgetGuard.RestartAfterWrite`,
  `BudgetGuard.EarlierFailureStillLoses`).

## Model

| member | source | states |
|---|---|---|
| SlidingWindow.RecentAreTheYoung | src/sylion-pipeline/circuit_breaker.py:200 | the pruned list has every timestamp younger than the window as often as it was stored, and nothing else |
| SlidingWindow.RecentAbsorbs | src/sylion-pipeline/circuit_breaker.py:199-201 | pruning early and again later loses nothing against pruning once, later |
| RateLimiter.ResetLimiter.RateCheck | src/sylion-pipeline/circuit_breaker.py:437-453 | one locked check: the decision and the whole dictionary it leaves |
| RateLimiter.KeysAreIndependent | src/sylion-pipeline/circuit_breaker.py:434-441 | after any calls, a key's stored list is what that key's calls alone would have left |
| RateLimiter.ListStandsForHistory | src/sylion-pipeline/circuit_breaker.py:438-449 | from the last call on, the pruned list shows the same young entries as the full admission history |
| RateLimiter.AdmitsIffRoom | src/sylion-pipeline/circuit_breaker.py:442-449 | a call is let through iff fewer than MAX of all calls ever let through for its key are in its window |
| RateLimiter.WindowBound | src/sylion-pipeline/circuit_breaker.py:400-403 | any half-open interval of the window's length contains at most MAX admissions of a key |
| RateLimiter.RetryAfterSuffices | src/sylion-pipeline/circuit_breaker.py:442-446 | after a denial, a retry `retry_after` later is admitted if no call of that key was let through meanwhile |
| RateLimiter.RetryAfterTight | src/sylion-pipeline/circuit_breaker.py:442-446 | and it is not too long: until a second before `retry_after` is over every retry is turned away, whatever was called meanwhile |
| RateLimiter.EntryIsYoungHistory | src/sylion-pipeline/circuit_breaker.py:438-449 | after a call its key's entry is exactly what was let through and is still young |
| RateLimiter.CrashesIffNoLimit | src/sylion-pipeline/circuit_breaker.py:442-444 | reading the oldest entry fails iff the configured limit is not positive |
| CircuitBreaker.Breaker.constructor | src/sylion-pipeline/circuit_breaker.py:93-115 | a new breaker is CLOSED with nothing stored |
| CircuitBreaker.Breaker.EvaluatedState | src/sylion-pipeline/circuit_breaker.py:126-139 | OPEN turns HALF_OPEN once the reset timeout has passed, unless opened at reading 0 |
| CircuitBreaker.Breaker.AEnter | src/sylion-pipeline/circuit_breaker.py:145-163 | admission or short circuit, with the probe slot and both counters |
| CircuitBreaker.Breaker.AExit | src/sylion-pipeline/circuit_breaker.py:165-176 | success clears, a failure is recorded, a short circuit inside is not; a HALF_OPEN exit frees the probe slot |
| CircuitBreaker.Breaker.OnFailure | src/sylion-pipeline/circuit_breaker.py:195-207 | prune, append, and open at the threshold |
| CircuitBreaker.Breaker.ManualReset | src/sylion-pipeline/circuit_breaker.py:622-626 | what a success and the reset endpoint write |
| CircuitBreaker.StateFromHistory | src/sylion-pipeline/circuit_breaker.py:126-212 | over every interleaving, mode, opening time and stored failures are those of the full failure history since the last success or reset |
| CircuitBreaker.ClosedInvariant | src/sylion-pipeline/circuit_breaker.py:182-207 | CLOSED iff no opening time; CLOSED stores fewer failures than the threshold; a probe in flight implies HALF_OPEN |
| CircuitBreaker.TripExactness | src/sylion-pipeline/circuit_breaker.py:195-207 | CLOSED is left exactly at a failure that is at least the threshold-th in its window, and then for OPEN |
| CircuitBreaker.FailureReopensIff | src/sylion-pipeline/circuit_breaker.py:200-207 | after a failing exit in any mode the breaker is OPEN iff it was or the windowed count is reached |
| CircuitBreaker.AdmissionExact | src/sylion-pipeline/circuit_breaker.py:145-163 | admitted iff nothing tripped since the last clear, or the latest trip is a reset timeout old, was not at reading 0 and no probe is out: so no admission while OPEN before that |
| CircuitBreaker.Accounting | src/sylion-pipeline/circuit_breaker.py:149-162 | attempts are admissions plus short circuits; admissions are exits plus calls in flight; failures are failed exits |
| CircuitBreaker.ReleaseBetweenProbes | src/sylion-pipeline/circuit_breaker.py:154-161 | between two HALF_OPEN admissions some call exits or somebody resets |
| CircuitBreaker.HalfOpenConcurrency | src/sylion-pipeline/circuit_breaker.py:107-109 | a bound: a HALF_OPEN phase adds at most one call to those in flight when it began; with none before, at most one is in flight |
| CircuitBreaker.FlightsCounted | src/sylion-pipeline/circuit_breaker.py:145-176 | if each call enters once and only calls in flight exit, the calls in flight by name are as many as admissions less exits |
| CircuitBreaker.TwoProbesIffStraggler | src/sylion-pipeline/circuit_breaker.py:107-109 | a HALF_OPEN phase can come to hold two of its own probes in flight iff some older call is in flight when it begins |
| CircuitBreaker.StragglerFreesTheProbeSlot | src/sylion-pipeline/circuit_breaker.py:173-175 | a concrete run with named calls: an old call fails, the breaker stays HALF_OPEN, and a second probe enters while the first is still out |
| AbrController.Controller.constructor | src/sylion-pipeline/abr_controller.py:268-288 | the initial rung is clamped to the ladder; an empty ladder is replaced |
| AbrController.Controller.GetCurrentSettings | src/sylion-pipeline/abr_controller.py:334-356 | the bitrate is the target clamped to the rung |
| AbrController.Controller.OnNetworkEstimate | src/sylion-pipeline/abr_controller.py:368-410 | one estimate: cooldown, ramp down, ramp up, proportional target, or a division by a zero maximum that changes nothing |
| AbrController.Controller.HandleCongestion | src/sylion-pipeline/abr_controller.py:412-437 | what each congestion signal does |
| AbrController.Controller.OnBatteryLow | src/sylion-pipeline/abr_controller.py:441-460 | the battery cap on the rung, and THROTTLED |
| AbrController.Controller.OnThermalThrottle | src/sylion-pipeline/abr_controller.py:462-476 | the thermal cap on the rung, and THROTTLED |
| AbrController.Controller.Unthrottle | src/sylion-pipeline/abr_controller.py:478-483 | THROTTLED becomes STABLE |
| AbrController.Controller.StepUp | src/sylion-pipeline/abr_controller.py:487-500 | one rung up unless throttled or at the top |
| AbrController.Controller.StepDown | src/sylion-pipeline/abr_controller.py:509-527 | one rung down, or a lower target at the bottom |
| AbrController.Run | src/sylion-pipeline/abr_controller.py:368-527 | the rung stays on the ladder through every run |
| AbrController.EmittedWithinRung | src/sylion-pipeline/abr_controller.py:338-342 | the bitrate is at least the rung's minimum, and within its maximum iff the rung's limits are not crossed |
| AbrController.StableTargetWithinRung | src/sylion-pipeline/abr_controller.py:401-407 | the proportional target lies within the rung by itself |
| AbrController.ProportionalTarget | src/sylion-pipeline/abr_controller.py:401-407 | an estimate within the band sets the target to the rung's maximum if that is available, and below it to the minimum plus the whole part of available * (max - min) / max |
| AbrController.TargetMonotone | src/sylion-pipeline/abr_controller.py:401-407 | a higher estimate within the band never lowers the target |
| AbrController.FallNeeds | src/sylion-pipeline/abr_controller.py:389-391 | an event lowers the rung iff it is a ripe deficit or a loss, by one, or a throttle above its cap, to the cap |
| AbrController.NewRungOwnTarget | src/sylion-pipeline/abr_controller.py:441-527 | whatever changes the rung restores the new rung's own target |
| AbrController.TargetTold | src/sylion-pipeline/abr_controller.py:412-437 | on an unchanged rung: a NACK cuts the target to eight tenths, a round-trip spike to seven, a loss or deficit at the bottom to seven but not below the minimum; nothing else but an estimate in the band touches it |
| AbrController.TimersTold | src/sylion-pipeline/abr_controller.py:383-397 | which event notes which clock reading |
| AbrController.ModeTold | src/sylion-pipeline/abr_controller.py:399-527 | the mode after any event |
| AbrController.StartTold | src/sylion-pipeline/abr_controller.py:268-288 | a new controller stands on the rung asked for, or the top, with that rung's target |
| AbrController.RaisesIff | src/sylion-pipeline/abr_controller.py:401-405 | an estimate divides by zero iff the rung's maximum is zero and the estimate is at or below it without being a deficit |
| AbrController.CongestionLowersUnless | src/sylion-pipeline/abr_controller.py:412-437 | whatever the target, a congestion signal raises the emitted bitrate iff it drops to a rung whose own target is above what was sent |
| AbrController.PictureLossCanRaise | src/sylion-pipeline/abr_controller.py:421-423 | a concrete run on the default ladder: picture loss raises the bitrate from 2000 to 2500 |
| AbrController.RiseNeeds | src/sylion-pipeline/abr_controller.py:383-397 | an event lifts the rung iff it is a surplus estimate outside THROTTLED with cooldown and ramp interval over; and then by one |
| AbrController.NoRiseDuringCooldown | src/sylion-pipeline/abr_controller.py:383-385 | in every run, no rise within the cooldown of any earlier congestion signal |
| AbrController.RisesInSpan | src/sylion-pipeline/abr_controller.py:395-397 | rises that fit into a span T number at most 1 + floor(T / interval) |
| AbrController.DefaultOverlaps | src/sylion-pipeline/abr_controller.py:196-225 | neighbouring rungs of the default ladder overlap as convergence asks |
| AbrController.OneDirection | src/sylion-pipeline/abr_controller.py:389-410 | under a constant estimate the rung only moves toward one resting place, with fewer moves than rungs |
| AbrController.RestFromRests | src/sylion-pipeline/abr_controller.py:389-410 | that place is in the hysteresis band, or the top in surplus, or the bottom in deficit; nowhere else does the controller stay |
| AbrController.RipeEstimateProgresses | src/sylion-pipeline/abr_controller.py:383-397 | away from rest, an estimate that no timer holds back gets exactly one rung nearer |
| AbrController.TicksProgress | src/sylion-pipeline/abr_controller.py:368-410 | in a constant-estimate run of any density, each of a series of readings both ramp intervals apart accounts for one rung nearer, until rest |
| AbrController.Converges | src/sylion-pipeline/abr_controller.py:368-410 | so the controller is at rest once the run contains one such reading per step of the ladder |
| AbrController.ThrottleEndsIff | src/sylion-pipeline/abr_controller.py:399-408 | exactly which events end THROTTLED; none of them raises the rung |
| AbrController.ThrottledBelowCap | src/sylion-pipeline/abr_controller.py:441-476 | in every run of a new controller, while THROTTLED the rung is not above the throttle rung |
| AbrController.ThrottleLeaks | src/sylion-pipeline/abr_controller.py:487-490 | two estimates climb above the throttle rung without `clear_throttle` |
| WireFrame.FrameRoundTrip | src/sylion-pipeline/input_protocol.py:149-198 | encoding succeeds iff the payload and every header field fit, and decoding gives the frame back |
| WireFrame.HeaderFields | src/sylion-pipeline/input_protocol.py:155-166 | where each field sits in the 16 bytes, big-endian, with zero padding |
| WireFrame.HeaderBytes | src/sylion-pipeline/input_protocol.py:155-166 | the 16 header bytes of every encoded frame, one by one, high bytes first |
| WireFrame.PayloadAndTag | src/sylion-pipeline/input_protocol.py:164-168 | behind them the payload unchanged and the tag over everything before it |
| WireFrame.DecodedFields | src/sylion-pipeline/input_protocol.py:184-198 | the fields of an accepted frame from its bytes, and where its payload ends |
| WireFrame.ErrorsTold | src/sylion-pipeline/input_protocol.py:149-193 | which error is raised when |
| WireFrame.EventCodes | src/sylion-pipeline/input_protocol.py:62-75 | the type codes |
| WireFrame.AcceptedIff | src/sylion-pipeline/input_protocol.py:174-193 | decoding accepts exactly the authentic byte strings of sufficient length with a known type code |
| WireFrame.DamagedTag | src/sylion-pipeline/input_protocol.py:174-183 | an encoded frame with one tag byte changed is rejected for its HMAC |
| WireFrame.ReencodesIffCanonical | src/sylion-pipeline/input_protocol.py:184-198 | re-encoding an accepted frame restores its bytes iff padding is zero and the declared length is the real one |
| ReplayGuard.Guard.Check | src/sylion-pipeline/input_protocol.py:214-232 | one check: the answer, the remembered set, the highest number and the counters |
| ReplayGuard.RunRemembers | src/sylion-pipeline/input_protocol.py:214-232 | what the pruned set knows of the full acceptance history: exact above the edge, at most one acceptance forgotten at it, none accepted three times |
| ReplayGuard.RefinesUnboundedMemory | src/sylion-pipeline/input_protocol.py:214-229 | off the edge, accepted iff never accepted before and not below highest - window |
| ReplayGuard.SecondAcceptanceOnlyAtEdge | src/sylion-pipeline/input_protocol.py:220-229 | an accepted number is accepted again iff it is at the edge and was accepted before the arrival that brought the edge there; never a third time |
| ReplayGuard.EdgeRemembers | src/sylion-pipeline/input_protocol.py:225-229 | the number at the edge is remembered iff it was accepted since the arrival that last raised the highest |
| ReplayGuard.EdgeReplayHappens | src/sylion-pipeline/input_protocol.py:228-229 | for every window size one number is accepted twice |
| ReplayGuard.MemoryBounded | src/sylion-pipeline/input_protocol.py:205-212 | the set lies in [highest - window, highest] and has at most window + 1 elements |
| ReplayGuard.HighestIsHighest | src/sylion-pipeline/input_protocol.py:225-227 | the highest number is the highest accepted, or zero; with a window no arrival was above it |
| ReplayGuard.CountersExact | src/sylion-pipeline/input_protocol.py:217-231 | each counter on its own: too old are exactly the arrivals below the window of their moment |
| ReplayGuard.CountersAddUp | src/sylion-pipeline/input_protocol.py:217-231 | the three counters account for every arrival |
| InputCodec.Codec.constructor | src/sylion-pipeline/input_protocol.py:253-272 | a new codec: nothing numbered, buffered or counted |
| InputCodec.Codec.EncodeEvent | src/sylion-pipeline/input_protocol.py:283-347 | sending one event: the number is used even when packing or encoding raises |
| InputCodec.Codec.AddToBatch | src/sylion-pipeline/input_protocol.py:351-362 | a full batch is refused without taking a number |
| InputCodec.Codec.Assemble | src/sylion-pipeline/input_protocol.py:368-382 | the chunks of the whole buffer, or its first encoding error |
| InputCodec.Codec.Flush | src/sylion-pipeline/input_protocol.py:364-383 | the stream with its count, or the first encoding error and an unchanged codec |
| InputCodec.Codec.DecodeFrame | src/sylion-pipeline/input_protocol.py:387-416 | decoding one frame: error, replay or frame, and every counter |
| InputCodec.Codec.DecodeFrames | src/sylion-pipeline/input_protocol.py:418-423 | a batch: nothing below two bytes, else the counted loop |
| InputCodec.Codec.DecodeCounted | src/sylion-pipeline/input_protocol.py:423-435 | the offset loop: a chunk cut short ends it quietly, a bad frame with its error |
| Transport.WholeFramesExact | src/sylion-pipeline/input_protocol.py:425-433 | the counted frames fit into the bytes at hand, and one more would not |
| Transport.TakenExact | src/sylion-pipeline/input_protocol.py:214-232 | the counted frames are accepted in turn, each behind its predecessors, and the next one is not |
| Transport.ReturnsWhatItLetThrough | src/sylion-pipeline/input_protocol.py:418-435 | for any bytes, a batch that does not raise returns exactly the frames the guard accepted; `frames_received` counts those even if it raises |
| Transport.PassingDecides | src/sylion-pipeline/input_protocol.py:423-435 | for any bytes, the frames let through number the leading whole chunks that decode and are accepted in turn, and the batch raises iff those are not all |
| Transport.AnyBatchLoss | src/sylion-pipeline/input_protocol.py:418-435 | for any bytes, garbled ones included: nothing is lost iff every whole chunk passes or not even the first; otherwise all before the first that fails |
| Transport.PrefixDecodes | src/sylion-pipeline/input_protocol.py:425-434 | for any frames, guard and cut: the whole frames before the cut come back iff the guard takes each in turn; else it raises, with every counter and the guard |
| Transport.AscendingAllTaken | src/sylion-pipeline/input_protocol.py:214-229 | numbers ascending from above the highest are all taken |
| Transport.TruncatedBatch | src/sylion-pipeline/input_protocol.py:364-435 | any byte prefix of a flushed batch decodes to exactly the frames lying wholly in it, in order |
| Transport.BatchRoundTrip | src/sylion-pipeline/input_protocol.py:364-435 | the uncut stream decodes to exactly the buffered frames |
| Transport.SendRaisesIff | src/sylion-pipeline/input_protocol.py:149-166 | a single send raises iff its payload does not pack or is too long, or clock or number exceed 32 bits |
| Transport.SentFallsShort | src/sylion-pipeline/input_protocol.py:274-294 | sent plus buffered falls short of the sequence counter by exactly the single sends given such input |
| Transport.SentAccounting | src/sylion-pipeline/input_protocol.py:274-294 | sent plus buffered equals the sequence counter iff no single send was given such input |
| Transport.FailedSendUsesNumber | src/sylion-pipeline/input_protocol.py:283-294 | a first send that does not pack, or comes after 2^32 ms, uses number 1 and sends nothing |
| Transport.RunKeepsNumbering | src/sylion-pipeline/input_protocol.py:274-276 | no number is on the wire twice, and the buffer is in ascending order |
| Transport.FlushOkIff | src/sylion-pipeline/input_protocol.py:364-375 | a flush succeeds iff every buffered frame can be encoded |
| Transport.AddSpoilsIff | src/sylion-pipeline/input_protocol.py:351-362 | adding to a good batch spoils it iff the payload is too long or clock or number exceed 32 bits |
| Transport.PoisonedBatchStays | src/sylion-pipeline/input_protocol.py:368-375 | after a frame that cannot be encoded every flush fails and the buffer only grows |
| Transport.OversizedAddBlocksBatch | src/sylion-pipeline/input_protocol.py:351-375 | a payload over 1024 bytes, added first, makes every later flush fail |
| Transport.BatchFate | src/sylion-pipeline/input_protocol.py:418-435 | any batch at any receiver returns all its frames iff each number is accepted in turn; else it raises a replay and exactly the frames before the refused one have passed the guard |
| Transport.LossIff | src/sylion-pipeline/input_protocol.py:418-435 | of a sender's stream a raising batch loses those frames; nothing is lost iff all are accepted or not even the first |
| Transport.BadChunkLosesFrame | src/sylion-pipeline/input_protocol.py:425-434 | a good frame with an undecodable chunk behind it is neither returned nor accepted again |
| Transport.DamagedTagLosesFrame | src/sylion-pipeline/input_protocol.py:425-434 | two frames sent, one tag byte of the second changed: the batch raises a bad HMAC and the first frame is lost |
| Transport.DuplicateInBatchLosesFrame | src/sylion-pipeline/input_protocol.py:425-434 | a repeated frame in a batch raises, and the first copy is neither returned nor accepted again |
| Outbox.SenderRefinesOutbox | src/sylion-pipeline/input_protocol.py:283-383 | over every run the buffer holds the accepted batch calls since the last flush and the wire has had the sent calls, in call order, each with its own event type, payload, clock, version, flag and number |
| Outbox.WaitingCallsArrive | src/sylion-pipeline/input_protocol.py:351-435 | add, flush and decode give the caller's events back |
| Outbox.SingleCallArrives | src/sylion-pipeline/input_protocol.py:283-347 | the bytes a single send returns decode to the caller's event |
| Outbox.FullBatchRefuses | src/sylion-pipeline/input_protocol.py:351-354 | a call is refused, changing nothing, iff 32 wait |
| Outbox.SendingCounters | src/sylion-pipeline/input_protocol.py:283-383 | bytes sent are those of the frames on the wire, batches sent the flushes that put something there |
| Outbox.StreamSpelled | src/sylion-pipeline/input_protocol.py:376-382 | the count in front of a stream, high byte first |
| Outbox.ChunkSpelled | src/sylion-pipeline/input_protocol.py:379-381 | the length in front of each frame, high byte first |
| Outbox.FlushRaisesFirstError | src/sylion-pipeline/input_protocol.py:368-370 | a failing flush raises the error of the first frame that cannot be encoded and changes nothing |
| Channel.DeliversOnce | src/sylion-pipeline/input_protocol.py:387-416 | after any timely, unforged arrivals each frame sent was delivered once if it arrived and not at all if not, and the guard remembers exactly the delivered numbers |
| Channel.ExactlyOnce | src/sylion-pipeline/input_protocol.py:387-416 | over a channel that drops, repeats, reorders and garbles, each sent frame that arrives in time is delivered exactly once and unchanged, and nothing else is |
| Channel.MixedRun | src/sylion-pipeline/input_protocol.py:387-435 | single frames and batches in any mixture leave the state of decoding the pieces one by one; what those deliver is returned, or lost in a batch that raised |
| Channel.ExactlyOnceOrLost | src/sylion-pipeline/input_protocol.py:387-435 | with whole batches among the arrivals each sent frame decoded in time is returned exactly once, or lost exactly once in a batch that raised, and nothing else is returned |
| Channel.EachCallOnceOrLost | src/sylion-pipeline/input_protocol.py:283-435 | in terms of the sender's calls: each call whose frame was decoded in time comes back once, as it was given, or is lost once |
| Channel.ReceivingCounters | src/sylion-pipeline/input_protocol.py:389-404 | bytes, delivered frames, replays and bad tags are each counted exactly |
| Channel.AnyBatchCutAnywhere | src/sylion-pipeline/input_protocol.py:351-435 | the truncation law for any sender's past and any receiver's, single frames and batches |
| FileVerification.Layer.Sweep | src/sylion-pipeline/file_verification.py:439-507 | one loop over unclaimed paths finds exactly the paths its kind applies to |
| FileVerification.Layer.SweepKnown | src/sylion-pipeline/file_verification.py:441-470 | the loop over known unclaimed paths finds exactly those that changed or disappeared |
| FileVerification.Layer.VerifyChanges | src/sylion-pipeline/file_verification.py:396-545 | the report: the claims' findings in claim order, then the others loop by loop; counts, verdict, blocking; the history grows by it |
| FileVerification.HallucinationGuard.AfterIteration | src/sylion-pipeline/file_verification.py:852-886 | the running totals are those of the reports kept |
| FileVerification.ClaimPassesIff | src/sylion-pipeline/file_verification.py:551-694 | a claim passes iff the contents before and after stand in its action's relation |
| FileVerification.CleanIffExplained | src/sylion-pipeline/file_verification.py:396-545 | no findings iff every claim is true of the contents known and every unclaimed path in sight is unchanged |
| FileVerification.IterationCleanIffExplained | src/sylion-pipeline/file_verification.py:831-862 | the same for one guarded iteration, from its declared and watched files |
| FileVerification.CleanVerdictIff | src/sylion-pipeline/file_verification.py:243-245 | a report calls itself clean iff it has no findings or no claims |
| FileVerification.CleanDespiteChange | src/sylion-pipeline/file_verification.py:243-245 | no claims, one watched file, a changed content: findings, and a clean verdict |
| FileVerification.IterationVerdict | src/sylion-pipeline/file_verification.py:508-528 | the verdict from claims and contents: PARTIAL iff something was found and some claim is true, HALLUCINATION iff none is; verified are the true claims; blocked iff something was found and the layer fails closed |
| FileVerification.UnclaimedFindingsExact | src/sylion-pipeline/file_verification.py:439-507 | each kind on exactly the unclaimed paths in sight whose contents draw it, once, with the hashes of the contents; a size mismatch iff the length changed by more than a tenth |
| FileVerification.ClaimFindingKind | src/sylion-pipeline/file_verification.py:551-694 | which finding a false claim draws, from the contents, and with which hashes |
| FileVerification.PhantomHashes | src/sylion-pipeline/file_verification.py:551-660 | which hashes a phantom finding shows |
| FileVerification.ClaimsConserved | src/sylion-pipeline/file_verification.py:419-437 | verified claims plus findings carrying a claim are all claims; `claims_failed` completes the total iff no unclaimed path drew a finding |
| FileVerification.OrderIndependent | src/sylion-pipeline/file_verification.py:411-529 | permuting the claims changes only the order of the findings |
| FileVerification.WatchingMoreOnlyAdds | src/sylion-pipeline/file_verification.py:412-417 | with fixed snapshots, more watched paths add only creations on new unclaimed paths |
| FileVerification.GuardDiffsKept | src/sylion-pipeline/file_verification.py:831-846 | around the guard, more watched paths, claimed or not, remove no finding about an unclaimed path |
| FileVerification.GuardWatchingMoreOnlyAdds | src/sylion-pipeline/file_verification.py:831-846 | more watched unclaimed paths leave the claims' findings as they are |
| FileVerification.WatchingMoreKeepsFindingsIff | src/sylion-pipeline/file_verification.py:831-862 | for whole reports: watching more keeps every finding iff no claim on a file new in sight claims to modify one that existed before or is missing now, or to delete one that existed |
| FileVerification.WatchingTradesFinding | src/sylion-pipeline/file_verification.py:551-610 | a modification claimed of an existing, unchanged file: once watched, the phantom becomes a missing change |
| FileVerification.WatchingClearsClaimIff | src/sylion-pipeline/file_verification.py:831-846 | watching a claimed path clears its finding iff the claim truly modified or deleted an existing file |
| JitterBuffer.Buffer.PushFrame | src/sylion-pipeline/audio_pipeline.py:142-164 | one push: overflow, insertion, counters |
| JitterBuffer.Buffer.InsertInOrder | src/sylion-pipeline/audio_pipeline.py:152-160 | the backward scan inserts behind the last smaller number |
| JitterBuffer.Buffer.PopFrame | src/sylion-pipeline/audio_pipeline.py:166-175 | one pop: the front frame, or an underrun |
| JitterBuffer.PushRaisesIff | src/sylion-pipeline/audio_pipeline.py:147-148 | popping an empty buffer happens iff the maximum is negative |
| JitterBuffer.PositionSplits | src/sylion-pipeline/audio_pipeline.py:154-160 | in a sorted buffer the place separates smaller numbers from the rest |
| JitterBuffer.AlwaysSorted | src/sylion-pipeline/audio_pipeline.py:152-160 | the buffer is sorted throughout every run |
| JitterBuffer.FrontIsOldest | src/sylion-pipeline/audio_pipeline.py:146-150 | overflow and pop take the smallest number |
| JitterBuffer.FramesConserved | src/sylion-pipeline/audio_pipeline.py:142-175 | the frames pushed are those played, dropped and buffered, as multisets |
| JitterBuffer.CountersMatch | src/sylion-pipeline/audio_pipeline.py:132-140 | the counters are the lengths of those logs and add up |
| JitterBuffer.DepthBounded | src/sylion-pipeline/audio_pipeline.py:146-150 | with equal durations the depth exceeds the maximum by at most one frame |
| JitterBuffer.PushDropsIff | src/sylion-pipeline/audio_pipeline.py:142-164 | a push drops the front frame, and nothing else, iff the waiting frames at the new one's duration exceed the maximum; the new frame lands behind the smaller numbers |
| JitterBuffer.LatenessExact | src/sylion-pipeline/audio_pipeline.py:162-175 | expected number, late pushes and underruns follow from the playout |
| JitterBuffer.PlayoutInOrder | src/sylion-pipeline/audio_pipeline.py:162-175 | if no push was counted late, the playout is in order |
| JitterBuffer.StaleFramePlaysOutOfOrder | src/sylion-pipeline/audio_pipeline.py:162-175 | a frame pushed behind the last one played is played out of order by the next pop |
| BenchmarkStats.BenchmarkResult.ComputeStats | src/sylion-pipeline/benchmark_harness.py:114-131 | extremes and rank percentiles of the samples; nothing changes without samples; over two or more samples of which one is infinite it raises, with the extremes set and no percentile |
| BenchmarkStats.BenchmarkResult.Judge | src/sylion-pipeline/benchmark_harness.py:271-282 | the p95 verdict |
| BenchmarkStats.P95Verdict | src/sylion-pipeline/benchmark_harness.py:128-131 | p95 is within the limit iff 20 times the samples above it are fewer than all samples |
| BenchmarkStats.P50AndP99Verdict | src/sylion-pipeline/benchmark_harness.py:128-131 | the same for the median with a half and for p99 with a hundredth |
| BenchmarkStats.StatsAreSamples | src/sylion-pipeline/benchmark_harness.py:123-131 | every statistic is one of the samples |
| BenchmarkStats.StatsOrdered | src/sylion-pipeline/benchmark_harness.py:123-131 | min <= p50 <= p95 <= p99 <= max |
| BenchmarkStats.ExtremesBound | src/sylion-pipeline/benchmark_harness.py:123-124 | every sample lies between min and max |
| BenchmarkStats.SetupEnding | src/sylion-pipeline/benchmark_harness.py:236-284 | a setup run raises iff it has two or more setups and one failed; else it passes iff 20 times the failed and slow ones are fewer than all |
| BenchmarkStats.FailedSetupRaises | src/sylion-pipeline/benchmark_harness.py:248-264 | one good and one failed setup: no limit gives a verdict |
| BenchmarkStats.PhotonEnding | src/sylion-pipeline/benchmark_harness.py:309-349 | a photon run never raises; only successful measurements are judged, and if all fail any non-negative limit is met |
| BenchmarkStats.Conclude | src/sylion-pipeline/benchmark_harness.py:268-282 | statistics and verdict, or the exception with the status left as it was |
| BenchmarkStats.RunSetupTime | src/sylion-pipeline/benchmark_harness.py:236-284 | the whole setup benchmark ends so |
| BenchmarkStats.RunInputToPhoton | src/sylion-pipeline/benchmark_harness.py:309-349 | the whole photon benchmark ends so |
| BenchmarkStats.DropsOfWholeGap | src/sylion-pipeline/benchmark_harness.py:665 | a gap of k + 1 regular intervals is k lost frames |
| BenchmarkStats.DropsExact | src/sylion-pipeline/benchmark_harness.py:662-665 | any gap: nothing up to one and a half intervals; beyond that the nearest count, and of two equally near ones that which leaves an even number of intervals |
| BenchmarkStats.MedianIsUpper | src/sylion-pipeline/benchmark_harness.py:652 | the regular interval is an entry with at most half of the list below it and fewer than the rest above |
| BenchmarkStats.MedianUnique | src/sylion-pipeline/benchmark_harness.py:652 | there is only one such entry |
| BenchmarkStats.ScanGaps | src/sylion-pipeline/benchmark_harness.py:658-672 | the total over oversized gaps, and the largest sum over any contiguous stretch of oversized gaps, which never exceeds it |
| BenchmarkStats.AnalyzeFrameTimestamps | src/sylion-pipeline/benchmark_harness.py:639-672 | the same on timestamps, for the gaps between them and the interval so told by counting, with the early exits |
| BudgetGuard.Guard.constructor | src/sylion-pipeline/budget_guard.py:127-133 | starting loads the day's record if there is one that can be read |
| BudgetGuard.Guard.Record | src/sylion-pipeline/budget_guard.py:147-200 | rollover, booking, save, flags and answer of one record |
| BudgetGuard.Guard.Rotate | src/sylion-pipeline/budget_guard.py:313-322 | the old day is saved and the new one starts empty |
| BudgetGuard.Guard.SaveDailyState | src/sylion-pipeline/budget_guard.py:324-332 | the day's record becomes the state, stays if the file could not be opened, or is unreadable if the write was cut short |
| BudgetGuard.Guard.CostBy | src/sylion-pipeline/budget_guard.py:304-307 | one sum for every name that occurs, and together the total |
| BudgetGuard.Guard.GetCostByAgent | src/sylion-pipeline/budget_guard.py:302-307 | the breakdown by agent |
| BudgetGuard.Guard.GetCostByStage | src/sylion-pipeline/budget_guard.py:295-300 | the breakdown by stage |
| BudgetGuard.RunKeepsBooks | src/sylion-pipeline/budget_guard.py:147-171 | over restarts, rollovers and writes that end in any way: memory holds all of today's entries or fewer, the file all or fewer, told by whether each restart found the latest record written and whether the latest is |
| BudgetGuard.EntriesKeptIff | src/sylion-pipeline/budget_guard.py:324-351 | memory holds exactly today's entries iff every restart today found the latest record before it written; then the total is their sum |
| BudgetGuard.EarlierFailureStillLoses | src/sylion-pipeline/budget_guard.py:324-351 | a failed save, a restart, a good save, a restart: the first cost stays lost |
| BudgetGuard.RestartAfterWrite | src/sylion-pipeline/budget_guard.py:324-351 | after any run, a restart after a record finds what memory held, what it would have found before the record, or nothing, as that record's write went |
| BudgetGuard.ResultIsDeserved | src/sylion-pipeline/budget_guard.py:147-200 | if no restart of the day missed its latest record, the answer depends only on what was recorded for that day so far |
| BudgetGuard.RestartsTransparent | src/sylion-pipeline/budget_guard.py:334-351 | if no restart missed its day's latest record, the answers equal those of a guard that never stops |
| BudgetGuard.TotalsTransparent | src/sylion-pipeline/budget_guard.py:334-351 | the day's entries equal those of a guard that never stops iff no restart today missed its latest record; then so does the total |
| BudgetGuard.RefusalsPersist | src/sylion-pipeline/budget_guard.py:184-193 | without negative or lost costs a refused day stays refused |
| BudgetGuard.ExceededFlagExact | src/sylion-pipeline/budget_guard.py:170-186 | however the writes end and over any number of days, `is_exceeded` is set iff some refused record of today is such that every later restart today found a file written after it |
| BudgetGuard.SurvivesIffRecordFollows | src/sylion-pipeline/budget_guard.py:170-186 | with successful writes that is: the refusal is the last event or a record follows it at once |
| BudgetGuard.WarnedFlagExact | src/sylion-pipeline/budget_guard.py:173-182 | the same for `warning_issued` and records that reach the threshold's share of the cap |
| BudgetGuard.PipelineCostExact | src/sylion-pipeline/budget_guard.py:168 | the pipeline cost is what was recorded since the start or the last change of day |
| BudgetGuard.RolloverArchives | src/sylion-pipeline/budget_guard.py:313-322 | the first record of a new day saves the old one, flags included, as its write goes |
| BudgetGuard.PastFilesStay | src/sylion-pipeline/budget_guard.py:313-332 | the file of a day that is over never changes again |
| BudgetGuard.RestartForgetsRefusal | src/sylion-pipeline/budget_guard.py:170-186 | one refused record and a restart: over the cap with the flag down |
| BookGuardian.Guardian.TakeFileSnapshot | src/sylion-pipeline/book_guardian.py:205-248 | the memoised snapshot and the memo it leaves |
| BookGuardian.Guardian.constructor | src/sylion-pipeline/book_guardian.py:163-168 | the baseline is the first snapshot |
| BookGuardian.Guardian.CheckFile | src/sylion-pipeline/book_guardian.py:254-326 | one check: answer, baseline, count and drift report |
| BookGuardian.Guardian.Rebase | src/sylion-pipeline/book_guardian.py:412-435 | the baseline becomes the current snapshot |
| BookGuardian.SnapshotsTrueIff | src/sylion-pipeline/book_guardian.py:223-241 | no snapshot of a run is wrong iff no two successive looks show one stamp over two hashes |
| BookGuardian.MemoAgreement | src/sylion-pipeline/book_guardian.py:205-326 | then the memoised run equals the rehashing one in state and answers |
| BookGuardian.StampsDetermineContent | src/sylion-pipeline/book_guardian.py:208-213 | it is enough that modification time and size determine the content |
| BookGuardian.CheckDetectsDrift | src/sylion-pipeline/book_guardian.py:276-326 | a check fails iff the baseline's document is gone or hashes differently |
| BookGuardian.DishonestStampHidesDrift | src/sylion-pipeline/book_guardian.py:226-237 | one stamp over two hashes: the memo misses what a rehash reports |
| BookGuardian.DriftsCountFailures | src/sylion-pipeline/book_guardian.py:332-334 | drift reports count the failed checks |
| BookGuardian.DriftReportsExact | src/sylion-pipeline/book_guardian.py:276-326 | with honest stamps the drift reports are exactly those of the failed checks: the file of the baseline, and the file as it is |

## Left out

- HMAC-SHA256 and SHA-256 themselves; key loading and rotation; constant-time comparison.
- Touch, key and gamepad payload packing: payloads are opaque bytes, and a payload that
  cannot be packed is `None`. Ping/pong round-trip times.
- Binary floating point: rounding of 0.8, 0.95 and the like is not modelled, nor `nan`.
- AbrController.Controller.constructor: negative rung numbers, which Python would count from
  the end of the ladder, are not modelled: the initial and the throttle rung are naturals.
- ABR estimate history, decision log, encoder profile fields and the building of a ladder
  from configuration.
- Breaker HTTP routes, roles, metrics text, decorators and the local fallback; how the
  limiter's key is put together from user and address.
- File-system walking, path rejection, chunked hashing, and a stat and a read that see
  different files: a disk is a map from paths to contents.
- Descriptions, severities, agent ids and timestamps of claims and findings; the loop-guard
  record, escalation and audit files.
- FileVerification.Layer.VerifyChanges: the order of the findings that one loop makes about
  unclaimed paths is left open; the source walks dictionaries and a set.
- The values of mean and standard deviation (that the latter raises is modelled), simulated benchmark data, the other benchmarks and the
  frame-drop verdict that compares the scan's results with two thresholds.
- The budget guard's top spenders and escalation.
- BudgetGuard.Guard.constructor: a file that is whole but cannot be opened for reading, and
  one cut inside a multi-byte character, whose load raises, are not modelled.
- The echo canceller, level meter, A/V synchronisation and Opus settings of the audio
  pipeline.
- Threads: each locked section is one step, and their interleavings are the event sequences.
