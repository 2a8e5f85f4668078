/** The loop guard: graduated responses to repeated call batches and repeated outcomes. */
module LoopGuards {
  import opened Bytes
  import opened Periodicity
  import opened GuardWindow

  datatype GuardConfig = GuardConfig(
    enabled: bool,
    warnThreshold: nat,
    blockThreshold: nat,
    globalCircuitBreaker: nat,
    pingPongMinRepeats: nat,
    pollMultiplier: nat,
    outcomeWarnThreshold: nat,
    outcomeBlockThreshold: nat,
    windowSize: nat)

  datatype Reason =
    | RepeatedCall(count: nat, threshold: nat)
    | PingPong(period: nat, cycles: nat)
    | RepeatedOutcome(count: nat, threshold: nat)

  datatype GuardAction =
    | Allow
    | Warn(reason: Reason, suggestedDelayMs: Option<nat>)
    | Block(reason: Reason)
    | CircuitBreak(totalRepetitions: nat)
  {
    /** The tool loop ends on these two. */
    predicate Stops() { Block? || CircuitBreak? }
  }

  datatype GuardStats = GuardStats(
    totalChecks: nat, warnings: nat, blocks: nat, circuitBreaks: nat, pingPongDetections: nat, outcomeBlocks: nat)

  // A batch of calls as the guard sees it: its size, its digest, and whether it looks like a status poll.
  datatype CallBatch = CallBatch(size: nat, hash: Hash, poll: bool)

  datatype GuardState = GuardState(calls: Window, outcomes: Window, totalRepetitions: nat, stats: GuardStats)

  const FRESH: GuardState := GuardState(EMPTY, EMPTY, 0, GuardStats(0, 0, 0, 0, 0, 0))

  // ---- Backoff ----

  function Power2(n: nat): nat { if n == 0 then 1 else 2 * Power2(n - 1) }

  function BackoffDelay(count: nat, warnAt: nat): nat {
    // The shift wraps: only the exponent modulo 64 reaches the shifter.
    var exponent := Max(count - warnAt, 0) % 64;
    Min(Power2(exponent), 30) * 1000
  }

  lemma {:induction false} Power2Grows(a: nat, b: nat)
    requires a <= b
    ensures Power2(a) <= Power2(b)
  {
    if a < b { Power2Grows(a, b - 1); }
  }

  /**
   * The documented schedule, 2^(count - warn) seconds capped at 30, is met exactly while the shift
   * does not wrap below 2^5.
   */
  lemma BackoffMatchesSchedule(count: nat, warnAt: nat)
    requires count >= warnAt
    ensures BackoffDelay(count, warnAt) == Min(Power2(count - warnAt), 30) * 1000
      <==> count - warnAt < 64 || (count - warnAt) % 64 >= 5
  {
    var e := count - warnAt;
    assert Power2(5) == 32 by { assert Power2(3) == 8; }
    if e >= 5 { Power2Grows(5, e); }
    if e % 64 >= 5 { Power2Grows(5, e % 64); } else { Power2Grows(e % 64, 4); assert Power2(4) == 16; }
  }

  // ---- One check ----

  function WarnLimit(config: GuardConfig, poll: bool): nat {
    config.warnThreshold * (if poll then config.pollMultiplier else 1)
  }

  function BlockLimit(config: GuardConfig, poll: bool): nat {
    config.blockThreshold * (if poll then config.pollMultiplier else 1)
  }

  /** A counted repetition: either the breaker trips, or `otherwise` is returned. */
  ghost function Strike(config: GuardConfig, st: GuardState, otherwise: GuardAction, stats: GuardStats)
    : (GuardState, GuardAction)
  {
    var total := st.totalRepetitions + 1;
    if total >= config.globalCircuitBreaker
    then (st.(totalRepetitions := total, stats := stats.(circuitBreaks := stats.circuitBreaks + 1)),
      CircuitBreak(total))
    else (st.(totalRepetitions := total, stats := stats), otherwise)
  }

  ghost function PingPongPeriod(config: GuardConfig, items: seq<Hash>): Option<nat> {
    Reported(items, 2, 3, config.pingPongMinRepeats)
  }

  ghost function PingPongStrike(config: GuardConfig, st: GuardState): (GuardState, GuardAction)
    requires PingPongPeriod(config, st.calls.items).Some?
  {
    var period := PingPongPeriod(config, st.calls.items).value;
    Strike(config, st, Warn(PingPong(period, config.pingPongMinRepeats), None),
           st.stats.(pingPongDetections := st.stats.pingPongDetections + 1, warnings := st.stats.warnings + 1))
  }

  ghost function Graduated(config: GuardConfig, st: GuardState, count: nat, poll: bool): (GuardState, GuardAction) {
    var warnAt, blockAt := WarnLimit(config, poll), BlockLimit(config, poll);
    if count < warnAt then (st, Allow)
    else if st.totalRepetitions + 1 >= config.globalCircuitBreaker then Strike(config, st, Allow, st.stats)
    else if count >= blockAt then
      Strike(config, st, Block(RepeatedCall(count, blockAt)), st.stats.(blocks := st.stats.blocks + 1))
    else
      Strike(config, st, Warn(RepeatedCall(count, warnAt), if poll then Some(BackoffDelay(count, warnAt)) else None),
             st.stats.(warnings := st.stats.warnings + 1))
  }

  ghost function CheckStep(config: GuardConfig, st: GuardState, batch: CallBatch): (GuardState, GuardAction) {
    if !config.enabled || batch.size == 0 then (st, Allow)
    else
      var calls := Push(config.windowSize, st.calls, batch.hash);
      var st := st.(calls := calls, stats := st.stats.(totalChecks := st.stats.totalChecks + 1));
      if PingPongPeriod(config, calls.items).Some? then PingPongStrike(config, st)
      else Graduated(config, st, CountIn(calls.counts, batch.hash), batch.poll)
  }

  ghost function OutcomeStep(config: GuardConfig, st: GuardState, outcome: Hash): (GuardState, Option<GuardAction>) {
    if !config.enabled then (st, None)
    else
      var outcomes := Push(config.windowSize, st.outcomes, outcome);
      var st := st.(outcomes := outcomes);
      var count := CountIn(outcomes.counts, outcome);
      if count >= config.outcomeBlockThreshold then
        var (st', action) := Strike(config, st, Block(RepeatedOutcome(count, config.outcomeBlockThreshold)),
                                    st.stats.(outcomeBlocks := st.stats.outcomeBlocks + 1));
        (st', Some(action))
      else if count >= config.outcomeWarnThreshold then
        (st.(stats := st.stats.(warnings := st.stats.warnings + 1)),
         Some(Warn(RepeatedOutcome(count, config.outcomeWarnThreshold), None)))
      else (st, None)
  }

  // ---- The guard object ----

  class LoopGuard {
    const config: GuardConfig

    var callCounts: Counts
    var outcomeCounts: Counts
    var callSequence: seq<Hash>
    var outcomeSequence: seq<Hash>
    var totalRepetitions: nat
    var stats: GuardStats

    // How many hashes were pushed on the two windows, and how many steps their rebuilds have taken.
    ghost var pushes: nat
    ghost var rebuildSteps: nat

    /** All rebuilds together have cost at most one step per push, counting what the windows still hold. */
    ghost predicate Amortised()
      reads this
    {
      rebuildSteps + |callSequence| + |outcomeSequence| <= pushes
    }

    ghost function State(): GuardState
      reads this
    {
      GuardState(Window(callSequence, callCounts), Window(outcomeSequence, outcomeCounts), totalRepetitions, stats)
    }

    constructor (config: GuardConfig)
      ensures this.config == config && State() == FRESH && pushes == rebuildSteps == 0
    {
      pushes, rebuildSteps := 0, 0;
      this.config := config;
      callCounts, outcomeCounts := map[], map[];
      callSequence, outcomeSequence := [], [];
      totalRepetitions := 0;
      stats := GuardStats(0, 0, 0, 0, 0, 0);
    }

    method PruneCallWindow(keep: nat)
      requires keep / 2 <= |callSequence|
      modifies `callSequence, `callCounts, `rebuildSteps
      ensures callSequence == old(callSequence)[|old(callSequence)| - keep / 2..]
      ensures rebuildSteps == old(rebuildSteps) + keep / 2
      ensures callCounts == CountsOf(callSequence)
    {
      var drainCount := |callSequence| - keep / 2;
      callSequence := callSequence[drainCount..];
      ghost var steps;
      callCounts, steps := RebuildCounts(callSequence);
      rebuildSteps := rebuildSteps + steps;
    }

    method PruneOutcomeWindow(keep: nat)
      requires keep / 2 <= |outcomeSequence|
      modifies `outcomeSequence, `outcomeCounts, `rebuildSteps
      ensures outcomeSequence == old(outcomeSequence)[|old(outcomeSequence)| - keep / 2..]
      ensures rebuildSteps == old(rebuildSteps) + keep / 2
      ensures outcomeCounts == CountsOf(outcomeSequence)
    {
      var drainCount := |outcomeSequence| - keep / 2;
      outcomeSequence := outcomeSequence[drainCount..];
      ghost var steps;
      outcomeCounts, steps := RebuildCounts(outcomeSequence);
      rebuildSteps := rebuildSteps + steps;
    }

    method RecordPingPong(period: nat) returns (action: GuardAction)
      modifies `totalRepetitions, `stats
      ensures (State(), action) ==
        Strike(config, old(State()), Warn(PingPong(period, config.pingPongMinRepeats), None),
               old(stats).(pingPongDetections := old(stats).pingPongDetections + 1,
                 warnings := old(stats).warnings + 1))
    {
      stats := stats.(pingPongDetections := stats.pingPongDetections + 1, warnings := stats.warnings + 1);
      totalRepetitions := totalRepetitions + 1;
      if totalRepetitions >= config.globalCircuitBreaker {
        stats := stats.(circuitBreaks := stats.circuitBreaks + 1);
        return CircuitBreak(totalRepetitions);
      }
      action := Warn(PingPong(period, config.pingPongMinRepeats), None);
    }

    method CheckPingPong() returns (action: Option<GuardAction>)
      modifies `totalRepetitions, `stats
      ensures action.Some? <==> PingPongPeriod(config, old(callSequence)).Some?
      ensures action.None? ==> State() == old(State())
      ensures action.Some? ==> (State(), action.value) == PingPongStrike(config, old(State()))
    {
      if config.pingPongMinRepeats == 0 {
        return None;
      }
      var found := HasPeriodicPattern(callSequence, 2, config.pingPongMinRepeats);
      if found {
        var a := RecordPingPong(2);
        return Some(a);
      }
      found := HasPeriodicPattern(callSequence, 3, config.pingPongMinRepeats);
      if found {
        var a := RecordPingPong(3);
        return Some(a);
      }
      action := None;
    }

    /** Pushes, prunes when over the window, and counts the hash. */
    method TrackCall(hash: Hash) returns (count: nat)
      requires Amortised()
      modifies `callSequence, `callCounts, `pushes, `rebuildSteps
      ensures Amortised() && pushes == old(pushes) + 1
      ensures State() == old(State()).(calls := Push(config.windowSize, old(State()).calls, hash))
      ensures count == CountIn(State().calls.counts, hash)
    {
      callSequence, pushes := callSequence + [hash], pushes + 1;
      var window := config.windowSize;
      if window > 0 && |callSequence| > window {
        PruneCallWindow(window);
      }
      callCounts := Bump(callCounts, hash);
      count := callCounts[hash];
    }

    method Check(batch: CallBatch) returns (action: GuardAction)
      requires Amortised()
      modifies this
      ensures Amortised() && pushes <= old(pushes) + 1
      ensures (State(), action) == CheckStep(config, old(State()), batch)
    {
      if !config.enabled || batch.size == 0 {
        return Allow;
      }
      stats := stats.(totalChecks := stats.totalChecks + 1);
      var count := TrackCall(batch.hash);

      var multiplier := if batch.poll then config.pollMultiplier else 1;
      var warnAt := config.warnThreshold * multiplier;
      var blockAt := config.blockThreshold * multiplier;

      var pingPong := CheckPingPong();
      if pingPong.Some? {
        return pingPong.value;
      }
      if count >= warnAt {
        totalRepetitions := totalRepetitions + 1;
        if totalRepetitions >= config.globalCircuitBreaker {
          stats := stats.(circuitBreaks := stats.circuitBreaks + 1);
          return CircuitBreak(totalRepetitions);
        }
        if count >= blockAt {
          stats := stats.(blocks := stats.blocks + 1);
          return Block(RepeatedCall(count, blockAt));
        }
        var delay := if batch.poll then Some(BackoffDelay(count, warnAt)) else None;
        stats := stats.(warnings := stats.warnings + 1);
        return Warn(RepeatedCall(count, warnAt), delay);
      }
      action := Allow;
    }

    method TrackOutcome(hash: Hash) returns (count: nat)
      requires Amortised()
      modifies `outcomeSequence, `outcomeCounts, `pushes, `rebuildSteps
      ensures Amortised() && pushes == old(pushes) + 1
      ensures State() == old(State()).(outcomes := Push(config.windowSize, old(State()).outcomes, hash))
      ensures count == CountIn(State().outcomes.counts, hash)
    {
      outcomeSequence, pushes := outcomeSequence + [hash], pushes + 1;
      var window := config.windowSize;
      if window > 0 && |outcomeSequence| > window {
        PruneOutcomeWindow(window);
      }
      outcomeCounts := Bump(outcomeCounts, hash);
      count := outcomeCounts[hash];
    }

    method RecordOutcome(outcome: Hash) returns (action: Option<GuardAction>)
      requires Amortised()
      modifies this
      ensures Amortised() && pushes <= old(pushes) + 1
      ensures (State(), action) == OutcomeStep(config, old(State()), outcome)
    {
      if !config.enabled {
        return None;
      }
      var count := TrackOutcome(outcome);

      if count >= config.outcomeBlockThreshold {
        stats := stats.(outcomeBlocks := stats.outcomeBlocks + 1);
        totalRepetitions := totalRepetitions + 1;
        if totalRepetitions >= config.globalCircuitBreaker {
          stats := stats.(circuitBreaks := stats.circuitBreaks + 1);
          return Some(CircuitBreak(totalRepetitions));
        }
        return Some(Block(RepeatedOutcome(count, config.outcomeBlockThreshold)));
      }
      if count >= config.outcomeWarnThreshold {
        stats := stats.(warnings := stats.warnings + 1);
        return Some(Warn(RepeatedOutcome(count, config.outcomeWarnThreshold), None));
      }
      action := None;
    }
  }
}
