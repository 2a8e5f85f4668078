/** What the loop guard does over whole runs: any interleaving of checks and recorded outcomes. */
module GuardRuns {
  import opened Bytes
  import opened Periodicity
  import opened GuardWindow
  import opened LoopGuards

  datatype GuardOp = CheckOp(batch: CallBatch) | OutcomeOp(outcome: Hash)

  datatype Verdict = OfCheck(action: GuardAction) | OfOutcome(response: Option<GuardAction>)

  ghost function OpStep(config: GuardConfig, st: GuardState, op: GuardOp): (GuardState, Verdict) {
    match op
    case CheckOp(batch) => var (st', action) := CheckStep(config, st, batch); (st', OfCheck(action))
    case OutcomeOp(outcome) => var (st', response) := OutcomeStep(config, st, outcome); (st', OfOutcome(response))
  }

  /** The guard after the first n operations. */
  ghost function StateAfter(config: GuardConfig, ops: seq<GuardOp>, n: nat): GuardState
    requires n <= |ops|
  {
    if n == 0 then FRESH else OpStep(config, StateAfter(config, ops, n - 1), ops[n - 1]).0
  }

  ghost function VerdictAt(config: GuardConfig, ops: seq<GuardOp>, i: nat): Verdict
    requires i < |ops|
  {
    OpStep(config, StateAfter(config, ops, i), ops[i]).1
  }

  /**
   * The guard object, driven through any operations, goes through these states and returns these
   * verdicts; what its rebuilds have cost and what its windows hold is at most the number of operations.
   */
  method RunGuard(guard: LoopGuard, ops: seq<GuardOp>) returns (verdicts: seq<Verdict>)
    requires guard.State() == FRESH && guard.pushes == guard.rebuildSteps == 0
    modifies guard
    ensures guard.State() == StateAfter(guard.config, ops, |ops|)
    ensures |verdicts| == |ops| && forall i :: 0 <= i < |ops| ==> verdicts[i] == VerdictAt(guard.config, ops, i)
    ensures guard.rebuildSteps + |guard.callSequence| + |guard.outcomeSequence| <= |ops|
  {
    hide CheckStep, OutcomeStep;
    verdicts := [];
    for n := 0 to |ops|
      invariant guard.State() == StateAfter(guard.config, ops, n) && guard.Amortised() && guard.pushes <= n
      invariant |verdicts| == n && forall i :: 0 <= i < n ==> verdicts[i] == VerdictAt(guard.config, ops, i)
    {
      match ops[n] {
        case CheckOp(batch) =>
          var action := guard.Check(batch);
          verdicts := verdicts + [OfCheck(action)];
        case OutcomeOp(outcome) =>
          var response := guard.RecordOutcome(outcome);
          verdicts := verdicts + [OfOutcome(response)];
      }
    }
  }

  // ---- Breaker accounting ----

  /** A check counts unless it allows; an outcome counts when it blocks or breaks. */
  predicate Counted(v: Verdict) {
    match v
    case OfCheck(action) => !action.Allow?
    case OfOutcome(response) => response.Some? && response.value.Stops()
  }

  predicate Breaks(v: Verdict) {
    match v
    case OfCheck(action) => action.CircuitBreak?
    case OfOutcome(response) => response.Some? && response.value.CircuitBreak?
  }

  ghost function Strikes(config: GuardConfig, ops: seq<GuardOp>, n: nat): nat
    requires n <= |ops|
  {
    if n == 0 then 0
    else Strikes(config, ops, n - 1) + if Counted(VerdictAt(config, ops, n - 1)) then 1 else 0
  }

  ghost function SoftStrikes(config: GuardConfig, ops: seq<GuardOp>, n: nat): nat
    requires n <= |ops|
  {
    if n == 0 then 0
    else
      var v := VerdictAt(config, ops, n - 1);
      SoftStrikes(config, ops, n - 1) + if Counted(v) && !Breaks(v) then 1 else 0
  }

  lemma StrikeOfOp(config: GuardConfig, st: GuardState, op: GuardOp)
    ensures var (st', v) := OpStep(config, st, op);
      && st'.totalRepetitions == st.totalRepetitions + (if Counted(v) then 1 else 0)
      && (Breaks(v) <==> Counted(v) && st'.totalRepetitions >= config.globalCircuitBreaker)
      && st'.stats.circuitBreaks == st.stats.circuitBreaks + (if Breaks(v) then 1 else 0)
  {
  }

  /**
   * The repetition total is exactly the number of counted verdicts; of these, all but the first
   * globalCircuitBreaker - 1 trip the breaker, and the statistics agree.
   */
  lemma {:induction false} BreakerAccounting(config: GuardConfig, ops: seq<GuardOp>, n: nat)
    requires n <= |ops|
    ensures StateAfter(config, ops, n).totalRepetitions == Strikes(config, ops, n)
    ensures SoftStrikes(config, ops, n) == Min(Strikes(config, ops, n), Max(config.globalCircuitBreaker, 1) - 1)
    ensures StateAfter(config, ops, n).stats.circuitBreaks == Strikes(config, ops, n) - SoftStrikes(config, ops, n)
  {
    if n > 0 {
      BreakerAccounting(config, ops, n - 1);
      StrikeOfOp(config, StateAfter(config, ops, n - 1), ops[n - 1]);
    }
  }

  /** Once the strikes reach the limit, a check either allows or breaks: it never warns or blocks again. */
  lemma BreakerIsFinal(config: GuardConfig, ops: seq<GuardOp>, i: nat)
    requires i < |ops| && ops[i].CheckOp?
    requires Strikes(config, ops, i) + 1 >= config.globalCircuitBreaker
    ensures VerdictAt(config, ops, i).action.Allow? || VerdictAt(config, ops, i).action.CircuitBreak?
  {
    BreakerAccounting(config, ops, i);
    StrikeOfOp(config, StateAfter(config, ops, i), ops[i]);
  }

  // ---- Statistics ----

  datatype Tally = Tally(checks: nat, warnings: nat, blocks: nat, oscillations: nat, outcomeBlocks: nat)

  function One(b: bool): nat { if b then 1 else 0 }

  /** How many of the first n answers are of each kind. */
  ghost function TallyOf(config: GuardConfig, ops: seq<GuardOp>, n: nat): Tally
    requires n <= |ops|
  {
    if n == 0 then Tally(0, 0, 0, 0, 0)
    else
      var t := TallyOf(config, ops, n - 1);
      match VerdictAt(config, ops, n - 1)
      case OfCheck(action) =>
        t.(checks := t.checks + One(ops[n - 1].batch.size > 0),
           warnings := t.warnings + One(action.Warn?),
           blocks := t.blocks + One(action.Block?),
           oscillations := t.oscillations + One(action.Warn? && action.reason.PingPong?))
      case OfOutcome(response) =>
        t.(warnings := t.warnings + One(response.Some? && response.value.Warn?),
           outcomeBlocks := t.outcomeBlocks + One(response.Some? && response.value.Block?))
  }

  lemma StatisticsOfOp(config: GuardConfig, st: GuardState, op: GuardOp)
    requires config.enabled && st.totalRepetitions + 1 < config.globalCircuitBreaker
    ensures var (st', v) := OpStep(config, st, op);
      match v
      case OfCheck(action) =>
        && op.CheckOp?
        && st'.stats.totalChecks == st.stats.totalChecks + One(op.batch.size > 0)
        && st'.stats.warnings == st.stats.warnings + One(action.Warn?)
        && st'.stats.blocks == st.stats.blocks + One(action.Block?)
        && st'.stats.pingPongDetections
           == st.stats.pingPongDetections + One(action.Warn? && action.reason.PingPong?)
        && st'.stats.outcomeBlocks == st.stats.outcomeBlocks
      case OfOutcome(response) =>
        && op.OutcomeOp?
        && st'.stats.totalChecks == st.stats.totalChecks && st'.stats.blocks == st.stats.blocks
        && st'.stats.warnings == st.stats.warnings + One(response.Some? && response.value.Warn?)
        && st'.stats.pingPongDetections == st.stats.pingPongDetections
        && st'.stats.outcomeBlocks == st.stats.outcomeBlocks + One(response.Some? && response.value.Block?)
  {
    hide Push, PingPongPeriod, CountIn, WarnLimit, BlockLimit, BackoffDelay;
  }

  /** Until the breaker is in reach, each statistic is the number of answers of its kind. */
  lemma {:induction false} StatisticsAgree(config: GuardConfig, ops: seq<GuardOp>, n: nat)
    requires config.enabled && n <= |ops| && Strikes(config, ops, n) + 1 < config.globalCircuitBreaker
    ensures var stats, t := StateAfter(config, ops, n).stats, TallyOf(config, ops, n);
      && stats.totalChecks == t.checks && stats.warnings == t.warnings && stats.blocks == t.blocks
      && stats.pingPongDetections == t.oscillations && stats.outcomeBlocks == t.outcomeBlocks
  {
    hide OpStep;
    if n > 0 {
      StatisticsAgree(config, ops, n - 1);
      BreakerAccounting(config, ops, n - 1);
      StatisticsOfOp(config, StateAfter(config, ops, n - 1), ops[n - 1]);
    }
  }

  // ---- The two windows ----

  /** The hashes an operation pushes on the call window and on the outcome window. */
  function CallPush(config: GuardConfig, op: GuardOp): seq<Hash> {
    if config.enabled && op.CheckOp? && op.batch.size > 0 then [op.batch.hash] else []
  }

  function OutcomePush(config: GuardConfig, op: GuardOp): seq<Hash> {
    if config.enabled && op.OutcomeOp? then [op.outcome] else []
  }

  function CallHashes(config: GuardConfig, ops: seq<GuardOp>, n: nat): seq<Hash>
    requires n <= |ops|
  {
    if n == 0 then [] else CallHashes(config, ops, n - 1) + CallPush(config, ops[n - 1])
  }

  function OutcomeHashes(config: GuardConfig, ops: seq<GuardOp>, n: nat): seq<Hash>
    requires n <= |ops|
  {
    if n == 0 then [] else OutcomeHashes(config, ops, n - 1) + OutcomePush(config, ops[n - 1])
  }

  lemma WindowsOfOp(config: GuardConfig, st: GuardState, op: GuardOp)
    ensures var st' := OpStep(config, st, op).0;
      && st'.calls == PushNew(config.windowSize, st.calls, CallPush(config, op))
      && st'.outcomes == PushNew(config.windowSize, st.outcomes, OutcomePush(config, op))
  {
    hide Push, PingPongPeriod, CountIn, WarnLimit, BlockLimit, BackoffDelay;
  }

  function PushNew(limit: nat, win: Window, pushed: seq<Hash>): Window {
    if pushed == [] then win else Push(limit, win, pushed[0])
  }

  lemma {:induction false} PushedIgnoresLater(limit: nat, hashes: seq<Hash>, h: Hash, n: nat)
    requires n <= |hashes|
    ensures Pushed(limit, hashes + [h], n) == Pushed(limit, hashes, n)
  {
    if n > 0 { PushedIgnoresLater(limit, hashes, h, n - 1); }
  }

  lemma PushedNext(limit: nat, hashes: seq<Hash>, pushed: seq<Hash>)
    requires |pushed| <= 1
    ensures Pushed(limit, hashes + pushed, |hashes + pushed|) == PushNew(limit, Pushed(limit, hashes, |hashes|), pushed)
  {
    if pushed == [] {
      assert hashes + pushed == hashes;
    } else {
      assert pushed == [pushed[0]];
      PushedIgnoresLater(limit, hashes, pushed[0], |hashes|);
    }
  }

  /** The call window depends on the checks alone, the outcome window on the outcomes alone. */
  lemma {:induction false} WindowsOfRun(config: GuardConfig, ops: seq<GuardOp>, n: nat)
    requires n <= |ops|
    ensures var hashes := CallHashes(config, ops, n);
      StateAfter(config, ops, n).calls == Pushed(config.windowSize, hashes, |hashes|)
    ensures var hashes := OutcomeHashes(config, ops, n);
      StateAfter(config, ops, n).outcomes == Pushed(config.windowSize, hashes, |hashes|)
  {
    if n > 0 {
      WindowsOfRun(config, ops, n - 1);
      WindowsOfOp(config, StateAfter(config, ops, n - 1), ops[n - 1]);
      PushedNext(config.windowSize, CallHashes(config, ops, n - 1), CallPush(config, ops[n - 1]));
      PushedNext(config.windowSize, OutcomeHashes(config, ops, n - 1), OutcomePush(config, ops[n - 1]));
    }
  }

  ghost predicate DriftsByAtMostOne(win: Window, limit: nat) {
    && (limit > 0 ==> |win.items| <= limit)
    && exists phantom: multiset<Hash> :: |phantom| <= 1 && Represents(win.counts, multiset(win.items) + phantom)
  }

  /** In every reachable state both windows are bounded and both count maps are off by at most one occurrence. */
  lemma ReachableWindowsDriftByAtMostOne(config: GuardConfig, ops: seq<GuardOp>, n: nat)
    requires n <= |ops|
    ensures DriftsByAtMostOne(StateAfter(config, ops, n).calls, config.windowSize)
    ensures DriftsByAtMostOne(StateAfter(config, ops, n).outcomes, config.windowSize)
  {
    WindowsOfRun(config, ops, n);
    var calls, outcomes := CallHashes(config, ops, n), OutcomeHashes(config, ops, n);
    WindowExact(config.windowSize, calls, |calls|);
    WindowExact(config.windowSize, outcomes, |outcomes|);
  }

  // ---- One batch repeated for ever ----

  ghost predicate Repeats(ops: seq<GuardOp>, batch: CallBatch) {
    forall i :: 0 <= i < |ops| ==> ops[i] == CheckOp(batch)
  }

  /** The count compared with the thresholds at the n-th identical check. */
  function CountAfter(limit: nat, n: nat): nat {
    Length(limit, n) + if LastPrune(limit, n) > 0 then 1 else 0
  }

  lemma {:induction false} UniformCount(items: seq<Hash>, h: Hash)
    requires forall i :: 0 <= i < |items| ==> items[i] == h
    ensures multiset(items)[h] == |items|
  {
    if items != [] {
      UniformCount(items[1..], h);
      assert items == [items[0]] + items[1..];
    }
  }

  lemma UniformNeverOscillates(items: seq<Hash>, h: Hash, repeats: nat)
    requires forall i :: 0 <= i < |items| ==> items[i] == h
    ensures Reported(items, 2, 3, repeats) == None
  {
  }

  lemma RepeatedWindow(limit: nat, hashes: seq<Hash>, h: Hash)
    requires forall i :: 0 <= i < |hashes| ==> hashes[i] == h
    ensures var win := Pushed(limit, hashes, |hashes|);
      && (forall i :: 0 <= i < |win.items| ==> win.items[i] == h)
      && CountIn(win.counts, h) == CountAfter(limit, |hashes|)
  {
    var n := |hashes|;
    WindowExact(limit, hashes, n);
    LengthBounds(limit, n);
    var win := Pushed(limit, hashes, n);
    UniformCount(win.items, h);
    if LastPrune(limit, n) > 0 {
      assert Phantom(limit, hashes, n) == multiset{h};
    }
  }

  lemma {:induction false} RepeatedHashes(config: GuardConfig, ops: seq<GuardOp>, batch: CallBatch, n: nat)
    requires n <= |ops| && Repeats(ops, batch) && config.enabled && batch.size > 0
    ensures |CallHashes(config, ops, n)| == n
    ensures forall i :: 0 <= i < n ==> CallHashes(config, ops, n)[i] == batch.hash
  {
    if n > 0 { RepeatedHashes(config, ops, batch, n - 1); }
  }

  /** How many of the first n identical pushes bring the count to the threshold. */
  function StrikesAt(limit: nat, threshold: nat, n: nat): nat {
    if n == 0 then 0 else StrikesAt(limit, threshold, n - 1) + if CountAfter(limit, n) >= threshold then 1 else 0
  }

  function RepeatStrikes(config: GuardConfig, poll: bool, n: nat): nat {
    StrikesAt(config.windowSize, WarnLimit(config, poll), n)
  }

  function RepeatResponse(config: GuardConfig, poll: bool, n: nat): GuardAction {
    var count := CountAfter(config.windowSize, n);
    var warnAt, blockAt := WarnLimit(config, poll), BlockLimit(config, poll);
    if count < warnAt then Allow
    else if RepeatStrikes(config, poll, n) >= config.globalCircuitBreaker then
      CircuitBreak(RepeatStrikes(config, poll, n))
    else if count >= blockAt then Block(RepeatedCall(count, blockAt))
    else Warn(RepeatedCall(count, warnAt), if poll then Some(BackoffDelay(count, warnAt)) else None)
  }

  lemma RepeatedCheck(config: GuardConfig, ops: seq<GuardOp>, batch: CallBatch, n: nat)
    requires 0 < n <= |ops| && Repeats(ops, batch) && config.enabled && batch.size > 0
    ensures OpStep(config, StateAfter(config, ops, n - 1), ops[n - 1]) ==
      var st := StateAfter(config, ops, n - 1);
      var counted := st.(calls := StateAfter(config, ops, n).calls,
                         stats := st.stats.(totalChecks := st.stats.totalChecks + 1));
      var (st', action) := Graduated(config, counted, CountAfter(config.windowSize, n), batch.poll);
      (st', OfCheck(action))
  {
    hide Push, Length, LastPrune;
    var hashes := CallHashes(config, ops, n);
    RepeatedHashes(config, ops, batch, n);
    WindowsOfRun(config, ops, n);
    RepeatedWindow(config.windowSize, hashes, batch.hash);
    UniformNeverOscillates(StateAfter(config, ops, n).calls.items, batch.hash, config.pingPongMinRepeats);
  }

  /** The n-th check of an endlessly repeated batch, for every n. */
  lemma {:induction false} RepeatedBatchVerdict(config: GuardConfig, ops: seq<GuardOp>, batch: CallBatch, n: nat)
    requires n <= |ops| && Repeats(ops, batch) && config.enabled && batch.size > 0
    ensures StateAfter(config, ops, n).totalRepetitions == RepeatStrikes(config, batch.poll, n)
    ensures n > 0 ==> VerdictAt(config, ops, n - 1) == OfCheck(RepeatResponse(config, batch.poll, n))
  {
    hide CheckStep, OutcomeStep, CountAfter;
    if n > 0 {
      RepeatedBatchVerdict(config, ops, batch, n - 1);
      RepeatedCheck(config, ops, batch, n);
    }
  }

  // ---- When it is stopped ----

  /** A prune count stays positive, and the window then fills up to its limit again and again. */
  lemma {:induction false} Refills(limit: nat, n: nat) returns (m: nat)
    requires limit > 0 && LastPrune(limit, n) > 0
    ensures m >= n && CountAfter(limit, m) == limit + 1
    decreases limit - Length(limit, n)
  {
    LengthBounds(limit, n);
    if Length(limit, n) == limit {
      m := n;
    } else {
      assert Length(limit, n + 1) == Length(limit, n) + 1 && LastPrune(limit, n + 1) == LastPrune(limit, n);
      m := Refills(limit, n + 1);
    }
  }

  lemma {:induction false} PruneIsRemembered(limit: nat, n: nat)
    requires limit > 0 && n > limit
    ensures LastPrune(limit, n) > 0
  {
    LengthClosedForm(limit, n);
    if n > limit + 1 { PruneIsRemembered(limit, n - 1); } else { LengthClosedForm(limit, limit); }
  }

  /** Later than any n, the count reaches every threshold up to limit + 1. */
  lemma ReachesAgain(limit: nat, threshold: nat, n: nat) returns (m: nat)
    requires limit == 0 || threshold <= limit + 1
    ensures m > n && CountAfter(limit, m) >= threshold
  {
    if limit == 0 {
      m := n + 1 + threshold;
      LengthClosedForm(limit, m);
    } else {
      PruneIsRemembered(limit, n + limit + 1);
      m := Refills(limit, n + limit + 1);
    }
  }

  lemma {:induction false} StrikesGrow(limit: nat, threshold: nat, a: nat, b: nat)
    requires a <= b
    ensures StrikesAt(limit, threshold, a) <= StrikesAt(limit, threshold, b)
  {
    if a < b { StrikesGrow(limit, threshold, a, b - 1); }
  }

  lemma {:induction false} ManyStrikes(limit: nat, threshold: nat, k: nat) returns (n: nat)
    requires limit == 0 || threshold <= limit + 1
    ensures n > 0 && CountAfter(limit, n) >= threshold && StrikesAt(limit, threshold, n) >= k
  {
    var before := 0;
    if k > 0 { before := ManyStrikes(limit, threshold, k - 1); }
    n := ReachesAgain(limit, threshold, before);
    StrikesGrow(limit, threshold, before, n - 1);
  }

  /** The operation at position i is answered with Block or CircuitBreak. */
  ghost predicate StopsAt(config: GuardConfig, ops: seq<GuardOp>, i: nat)
    requires i < |ops|
  {
    match VerdictAt(config, ops, i)
    case OfCheck(action) => action.Stops()
    case OfOutcome(response) => response.Some? && response.value.Stops()
  }

  /** Without an enabled guard, or with an empty batch, a check always allows; no outcome is answered either. */
  lemma DisabledNeverStops(config: GuardConfig, ops: seq<GuardOp>, i: nat)
    requires i < |ops| && (!config.enabled || (ops[i].CheckOp? && ops[i].batch.size == 0))
    ensures VerdictAt(config, ops, i) == if ops[i].CheckOp? then OfCheck(Allow) else OfOutcome(None)
  {
  }

  lemma SomeResponseStopsIff(config: GuardConfig, poll: bool)
    ensures (exists n: nat :: n > 0 && RepeatResponse(config, poll, n).Stops())
      <==> config.windowSize == 0 || WarnLimit(config, poll) <= config.windowSize + 1
  {
    if config.windowSize == 0 || WarnLimit(config, poll) <= config.windowSize + 1 {
      var n := ManyStrikes(config.windowSize, WarnLimit(config, poll), config.globalCircuitBreaker);
      assert RepeatResponse(config, poll, n).Stops();
    } else {
      forall n: nat ensures CountAfter(config.windowSize, n) <= config.windowSize + 1 {
        LengthBounds(config.windowSize, n);
      }
    }
  }

  ghost predicate EventuallyStops(config: GuardConfig, batch: CallBatch) {
    exists ops, i: nat :: i < |ops| && Repeats(ops, batch) && StopsAt(config, ops, i)
  }

  /**
   * An endlessly repeated batch is stopped if and only if the guard is enabled, there are calls in the
   * batch, and the window leaves room for the warning threshold.
   */
  lemma RepeatedBatchIsStoppedIff(config: GuardConfig, batch: CallBatch)
    ensures EventuallyStops(config, batch) <==>
      && config.enabled && batch.size > 0
      && (config.windowSize == 0 || WarnLimit(config, batch.poll) <= config.windowSize + 1)
  {
    hide RepeatResponse, WarnLimit, VerdictAt, StateAfter;
    SomeResponseStopsIff(config, batch.poll);
    if !config.enabled || batch.size == 0 {
      forall ops, i: nat | i < |ops| && Repeats(ops, batch) ensures !StopsAt(config, ops, i) {
        DisabledNeverStops(config, ops, i);
      }
    } else {
      forall ops, i: nat | i < |ops| && Repeats(ops, batch)
        ensures StopsAt(config, ops, i) <==> RepeatResponse(config, batch.poll, i + 1).Stops()
      {
        RepeatedBatchVerdict(config, ops, batch, i + 1);
      }
      if n: nat :| n > 0 && RepeatResponse(config, batch.poll, n).Stops() {
        var ops := seq(n, i requires 0 <= i < n => CheckOp(batch));
        assert StopsAt(config, ops, n - 1);
      }
    }
  }

  /** A window of one is too small for the default thresholds: the same batch is allowed for ever. */
  lemma SmallWindowNeverStops(ops: seq<GuardOp>, batch: CallBatch, i: nat)
    requires i < |ops| && Repeats(ops, batch) && batch.size > 0 && !batch.poll
    ensures VerdictAt(GuardConfig(true, 3, 5, 30, 3, 3, 2, 3, 1), ops, i) == OfCheck(Allow)
  {
    hide VerdictAt, Length, LastPrune, RepeatStrikes;
    var config := GuardConfig(true, 3, 5, 30, 3, 3, 2, 3, 1);
    RepeatedBatchVerdict(config, ops, batch, i + 1);
    LengthBounds(1, i + 1);
  }

  /** Sixty-four checks past the warning threshold, a poll is told to wait one second instead of thirty. */
  lemma DelayWraps(config: GuardConfig, ops: seq<GuardOp>, batch: CallBatch)
    requires Repeats(ops, batch) && batch.size > 0 && batch.poll && config.enabled && config.windowSize == 0
    requires 0 < WarnLimit(config, true) && WarnLimit(config, true) + 64 < BlockLimit(config, true)
    requires config.globalCircuitBreaker > 65 && |ops| >= WarnLimit(config, true) + 64
    ensures var n := WarnLimit(config, true) + 64;
      VerdictAt(config, ops, n - 1) == OfCheck(Warn(RepeatedCall(n, WarnLimit(config, true)), Some(1000)))
  {
    hide StateAfter, VerdictAt, Length, LastPrune, StrikesAt;
    var n := WarnLimit(config, true) + 64;
    RepeatedBatchVerdict(config, ops, batch, n);
    LengthClosedForm(0, n);
    StrikesBeforePrune(0, WarnLimit(config, true), n);
  }

  /** Such a configuration exists. */
  lemma DelayWrapsSomewhere(ops: seq<GuardOp>, batch: CallBatch)
    requires Repeats(ops, batch) && batch.size > 0 && batch.poll && |ops| >= 65
    ensures VerdictAt(GuardConfig(true, 1, 100, 100, 3, 1, 2, 3, 0), ops, 64)
      == OfCheck(Warn(RepeatedCall(65, 1), Some(1000)))
  {
    hide VerdictAt;
    DelayWraps(GuardConfig(true, 1, 100, 100, 3, 1, 2, 3, 0), ops, batch);
  }

  /** The check at which an identical batch is stopped when no prune comes first. */
  function StopAt(config: GuardConfig, poll: bool): nat {
    var warnAt := Max(WarnLimit(config, poll), 1);
    Max(warnAt, Min(BlockLimit(config, poll), warnAt + Max(config.globalCircuitBreaker, 1) - 1))
  }

  lemma {:induction false} StrikesBeforePrune(limit: nat, threshold: nat, n: nat)
    requires limit == 0 || n <= limit
    ensures StrikesAt(limit, threshold, n) == Max(0, n + 1 - Max(threshold, 1))
  {
    LengthClosedForm(limit, n);
    if n > 0 { StrikesBeforePrune(limit, threshold, n - 1); }
  }

  /**
   * With a window that reaches that far, the n-th identical check follows the schedule: allowed
   * below the warning threshold, then warned, and stopped for the first time at exactly StopAt -
   * which is the block threshold at the latest.
   */
  lemma RepeatedBatchSchedule(config: GuardConfig, poll: bool, n: nat)
    requires 0 < n <= StopAt(config, poll)
    requires config.windowSize == 0 || StopAt(config, poll) <= config.windowSize
    ensures BlockLimit(config, poll) >= Max(WarnLimit(config, poll), 1) ==>
      StopAt(config, poll) <= BlockLimit(config, poll)
    ensures RepeatResponse(config, poll, n).Allow? <==> n < WarnLimit(config, poll)
    ensures RepeatResponse(config, poll, n).Stops() <==> n == StopAt(config, poll)
    ensures (poll && BlockLimit(config, poll) <= WarnLimit(config, poll) + 64 && RepeatResponse(config, poll, n).Warn?)
      ==>
      RepeatResponse(config, poll, n).suggestedDelayMs == Some(Min(Power2(n - WarnLimit(config, poll)), 30) * 1000)
  {
    LengthClosedForm(config.windowSize, n);
    StrikesBeforePrune(config.windowSize, WarnLimit(config, poll), n);
    if n >= WarnLimit(config, poll) { BackoffMatchesSchedule(n, WarnLimit(config, poll)); }
  }

  /** The same for the guard's verdicts on a run of identical checks. */
  lemma RepeatedRunFollowsSchedule(config: GuardConfig, ops: seq<GuardOp>, batch: CallBatch, n: nat)
    requires 0 < n <= StopAt(config, batch.poll) && n <= |ops| && Repeats(ops, batch)
    requires config.enabled && batch.size > 0
    requires config.windowSize == 0 || StopAt(config, batch.poll) <= config.windowSize
    ensures VerdictAt(config, ops, n - 1) == OfCheck(Allow) <==> n < WarnLimit(config, batch.poll)
    ensures StopsAt(config, ops, n - 1) <==> n == StopAt(config, batch.poll)
  {
    hide VerdictAt, RepeatResponse, StopAt, WarnLimit;
    RepeatedBatchVerdict(config, ops, batch, n);
    RepeatedBatchSchedule(config, batch.poll, n);
  }

  /** The default settings: warned from the third check on and blocked at the fifth; polls get three times as many. */
  lemma DefaultSchedule(ops: seq<GuardOp>, batch: CallBatch)
    requires Repeats(ops, batch) && batch.size > 0 && |ops| >= 15
    ensures var config := GuardConfig(true, 3, 5, 30, 3, 3, 2, 3, 200);
      if !batch.poll then
        && VerdictAt(config, ops, 1) == OfCheck(Allow)
        && VerdictAt(config, ops, 2) == OfCheck(Warn(RepeatedCall(3, 3), None))
        && VerdictAt(config, ops, 3) == OfCheck(Warn(RepeatedCall(4, 3), None))
        && VerdictAt(config, ops, 4) == OfCheck(Block(RepeatedCall(5, 5)))
      else
        && VerdictAt(config, ops, 7) == OfCheck(Allow)
        && VerdictAt(config, ops, 8) == OfCheck(Warn(RepeatedCall(9, 9), Some(1_000)))
        && VerdictAt(config, ops, 12) == OfCheck(Warn(RepeatedCall(13, 9), Some(16_000)))
        && VerdictAt(config, ops, 13) == OfCheck(Warn(RepeatedCall(14, 9), Some(30_000)))
        && VerdictAt(config, ops, 14) == OfCheck(Block(RepeatedCall(15, 15)))
  {
    hide VerdictAt, BackoffDelay;
    DelaysOf(1_000);
    if batch.poll {
      DefaultVerdict(ops, batch, 8);
      DefaultVerdict(ops, batch, 9);
      DefaultVerdict(ops, batch, 13);
      DefaultVerdict(ops, batch, 14);
      DefaultVerdict(ops, batch, 15);
    } else {
      DefaultVerdict(ops, batch, 2);
      DefaultVerdict(ops, batch, 3);
      DefaultVerdict(ops, batch, 4);
      DefaultVerdict(ops, batch, 5);
    }
  }

  lemma DelaysOf(second: nat)
    requires second == 1_000
    ensures BackoffDelay(9, 9) == second && BackoffDelay(13, 9) == 16 * second && BackoffDelay(14, 9) == 30 * second
  {
    assert Power2(5) == 32 && Power2(4) == 16 by { assert Power2(2) == 4; }
  }

  lemma DefaultVerdict(ops: seq<GuardOp>, batch: CallBatch, n: nat)
    requires Repeats(ops, batch) && batch.size > 0 && 0 < n <= |ops| && n <= 15
    ensures var warnAt, blockAt := if batch.poll then 9 else 3, if batch.poll then 15 else 5;
      VerdictAt(GuardConfig(true, 3, 5, 30, 3, 3, 2, 3, 200), ops, n - 1) == OfCheck(
        if n < warnAt then Allow
        else if n >= blockAt then Block(RepeatedCall(n, blockAt))
        else Warn(RepeatedCall(n, warnAt), if batch.poll then Some(BackoffDelay(n, warnAt)) else None))
  {
    hide VerdictAt, Length, LastPrune, StrikesAt, BackoffDelay;
    var config := GuardConfig(true, 3, 5, 30, 3, 3, 2, 3, 200);
    RepeatedBatchVerdict(config, ops, batch, n);
    LengthClosedForm(200, n);
    StrikesBeforePrune(200, WarnLimit(config, batch.poll), n);
  }

  // ---- One outcome repeated for ever ----

  ghost predicate RepeatsOutcome(ops: seq<GuardOp>, outcome: Hash) {
    forall i :: 0 <= i < |ops| ==> ops[i] == OutcomeOp(outcome)
  }

  function OutcomeResponse(config: GuardConfig, n: nat): Option<GuardAction> {
    var count := CountAfter(config.windowSize, n);
    var strikes := StrikesAt(config.windowSize, config.outcomeBlockThreshold, n);
    if count >= config.outcomeBlockThreshold then
      Some(if strikes >= config.globalCircuitBreaker then CircuitBreak(strikes)
           else Block(RepeatedOutcome(count, config.outcomeBlockThreshold)))
    else if count >= config.outcomeWarnThreshold then
      Some(Warn(RepeatedOutcome(count, config.outcomeWarnThreshold), None))
    else None
  }

  lemma {:induction false} RepeatedOutcomeHashes(config: GuardConfig, ops: seq<GuardOp>, outcome: Hash, n: nat)
    requires n <= |ops| && RepeatsOutcome(ops, outcome) && config.enabled
    ensures |OutcomeHashes(config, ops, n)| == n
    ensures forall i :: 0 <= i < n ==> OutcomeHashes(config, ops, n)[i] == outcome
  {
    if n > 0 { RepeatedOutcomeHashes(config, ops, outcome, n - 1); }
  }

  /** The n-th recording of an outcome that never changes, for every n. */
  lemma {:induction false} RepeatedOutcomeVerdict(config: GuardConfig, ops: seq<GuardOp>, outcome: Hash, n: nat)
    requires n <= |ops| && RepeatsOutcome(ops, outcome) && config.enabled
    ensures StateAfter(config, ops, n).totalRepetitions
      == StrikesAt(config.windowSize, config.outcomeBlockThreshold, n)
    ensures n > 0 ==> VerdictAt(config, ops, n - 1) == OfOutcome(OutcomeResponse(config, n))
  {
    hide Push, Length, LastPrune;
    if n > 0 {
      RepeatedOutcomeVerdict(config, ops, outcome, n - 1);
      RepeatedOutcomeHashes(config, ops, outcome, n);
      WindowsOfRun(config, ops, n);
      RepeatedWindow(config.windowSize, OutcomeHashes(config, ops, n), outcome);
    }
  }

  lemma SomeOutcomeResponseStopsIff(config: GuardConfig)
    ensures (exists n: nat :: n > 0 && OutcomeResponse(config, n).Some? && OutcomeResponse(config, n).value.Stops())
      <==> config.windowSize == 0 || config.outcomeBlockThreshold <= config.windowSize + 1
  {
    if config.windowSize == 0 || config.outcomeBlockThreshold <= config.windowSize + 1 {
      var n := ManyStrikes(config.windowSize, config.outcomeBlockThreshold, 0);
      assert OutcomeResponse(config, n).value.Stops();
    } else {
      forall n: nat ensures CountAfter(config.windowSize, n) <= config.windowSize + 1 {
        LengthBounds(config.windowSize, n);
      }
    }
  }

  ghost predicate OutcomeEventuallyStops(config: GuardConfig, outcome: Hash) {
    exists ops, i: nat :: i < |ops| && RepeatsOutcome(ops, outcome) && StopsAt(config, ops, i)
  }

  /**
   * An outcome that never changes is stopped if and only if the guard is enabled and the window leaves
   * room for the block threshold of outcomes.
   */
  lemma RepeatedOutcomeIsStoppedIff(config: GuardConfig, outcome: Hash)
    ensures OutcomeEventuallyStops(config, outcome) <==>
      && config.enabled
      && (config.windowSize == 0 || config.outcomeBlockThreshold <= config.windowSize + 1)
  {
    hide OutcomeResponse, VerdictAt, StateAfter;
    SomeOutcomeResponseStopsIff(config);
    if !config.enabled {
      forall ops, i: nat | i < |ops| && RepeatsOutcome(ops, outcome) ensures !StopsAt(config, ops, i) {
        DisabledNeverStops(config, ops, i);
      }
    } else {
      forall ops, i: nat | i < |ops| && RepeatsOutcome(ops, outcome)
        ensures StopsAt(config, ops, i)
          <==> OutcomeResponse(config, i + 1).Some? && OutcomeResponse(config, i + 1).value.Stops()
      {
        RepeatedOutcomeVerdict(config, ops, outcome, i + 1);
      }
      if n: nat :| n > 0 && OutcomeResponse(config, n).Some? && OutcomeResponse(config, n).value.Stops() {
        var ops := seq(n, i requires 0 <= i < n => OutcomeOp(outcome));
        assert StopsAt(config, ops, n - 1);
      }
    }
  }

  /** With the default settings the second equal outcome is warned about and the third one blocked. */
  lemma DefaultOutcomeSchedule(ops: seq<GuardOp>, outcome: Hash)
    requires RepeatsOutcome(ops, outcome) && |ops| >= 3
    ensures var config := GuardConfig(true, 3, 5, 30, 3, 3, 2, 3, 200);
      && VerdictAt(config, ops, 0) == OfOutcome(None)
      && VerdictAt(config, ops, 1) == OfOutcome(Some(Warn(RepeatedOutcome(2, 2), None)))
      && VerdictAt(config, ops, 2) == OfOutcome(Some(Block(RepeatedOutcome(3, 3))))
  {
    hide VerdictAt, Length, LastPrune, StrikesAt;
    var config := GuardConfig(true, 3, 5, 30, 3, 3, 2, 3, 200);
    RepeatedOutcomeVerdict(config, ops, outcome, 1);
    RepeatedOutcomeVerdict(config, ops, outcome, 2);
    RepeatedOutcomeVerdict(config, ops, outcome, 3);
    LengthClosedForm(200, 1);
    LengthClosedForm(200, 2);
    LengthClosedForm(200, 3);
    StrikesBeforePrune(200, 3, 3);
  }

  /** A window of one is too small for the default outcome thresholds, too: the guard warns for ever. */
  lemma SmallWindowNeverBlocksOutcomes(ops: seq<GuardOp>, outcome: Hash, i: nat)
    requires i < |ops| && RepeatsOutcome(ops, outcome)
    ensures VerdictAt(GuardConfig(true, 3, 5, 30, 3, 3, 2, 3, 1), ops, i)
      in {OfOutcome(None), OfOutcome(Some(Warn(RepeatedOutcome(2, 2), None)))}
  {
    hide VerdictAt, Length, LastPrune, StrikesAt;
    var config := GuardConfig(true, 3, 5, 30, 3, 3, 2, 3, 1);
    RepeatedOutcomeVerdict(config, ops, outcome, i + 1);
    LengthBounds(1, i + 1);
  }
}
