/** The loop guard over the rounds of one run. */
module GuardedRounds {
  import opened Bytes
  import opened Messages
  import opened LoopGuards
  import opened Periodicity
  import opened ToolLoop
  import GuardWindow
  import GuardRuns
  import Utf8

  /** The call an outcome is attributed to: for repeated ids the last one. */
  function CallFor(calls: seq<ToolCall>, id: Text, n: nat): Option<ToolCall>
    requires n <= |calls|
  {
    if n == 0 then None else if calls[n - 1].id == id then Some(calls[n - 1]) else CallFor(calls, id, n - 1)
  }

  ghost predicate MapsCalls(callMap: map<Text, ToolCall>, calls: seq<ToolCall>, n: nat)
    requires n <= |calls|
  {
    forall id :: (id in callMap <==> CallFor(calls, id, n).Some?) && (id in callMap ==>
      CallFor(calls, id, n) == Some(callMap[id]))
  }

  /** The guard state, the notes and the stop flag after the outcomes from position i on. */
  ghost function OutcomesFrom(world: World, config: GuardConfig, st: GuardState, calls: seq<ToolCall>,
                              results: seq<Text>, i: nat)
    : (GuardState, seq<Text>, bool)
    requires i <= |results| == |calls|
    decreases |results| - i
  {
    if i == |results| then (st, [], false)
    else
      match CallFor(calls, calls[i].id, |calls|)
      case None => OutcomesFrom(world, config, st, calls, results, i + 1)
      case Some(call) =>
        var (st', response) :=
          OutcomeStep(config, st, world.outcomeHash(call.name, call.arguments, Utf8.Truncated(results[i], 1000)));
        if response.None? || response.value.Allow? then OutcomesFrom(world, config, st', calls, results, i + 1)
        else if response.value.Stops() then (st', [world.describe(response.value)], true)
        else
          AfterNotes([world.describe(response.value)], OutcomesFrom(world, config, st', calls, results, i + 1))
  }

  ghost function AfterNotes(notes: seq<Text>, rest: (GuardState, seq<Text>, bool)): (GuardState, seq<Text>, bool) {
    (rest.0, notes + rest.1, rest.2)
  }

  lemma {:induction false} OutcomesLeaveCalls(
    world: World, config: GuardConfig, st: GuardState, calls: seq<ToolCall>, results: seq<Text>, i: nat)
    requires i <= |results| == |calls|
    ensures OutcomesFrom(world, config, st, calls, results, i).0.calls == st.calls
    decreases |results| - i
  {
    if i < |results| {
      var call := CallFor(calls, calls[i].id, |calls|);
      if call.None? {
        OutcomesLeaveCalls(world, config, st, calls, results, i + 1);
      } else {
        var outcome := world.outcomeHash(call.value.name, call.value.arguments, Utf8.Truncated(results[i], 1000));
        OutcomesLeaveCalls(world, config, OutcomeStep(config, st, outcome).0, calls, results, i + 1);
      }
    }
  }

  lemma AfterNotesLaws(notes: seq<Text>, note: Text, rest: (GuardState, seq<Text>, bool))
    ensures AfterNotes([], rest) == rest
    ensures AfterNotes(notes, AfterNotes([note], rest)) == AfterNotes(notes + [note], rest)
    ensures AfterNotes(notes, (rest.0, [], rest.2)) == (rest.0, notes, rest.2)
  {
    assert [] + rest.1 == rest.1 && notes + [] == notes;
    assert notes + ([note] + rest.1) == (notes + [note]) + rest.1;
  }

  function BatchOf(world: World, calls: seq<ToolCall>): CallBatch {
    CallBatch(|calls|, world.hashBatch(calls), world.looksLikePoll(calls))
  }

  /** The guard's part of one round: its new state, what it notes, and whether it ends the loop. */
  ghost function GuardRound(config: GuardConfig, world: World, st: GuardState, calls: seq<ToolCall>, results: seq<Text>)
    : (GuardState, seq<Text>, Option<Exit>)
    requires |calls| == |results|
  {
    if !config.enabled then (st, [], None)
    else
      var (st1, action) := CheckStep(config, st, BatchOf(world, calls));
      var own := if action.Allow? then [] else [world.describe(action)];
      if action.Stops() then (st1, own, Some(GuardStopped))
      else
        var (st2, more, stop) := OutcomesFrom(world, config, st1, calls, results, 0);
        (st2, own + more, if stop then Some(OutcomesRepeated) else None)
  }

  /** The guard's state after the first n rounds of a run. */
  ghost function GuardAfter(config: GuardConfig, world: World, rounds: seq<Round>, n: nat): GuardState
    requires n <= |rounds| && AllWellFormed(rounds)
  {
    if n == 0 then FRESH
    else
      var st, r := GuardAfter(config, world, rounds, n - 1), rounds[n - 1];
      GuardRound(config, world, st, r.executed, r.results).0
  }

  /** The guard left exactly these notes in round k, and this verdict. */
  ghost predicate Judged(config: GuardConfig, world: World, rounds: seq<Round>, k: nat, exit: Option<Exit>)
    requires k < |rounds| && AllWellFormed(rounds)
  {
    var before, r := GuardAfter(config, world, rounds, k), rounds[k];
    var (st, notes, verdict) := GuardRound(config, world, before, r.executed, r.results);
    rounds[k].notes == notes && verdict == exit
  }

  /** The guard let the run go on after each of the first n rounds. */
  ghost predicate WentOn(config: GuardConfig, world: World, rounds: seq<Round>, n: nat)
    requires n <= |rounds| && AllWellFormed(rounds)
  {
    forall k :: 0 <= k < n ==> Judged(config, world, rounds, k, None)
  }

  lemma {:induction false} GuardAfterExtends(config: GuardConfig, world: World, rounds: seq<Round>, r: Round, n: nat)
    requires n <= |rounds| && AllWellFormed(rounds) && WellFormed(r)
    ensures AllWellFormed(rounds + [r])
    ensures GuardAfter(config, world, rounds + [r], n) == GuardAfter(config, world, rounds, n)
  {
    hide GuardRound;
    if n > 0 { GuardAfterExtends(config, world, rounds, r, n - 1); }
  }

  /** One more round: earlier verdicts stand, and its own is the guard's. */
  lemma GuardAdvances(config: GuardConfig, world: World, rounds: seq<Round>, r: Round)
    requires AllWellFormed(rounds) && WellFormed(r) && WentOn(config, world, rounds, |rounds|)
    ensures AllWellFormed(rounds + [r]) && WentOn(config, world, rounds + [r], |rounds|)
    ensures var before := GuardAfter(config, world, rounds, |rounds|);
      var (st, notes, exit) := GuardRound(config, world, before, r.executed, r.results);
      && GuardAfter(config, world, rounds + [r], |rounds| + 1) == st
      && (r.notes == notes ==> Judged(config, world, rounds + [r], |rounds|, exit))
      && (r.notes == notes && exit.None? ==> WentOn(config, world, rounds + [r], |rounds| + 1))
  {
    hide GuardRound;
    forall k | 0 <= k < |rounds| ensures Judged(config, world, rounds + [r], k, None) {
      assert Judged(config, world, rounds, k, None);
      GuardAfterExtends(config, world, rounds, r, k);
    }
    GuardAfterExtends(config, world, rounds, r, |rounds|);
  }

  // ---- A run that repeats one batch ----

  function RoundHashes(world: World, rounds: seq<Round>, n: nat): (r: seq<Hash>)
    requires n <= |rounds|
    ensures |r| == n
    ensures forall i :: 0 <= i < n ==> r[i] == world.hashBatch(rounds[i].executed)
  {
    if n == 0 then [] else RoundHashes(world, rounds, n - 1) + [world.hashBatch(rounds[n - 1].executed)]
  }

  lemma CheckPushes(config: GuardConfig, world: World, st: GuardState, calls: seq<ToolCall>, results: seq<Text>)
    requires config.enabled && 0 < |calls| == |results|
    ensures GuardRound(config, world, st, calls, results).0.calls
      == GuardWindow.Push(config.windowSize, st.calls, world.hashBatch(calls))
  {
    OutcomesLeaveCalls(world, config, CheckStep(config, st, BatchOf(world, calls)).0, calls, results, 0);
  }

  /** The guard's call window holds the batches of the rounds played. */
  lemma {:induction false} GuardSeesCalls(config: GuardConfig, world: World, rounds: seq<Round>, n: nat)
    requires config.enabled && n <= |rounds| && AllWellFormed(rounds)
    ensures GuardAfter(config, world, rounds, n).calls
      == GuardWindow.Pushed(config.windowSize, RoundHashes(world, rounds, n), n)
  {
    hide GuardRound;
    if n > 0 {
      GuardSeesCalls(config, world, rounds, n - 1);
      var r := rounds[n - 1];
      CheckPushes(config, world, GuardAfter(config, world, rounds, n - 1), r.executed, r.results);
      GuardRuns.PushedIgnoresLater(
        config.windowSize, RoundHashes(world, rounds, n - 1), world.hashBatch(r.executed), n - 1);
    }
  }

  /** The number of rounds after which a run that repeats one batch is over at the latest. */
  function LastRound(config: GuardConfig, poll: bool): nat {
    Max(1, Max(WarnLimit(config, poll), BlockLimit(config, poll)))
  }

  lemma RepeatedBatchMustStop(config: GuardConfig, world: World, rounds: seq<Round>, calls: seq<ToolCall>)
    requires config.enabled && AllWellFormed(rounds) && LastRound(config, world.looksLikePoll(calls)) <= |rounds|
    requires config.windowSize == 0 || LastRound(config, world.looksLikePoll(calls)) <= config.windowSize
    requires forall i :: 0 <= i < |rounds| ==> rounds[i].executed == calls
    ensures !Judged(config, world, rounds, LastRound(config, world.looksLikePoll(calls)) - 1, None)
  {
    hide OutcomesFrom, CheckStep, GuardRound, GuardWindow.Push, GuardWindow.Length, GuardWindow.LastPrune;
    var most := LastRound(config, world.looksLikePoll(calls));
    var before := GuardAfter(config, world, rounds, most - 1);
    var hashes := RoundHashes(world, rounds, most);
    GuardSeesCalls(config, world, rounds, most - 1);
    GuardRuns.PushedIgnoresLater(
      config.windowSize, RoundHashes(world, rounds, most - 1), world.hashBatch(calls), most - 1);
    var win := GuardWindow.Push(config.windowSize, before.calls, world.hashBatch(calls));
    assert win == GuardWindow.Pushed(config.windowSize, hashes, most);
    GuardRuns.RepeatedWindow(config.windowSize, hashes, world.hashBatch(calls));
    GuardRuns.UniformNeverOscillates(win.items, world.hashBatch(calls), config.pingPongMinRepeats);
    GuardWindow.LengthClosedForm(config.windowSize, most);
    PastBothStops(config, before, BatchOf(world, calls));
    StoppedIsJudged(config, world, before, rounds[most - 1]);
  }

  /** A count past both thresholds, without an oscillation, stops the run. */
  lemma PastBothStops(config: GuardConfig, st: GuardState, batch: CallBatch)
    requires config.enabled && batch.size > 0
    requires var win := GuardWindow.Push(config.windowSize, st.calls, batch.hash);
      && PingPongPeriod(config, win.items).None?
      && GuardWindow.CountIn(win.counts, batch.hash) >= WarnLimit(config, batch.poll)
      && GuardWindow.CountIn(win.counts, batch.hash) >= BlockLimit(config, batch.poll)
    ensures CheckStep(config, st, batch).1.Stops()
  {
    hide GuardWindow.Push, PingPongPeriod, GuardWindow.CountIn;
  }

  lemma StoppedIsJudged(config: GuardConfig, world: World, st: GuardState, r: Round)
    requires config.enabled && WellFormed(r) && CheckStep(config, st, BatchOf(world, r.executed)).1.Stops()
    ensures GuardRound(config, world, st, r.executed, r.results).2.Some?
  {
    hide CheckStep;
  }

  /**
   * A run that repeats one batch is over after as many rounds as the larger threshold, if the
   * window reaches that far.
   */
  lemma RepeatingRunIsShort(config: GuardConfig, world: World, rounds: seq<Round>, calls: seq<ToolCall>)
    requires config.enabled && AllWellFormed(rounds) && forall i :: 0 <= i < |rounds| ==> rounds[i].executed == calls
    requires rounds != [] ==> WentOn(config, world, rounds, |rounds| - 1)
    requires config.windowSize == 0 || LastRound(config, world.looksLikePoll(calls)) <= config.windowSize
    ensures |rounds| <= LastRound(config, world.looksLikePoll(calls))
  {
    if |rounds| > LastRound(config, world.looksLikePoll(calls)) {
      RepeatedBatchMustStop(config, world, rounds, calls);
    }
  }

  // ---- A run that repeats one outcome ----

  /** The last of the first n calls with this id. */
  function LastWithId(calls: seq<ToolCall>, id: Text, n: nat): (j: nat)
    requires n <= |calls| && exists i :: 0 <= i < n && calls[i].id == id
    ensures j < n && calls[j].id == id && forall k :: j < k < n ==> calls[k].id != id
  {
    if calls[n - 1].id == id then n - 1 else LastWithId(calls, id, n - 1)
  }

  lemma {:induction false} OutcomesAreOfLastCalls(calls: seq<ToolCall>, i: nat, n: nat)
    requires i < n <= |calls|
    ensures CallFor(calls, calls[i].id, n) == Some(calls[LastWithId(calls, calls[i].id, n)])
  {
    if calls[n - 1].id != calls[i].id { OutcomesAreOfLastCalls(calls, i, n - 1); }
  }

  /** What the guard records for result i: the digest of the last call with its id and of the result's first bytes. */
  function OutcomeAt(world: World, r: Round, i: nat): Hash
    requires i < |r.executed| == |r.results|
  {
    var call := r.executed[LastWithId(r.executed, r.executed[i].id, |r.executed|)];
    world.outcomeHash(call.name, call.arguments, Utf8.Truncated(r.results[i], 1000))
  }

  function RoundOutcomes(world: World, r: Round): seq<Hash>
    requires WellFormed(r)
  {
    seq(|r.results|, i requires 0 <= i < |r.results| => OutcomeAt(world, r, i))
  }

  /** The outcomes of the first n rounds. */
  function Outcomes(world: World, rounds: seq<Round>, n: nat): seq<Hash>
    requires n <= |rounds| && AllWellFormed(rounds)
  {
    if n == 0 then [] else Outcomes(world, rounds, n - 1) + RoundOutcomes(world, rounds[n - 1])
  }

  /** The window after all of these hashes. */
  function WindowOf(limit: nat, hashes: seq<Hash>): GuardWindow.Window { GuardWindow.Pushed(limit, hashes, |hashes|) }

  lemma OneMoreInWindow(limit: nat, hashes: seq<Hash>, h: Hash)
    ensures WindowOf(limit, hashes + [h]) == GuardWindow.Push(limit, WindowOf(limit, hashes), h)
  {
    hide GuardWindow.Push;
    GuardRuns.PushedIgnoresLater(limit, hashes, h, |hashes|);
  }

  lemma OutcomeIsPushed(config: GuardConfig, st: GuardState, outcome: Hash)
    requires config.enabled
    ensures OutcomeStep(config, st, outcome).0.outcomes == GuardWindow.Push(config.windowSize, st.outcomes, outcome)
  {
    hide GuardWindow.Push;
  }

  /** Unless they stop the run, all outcomes of a round are recorded. */
  lemma {:induction false} OutcomesArePushed(world: World, config: GuardConfig, st: GuardState, r: Round, i: nat,
                                             before: seq<Hash>)
    requires config.enabled && WellFormed(r) && i <= |r.results|
    requires st.outcomes == WindowOf(config.windowSize, before + RoundOutcomes(world, r)[..i])
    requires !OutcomesFrom(world, config, st, r.executed, r.results, i).2
    ensures OutcomesFrom(world, config, st, r.executed, r.results, i).0.outcomes
      == WindowOf(config.windowSize, before + RoundOutcomes(world, r))
    decreases |r.results| - i
  {
    hide OutcomeStep, WindowOf, CallFor;
    var hashes := RoundOutcomes(world, r);
    if i == |r.results| {
      assert hashes[..i] == hashes;
    } else {
      OutcomesAreOfLastCalls(r.executed, i, |r.executed|);
      var outcome := OutcomeAt(world, r, i);
      OutcomeIsPushed(config, st, outcome);
      OneMoreInWindow(config.windowSize, before + hashes[..i], outcome);
      assert before + hashes[..i + 1] == before + hashes[..i] + [outcome];
      OutcomesArePushed(world, config, OutcomeStep(config, st, outcome).0, r, i + 1, before);
    }
  }

  lemma CheckLeavesOutcomes(config: GuardConfig, st: GuardState, batch: CallBatch)
    ensures CheckStep(config, st, batch).0.outcomes == st.outcomes
  {
    hide GuardWindow.Push, PingPongPeriod, GuardWindow.CountIn;
  }

  lemma RoundPushesOutcomes(config: GuardConfig, world: World, st: GuardState, r: Round, before: seq<Hash>)
    requires config.enabled && WellFormed(r) && st.outcomes == WindowOf(config.windowSize, before)
    requires GuardRound(config, world, st, r.executed, r.results).2.None?
    ensures GuardRound(config, world, st, r.executed, r.results).0.outcomes
      == WindowOf(config.windowSize, before + RoundOutcomes(world, r))
  {
    hide OutcomesFrom, CheckStep, WindowOf;
    var st1 := CheckStep(config, st, BatchOf(world, r.executed)).0;
    CheckLeavesOutcomes(config, st, BatchOf(world, r.executed));
    assert before + RoundOutcomes(world, r)[..0] == before;
    OutcomesArePushed(world, config, st1, r, 0, before);
  }

  /** While the run goes on, the guard's outcome window holds the outcomes of all rounds played. */
  lemma {:induction false} GuardSeesOutcomes(config: GuardConfig, world: World, rounds: seq<Round>, n: nat)
    requires config.enabled && n <= |rounds| && AllWellFormed(rounds) && WentOn(config, world, rounds, n)
    ensures GuardAfter(config, world, rounds, n).outcomes
      == GuardWindow.Pushed(config.windowSize, Outcomes(world, rounds, n), |Outcomes(world, rounds, n)|)
  {
    hide GuardRound, RoundOutcomes;
    if n > 0 {
      GuardSeesOutcomes(config, world, rounds, n - 1);
      assert Judged(config, world, rounds, n - 1, None);
      RoundPushesOutcomes(config, world, GuardAfter(config, world, rounds, n - 1), rounds[n - 1],
                          Outcomes(world, rounds, n - 1));
    }
  }

  lemma {:induction false} SameOutcomes(world: World, rounds: seq<Round>, call: ToolCall, result: Text, n: nat)
    requires n <= |rounds| && AllWellFormed(rounds)
    requires forall i :: 0 <= i < |rounds| ==> rounds[i].executed == [call] && rounds[i].results == [result]
    ensures |Outcomes(world, rounds, n)| == n
    ensures forall i :: 0 <= i < n ==>
      Outcomes(world, rounds, n)[i] == world.outcomeHash(call.name, call.arguments, Utf8.Truncated(result, 1000))
  {
    if n > 0 { SameOutcomes(world, rounds, call, result, n - 1); }
  }

  /** A count past the block threshold of outcomes stops the run, if the calls did not already. */
  lemma OutcomeStopsRound(config: GuardConfig, world: World, st: GuardState, r: Round)
    requires config.enabled && WellFormed(r) && |r.executed| == 1
    requires var win := GuardWindow.Push(config.windowSize, st.outcomes, OutcomeAt(world, r, 0));
      GuardWindow.CountIn(win.counts, OutcomeAt(world, r, 0)) >= config.outcomeBlockThreshold
    ensures GuardRound(config, world, st, r.executed, r.results).2.Some?
  {
    hide GuardWindow.Push, GuardWindow.CountIn, CheckStep;
    CheckLeavesOutcomes(config, st, BatchOf(world, r.executed));
    OutcomesAreOfLastCalls(r.executed, 0, 1);
    var st1 := CheckStep(config, st, BatchOf(world, r.executed)).0;
    assert OutcomeStep(config, st1, OutcomeAt(world, r, 0)).1.value.Stops();
    assert OutcomesFrom(world, config, st1, r.executed, r.results, 0).2;
  }

  lemma RepeatedOutcomeMustStop(config: GuardConfig, world: World, rounds: seq<Round>, call: ToolCall, result: Text,
                                most: nat)
    requires config.enabled && AllWellFormed(rounds) && 0 < most <= |rounds| && config.outcomeBlockThreshold <= most
    requires forall i :: 0 <= i < |rounds| ==> rounds[i].executed == [call] && rounds[i].results == [result]
    requires config.windowSize == 0 || most <= config.windowSize
    requires WentOn(config, world, rounds, most - 1)
    ensures !Judged(config, world, rounds, most - 1, None)
  {
    hide GuardRound, GuardWindow.Push, GuardWindow.Length, GuardWindow.LastPrune;
    var outcome := OutcomeAt(world, rounds[most - 1], 0);
    var before, hashes := Outcomes(world, rounds, most - 1), Outcomes(world, rounds, most);
    GuardSeesOutcomes(config, world, rounds, most - 1);
    SameOutcomes(world, rounds, call, result, most);
    assert hashes == before + [outcome];
    OneMoreInWindow(config.windowSize, before, outcome);
    GuardRuns.RepeatedWindow(config.windowSize, hashes, outcome);
    GuardWindow.LengthClosedForm(config.windowSize, most);
    OutcomeStopsRound(config, world, GuardAfter(config, world, rounds, most - 1), rounds[most - 1]);
  }

  /**
   * A run that repeats one call and gets one result is over after as many rounds as the block threshold of
   * outcomes, if the window reaches that far.
   */
  lemma RepeatedOutcomeRunIsShort(config: GuardConfig, world: World, rounds: seq<Round>, call: ToolCall, result: Text)
    requires config.enabled && AllWellFormed(rounds)
    requires forall i :: 0 <= i < |rounds| ==> rounds[i].executed == [call] && rounds[i].results == [result]
    requires rounds != [] ==> WentOn(config, world, rounds, |rounds| - 1)
    requires config.windowSize == 0 || Max(1, config.outcomeBlockThreshold) <= config.windowSize
    ensures |rounds| <= Max(1, config.outcomeBlockThreshold)
  {
    if |rounds| > Max(1, config.outcomeBlockThreshold) {
      RepeatedOutcomeMustStop(config, world, rounds, call, result, Max(1, config.outcomeBlockThreshold));
    }
  }

  // ---- What the guard says about it ----

  /** What the guard answers to the n-th repetition of a call ... */
  function CallResponse(config: GuardConfig, poll: bool, n: nat): Option<GuardAction> {
    var multiplier := if poll then config.pollMultiplier else 1;
    var warnAt, blockAt := config.warnThreshold * multiplier, config.blockThreshold * multiplier;
    if n < warnAt then None
    else if n >= blockAt then Some(Block(RepeatedCall(n, blockAt)))
    else Some(Warn(RepeatedCall(n, warnAt), if poll then Some(BackoffDelay(n, warnAt)) else None))
  }

  /** ... and of its result. */
  function ResultResponse(config: GuardConfig, n: nat): Option<GuardAction> {
    if n >= config.outcomeBlockThreshold then Some(Block(RepeatedOutcome(n, config.outcomeBlockThreshold)))
    else if n >= config.outcomeWarnThreshold then Some(Warn(RepeatedOutcome(n, config.outcomeWarnThreshold), None))
    else None
  }

  function NoteOf(world: World, response: Option<GuardAction>): seq<Text> {
    if response.Some? then [world.describe(response.value)] else []
  }

  lemma StrikesOfRound(config: GuardConfig, world: World, st: GuardState, r: Round)
    requires WellFormed(r) && |r.executed| == 1
    ensures GuardRound(config, world, st, r.executed, r.results).0.totalRepetitions <= st.totalRepetitions + 2
  {
    OutcomesAreOfLastCalls(r.executed, 0, 1);
    hide GuardWindow.Push, GuardWindow.CountIn, PingPongPeriod, BackoffDelay, WarnLimit, BlockLimit;
    var (st1, action) := CheckStep(config, st, BatchOf(world, r.executed));
    assert st1.totalRepetitions <= st.totalRepetitions + 1;
    hide CheckStep;
    if config.enabled && !action.Stops() {
      var (st2, response) := OutcomeStep(config, st1, OutcomeAt(world, r, 0));
      assert st2.totalRepetitions <= st1.totalRepetitions + 1;
      assert OutcomesFrom(world, config, st1, r.executed, r.results, 0).0 == st2;
    }
  }

  lemma {:induction false} StrikesOfRounds(config: GuardConfig, world: World, rounds: seq<Round>, n: nat)
    requires n <= |rounds| && AllWellFormed(rounds) && forall i :: 0 <= i < |rounds| ==> |rounds[i].executed| == 1
    ensures GuardAfter(config, world, rounds, n).totalRepetitions <= 2 * n
  {
    hide GuardRound;
    if n > 0 {
      StrikesOfRounds(config, world, rounds, n - 1);
      StrikesOfRound(config, world, GuardAfter(config, world, rounds, n - 1), rounds[n - 1]);
    }
  }

  lemma CallIsJudged(config: GuardConfig, st: GuardState, batch: CallBatch, n: nat)
    requires config.enabled && batch.size > 0 && st.totalRepetitions + 1 < config.globalCircuitBreaker
    requires var win := GuardWindow.Push(config.windowSize, st.calls, batch.hash);
      PingPongPeriod(config, win.items).None? && GuardWindow.CountIn(win.counts, batch.hash) == n
    ensures var (st', action) := CheckStep(config, st, batch);
      && st'.totalRepetitions <= st.totalRepetitions + 1
      && action == match CallResponse(config, batch.poll, n) case None => Allow case Some(response) => response
  {
    hide GuardWindow.Push, PingPongPeriod, GuardWindow.CountIn, BackoffDelay;
  }

  lemma ResultIsJudged(config: GuardConfig, st: GuardState, outcome: Hash, n: nat)
    requires config.enabled && st.totalRepetitions + 1 < config.globalCircuitBreaker
    requires GuardWindow.CountIn(GuardWindow.Push(config.windowSize, st.outcomes, outcome).counts, outcome) == n
    ensures OutcomeStep(config, st, outcome).1 == ResultResponse(config, n)
  {
    hide GuardWindow.Push, GuardWindow.CountIn;
  }

  lemma SingleRoundIsJudged(config: GuardConfig, world: World, st: GuardState, r: Round, n: nat)
    requires config.enabled && WellFormed(r) && |r.executed| == 1
    requires st.totalRepetitions + 2 < config.globalCircuitBreaker
    requires var batch := BatchOf(world, r.executed);
      var win := GuardWindow.Push(config.windowSize, st.calls, batch.hash);
      PingPongPeriod(config, win.items).None? && GuardWindow.CountIn(win.counts, batch.hash) == n
    requires var outcome := OutcomeAt(world, r, 0);
      GuardWindow.CountIn(GuardWindow.Push(config.windowSize, st.outcomes, outcome).counts, outcome) == n
    ensures IsJudgedAs(config, world, st, r, n)
  {
    hide GuardWindow.Push, GuardWindow.CountIn, PingPongPeriod, CheckStep, OutcomeStep, CallResponse, ResultResponse;
    var batch := BatchOf(world, r.executed);
    CallIsJudged(config, st, batch, n);
    CheckLeavesOutcomes(config, st, batch);
    OutcomesAreOfLastCalls(r.executed, 0, 1);
    var st1 := CheckStep(config, st, batch).0;
    ResultIsJudged(config, st1, OutcomeAt(world, r, 0), n);
    ResponsesAreReal(config, batch.poll, n);
    var (st2, more, stop) := OutcomesFrom(world, config, st1, r.executed, r.results, 0);
    assert OutcomesFrom(world, config, OutcomeStep(config, st1, OutcomeAt(world, r, 0)).0, r.executed, r.results, 1)
      == (OutcomeStep(config, st1, OutcomeAt(world, r, 0)).0, [], false);
    assert more == NoteOf(world, ResultResponse(config, n));
  }

  lemma ResponsesAreReal(config: GuardConfig, poll: bool, n: nat)
    ensures CallResponse(config, poll, n).Some? ==>
      CallResponse(config, poll, n).value.Warn? || CallResponse(config, poll, n).value.Block?
    ensures ResultResponse(config, n).Some? ==>
      ResultResponse(config, n).value.Warn? || ResultResponse(config, n).value.Block?
  {
  }

  /** The notes are the two answers, and the run ends on the first that blocks; after that one there is no other. */
  ghost predicate IsJudgedAs(config: GuardConfig, world: World, st: GuardState, r: Round, n: nat)
    requires WellFormed(r)
  {
    var (_, notes, exit) := GuardRound(config, world, st, r.executed, r.results);
    var ofCall := CallResponse(config, world.looksLikePoll(r.executed), n);
    var ofResult := ResultResponse(config, n);
    if ofCall.Some? && ofCall.value.Block? then notes == NoteOf(world, ofCall) && exit == Some(GuardStopped)
    else
      && notes == NoteOf(world, ofCall) + NoteOf(world, ofResult)
      && exit == if ofResult.Some? && ofResult.value.Block? then Some(OutcomesRepeated) else None
  }

  lemma RepeatedCounts(config: GuardConfig, world: World, rounds: seq<Round>, call: ToolCall, result: Text, k: nat)
    requires config.enabled && AllWellFormed(rounds) && k < |rounds| && WentOn(config, world, rounds, k)
    requires forall i :: 0 <= i < |rounds| ==> rounds[i].executed == [call] && rounds[i].results == [result]
    requires config.windowSize == 0 || k + 1 <= config.windowSize
    ensures var st, hash := GuardAfter(config, world, rounds, k), world.hashBatch([call]);
      var calls := GuardWindow.Push(config.windowSize, st.calls, hash);
      PingPongPeriod(config, calls.items).None? && GuardWindow.CountIn(calls.counts, hash) == k + 1
    ensures var st, outcome := GuardAfter(config, world, rounds, k), OutcomeAt(world, rounds[k], 0);
      var outcomes := GuardWindow.Push(config.windowSize, st.outcomes, outcome);
      GuardWindow.CountIn(outcomes.counts, outcome) == k + 1
  {
    hide GuardRound, GuardWindow.Push, GuardWindow.Length, GuardWindow.LastPrune;
    var limit, hash := config.windowSize, world.hashBatch([call]);
    GuardWindow.LengthClosedForm(limit, k + 1);
    GuardSeesCalls(config, world, rounds, k);
    OneMoreInWindow(limit, RoundHashes(world, rounds, k), hash);
    GuardRuns.RepeatedWindow(limit, RoundHashes(world, rounds, k) + [hash], hash);
    GuardRuns.UniformNeverOscillates(
      WindowOf(limit, RoundHashes(world, rounds, k) + [hash]).items, hash, config.pingPongMinRepeats);
    var outcome := OutcomeAt(world, rounds[k], 0);
    GuardSeesOutcomes(config, world, rounds, k);
    SameOutcomes(world, rounds, call, result, k);
    OneMoreInWindow(limit, Outcomes(world, rounds, k), outcome);
    GuardRuns.RepeatedWindow(limit, Outcomes(world, rounds, k) + [outcome], outcome);
  }

  /**
   * A run that repeats one call and gets one result, round by round, short of the breaker: the guard notes
   * the warnings for the call and for its result, and ends the run on the first block.
   */
  lemma RepeatedRoundIsJudged(config: GuardConfig, world: World, rounds: seq<Round>, call: ToolCall, result: Text,
                              k: nat)
    requires config.enabled && AllWellFormed(rounds) && k < |rounds| && WentOn(config, world, rounds, k)
    requires forall i :: 0 <= i < |rounds| ==> rounds[i].executed == [call] && rounds[i].results == [result]
    requires config.windowSize == 0 || k + 1 <= config.windowSize
    requires 2 * (k + 1) < config.globalCircuitBreaker
    ensures IsJudgedAs(config, world, GuardAfter(config, world, rounds, k), rounds[k], k + 1)
  {
    hide GuardRound, GuardWindow.Push, GuardWindow.CountIn, IsJudgedAs, OutcomeAt;
    RepeatedCounts(config, world, rounds, call, result, k);
    StrikesOfRounds(config, world, rounds, k);
    SingleRoundIsJudged(config, world, GuardAfter(config, world, rounds, k), rounds[k], k + 1);
  }

  /**
   * With the default settings such a run is warned about its result after the second round, and ends with
   * the third, whose notes warn about the call and block the result.
   */
  lemma DefaultRepeatedRun(world: World, rounds: seq<Round>, call: ToolCall, result: Text, exit: Option<Exit>)
    requires AllWellFormed(rounds) && |rounds| == 3 && !world.looksLikePoll([call])
    requires forall i :: 0 <= i < |rounds| ==> rounds[i].executed == [call] && rounds[i].results == [result]
    requires var config := GuardConfig(true, 3, 5, 30, 3, 3, 2, 3, 200);
      WentOn(config, world, rounds, 2) && Judged(config, world, rounds, 2, exit)
    ensures rounds[0].notes == []
    ensures rounds[1].notes == [world.describe(Warn(RepeatedOutcome(2, 2), None))]
    ensures rounds[2].notes
      == [world.describe(Warn(RepeatedCall(3, 3), None)), world.describe(Block(RepeatedOutcome(3, 3)))]
    ensures exit == Some(OutcomesRepeated)
  {
    hide GuardRound, GuardAfter, OutcomeAt;
    var config := GuardConfig(true, 3, 5, 30, 3, 3, 2, 3, 200);
    RepeatedRoundIsJudged(config, world, rounds, call, result, 0);
    RepeatedRoundIsJudged(config, world, rounds, call, result, 1);
    RepeatedRoundIsJudged(config, world, rounds, call, result, 2);
    assert Judged(config, world, rounds, 0, None) && Judged(config, world, rounds, 1, None);
  }

  // ---- The rounds as one run of the guard ----

  /** What a round asks of the guard: one check, then one outcome for each result. */
  function RoundOps(world: World, r: Round): seq<GuardRuns.GuardOp>
    requires WellFormed(r)
  {
    [GuardRuns.CheckOp(BatchOf(world, r.executed))] + OutcomeOps(world, r)
  }

  function OutcomeOps(world: World, r: Round): seq<GuardRuns.GuardOp>
    requires WellFormed(r)
  {
    seq(|r.results|, i requires 0 <= i < |r.results| => GuardRuns.OutcomeOp(OutcomeAt(world, r, i)))
  }

  function Ops(world: World, rounds: seq<Round>, n: nat): seq<GuardRuns.GuardOp>
    requires n <= |rounds| && AllWellFormed(rounds)
  {
    if n == 0 then [] else Ops(world, rounds, n - 1) + RoundOps(world, rounds[n - 1])
  }

  /** The response that is noted, if any. */
  function Noted(v: GuardRuns.Verdict): Option<GuardAction> {
    match v
    case OfCheck(action) => if action.Allow? then None else Some(action)
    case OfOutcome(response) => if response == Some(Allow) then None else response
  }

  /** The notes on the verdicts from position lo on, up to the one before hi. */
  ghost function NotesOn(config: GuardConfig, world: World, ops: seq<GuardRuns.GuardOp>, lo: nat, hi: nat): seq<Text>
    requires lo <= hi <= |ops|
    decreases hi
  {
    if lo == hi then []
    else NotesOn(config, world, ops, lo, hi - 1) + NoteOf(world, Noted(GuardRuns.VerdictAt(config, ops, hi - 1)))
  }

  lemma {:induction false} StatesStand(config: GuardConfig, ops: seq<GuardRuns.GuardOp>,
                                       more: seq<GuardRuns.GuardOp>, n: nat)
    requires n <= |ops|
    ensures GuardRuns.StateAfter(config, ops + more, n) == GuardRuns.StateAfter(config, ops, n)
  {
    if n > 0 { StatesStand(config, ops, more, n - 1); }
  }

  /** One step of the run, and what is noted about it. */
  lemma StepIsNoted(config: GuardConfig, world: World, ops: seq<GuardRuns.GuardOp>, lo: nat, at: nat)
    requires lo <= at < |ops|
    ensures var (st, v) := GuardRuns.OpStep(config, GuardRuns.StateAfter(config, ops, at), ops[at]);
      && GuardRuns.StateAfter(config, ops, at + 1) == st
      && NotesOn(config, world, ops, lo, at + 1) == NotesOn(config, world, ops, lo, at) + NoteOf(world, Noted(v))
      && NotesOn(config, world, ops, lo, lo) == []
  {
    hide GuardRuns.OpStep, NoteOf, Noted;
  }

  /** The outcomes of a round that goes on, from position i on, as steps of the run. */
  lemma {:induction false} OutcomesAreSteps(config: GuardConfig, world: World, before: seq<GuardRuns.GuardOp>,
                                            r: Round, i: nat, start: nat)
    requires config.enabled && WellFormed(r) && i <= |r.results| && start <= |before|
    requires var st := GuardRuns.StateAfter(config, before + OutcomeOps(world, r), |before| + i);
      !OutcomesFrom(world, config, st, r.executed, r.results, i).2
    ensures var ops := before + OutcomeOps(world, r);
      var (st, notes, _) :=
        OutcomesFrom(world, config, GuardRuns.StateAfter(config, ops, |before| + i), r.executed, r.results, i);
      && st == GuardRuns.StateAfter(config, ops, |ops|)
      && NotesOn(config, world, ops, start, |before| + i) + notes == NotesOn(config, world, ops, start, |ops|)
    decreases |r.results| - i
  {
    hide OutcomeStep, CallFor, GuardRuns.StateAfter, NotesOn;
    var ops := before + OutcomeOps(world, r);
    if i < |r.results| {
      OutcomesAreOfLastCalls(r.executed, i, |r.executed|);
      assert ops[|before| + i] == GuardRuns.OutcomeOp(OutcomeAt(world, r, i));
      hide OutcomeAt, OutcomeOps;
      StepIsNoted(config, world, ops, start, |before| + i);
      OutcomesAreSteps(config, world, before, r, i + 1, start);
    }
  }

  /** A round that goes on is this piece of the run, and its notes are those on its verdicts. */
  lemma RoundIsRun(config: GuardConfig, world: World, before: seq<GuardRuns.GuardOp>, r: Round)
    requires config.enabled && WellFormed(r)
    requires GuardRound(config, world, GuardRuns.StateAfter(config, before, |before|), r.executed, r.results).2.None?
    ensures var ops := before + RoundOps(world, r);
      var (st, notes, _) :=
        GuardRound(config, world, GuardRuns.StateAfter(config, before, |before|), r.executed, r.results);
      st == GuardRuns.StateAfter(config, ops, |ops|) && notes == NotesOn(config, world, ops, |before|, |ops|)
  {
    hide CheckStep, OutcomesFrom, GuardRuns.StateAfter, NotesOn, OutcomeOps;
    var check := GuardRuns.CheckOp(BatchOf(world, r.executed));
    var checked, ops := before + [check], before + RoundOps(world, r);
    assert ops == checked + OutcomeOps(world, r) && ops[|before|] == check;
    StatesStand(config, before, RoundOps(world, r), |before|);
    hide RoundOps;
    StepIsNoted(config, world, ops, |before|, |before|);
    OutcomesAreSteps(config, world, checked, r, 0, |before|);
  }

  /**
   * The rounds of a run are one run of the guard: while it goes on, its state is that after the checks and
   * outcomes of all rounds, and each round carries the notes on its own verdicts.
   */
  lemma {:induction false} RoundsAreOneRun(config: GuardConfig, world: World, rounds: seq<Round>, n: nat)
    requires config.enabled && n <= |rounds| && AllWellFormed(rounds) && WentOn(config, world, rounds, n)
    ensures GuardAfter(config, world, rounds, n)
      == GuardRuns.StateAfter(config, Ops(world, rounds, n), |Ops(world, rounds, n)|)
    ensures n > 0 ==>
      && |Ops(world, rounds, n - 1)| <= |Ops(world, rounds, n)|
      && rounds[n - 1].notes
         == NotesOn(config, world, Ops(world, rounds, n), |Ops(world, rounds, n - 1)|, |Ops(world, rounds, n)|)
  {
    hide GuardRound, RoundOps, NotesOn;
    if n > 0 {
      RoundsAreOneRun(config, world, rounds, n - 1);
      assert Judged(config, world, rounds, n - 1, None);
      RoundIsRun(config, world, Ops(world, rounds, n - 1), rounds[n - 1]);
    }
  }
}
