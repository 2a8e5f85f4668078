/** The loop guard when three batches of calls take turns for ever. */
module GuardRotation {
  import opened Bytes
  import opened Periodicity
  import opened GuardWindow
  import opened LoopGuards
  import opened GuardRuns
  import GuardAlternation

  function Turn(batches: seq<CallBatch>, i: nat): CallBatch
    requires |batches| == 3
  {
    batches[i % 3]
  }

  ghost predicate Rotates(ops: seq<GuardOp>, batches: seq<CallBatch>)
    requires |batches| == 3
  {
    forall i :: 0 <= i < |ops| ==> ops[i] == CheckOp(Turn(batches, i))
  }

  /** Three different batches, all of them polls or none. */
  predicate Rivals(batches: seq<CallBatch>) {
    && |batches| == 3
    && (forall i, j :: 0 <= i < j < 3 ==> batches[i].hash != batches[j].hash)
    && (forall i :: 0 <= i < 3 ==> batches[i].size > 0 && batches[i].poll == batches[0].poll)
  }

  /** Three neighbours always differ, and the fourth is the first again. */
  ghost predicate Wheel(s: seq<Hash>) {
    && (forall i :: 1 <= i < |s| ==> s[i] != s[i - 1])
    && (forall i :: 2 <= i < |s| ==> s[i] != s[i - 2])
    && (forall i :: 3 <= i < |s| ==> s[i] == s[i - 3])
  }

  // ---- The window ----

  lemma {:induction false} WheelCount(s: seq<Hash>)
    requires s != [] && Wheel(s)
    ensures multiset(s)[s[|s| - 1]] == (|s| + 2) / 3
    decreases |s|
  {
    var n := |s|;
    if n == 1 {
      assert s == [s[0]];
    } else if n == 2 {
      assert s == [s[0], s[1]];
    } else {
      ThreeMore(s);
      if n > 3 { WheelCount(s[..n - 3]); }
    }
  }

  lemma ThreeMore(s: seq<Hash>)
    requires |s| >= 3 && Wheel(s)
    ensures Wheel(s[..|s| - 3]) && multiset(s)[s[|s| - 1]] == multiset(s[..|s| - 3])[s[|s| - 1]] + 1
  {
    var n := |s|;
    WheelPiece(s, 0, n - 3);
    assert s[..n - 3] == s[0..n - 3];
    assert s[n - 3] != s[n - 1] && s[n - 2] != s[n - 1];
    hide Wheel;
    CountBehind(s[..n - 3], s[n - 3], s[n - 2], s[n - 1]);
    assert s == s[..n - 3] + [s[n - 3], s[n - 2], s[n - 1]];
  }

  lemma CountBehind(s: seq<Hash>, a: Hash, b: Hash, c: Hash)
    requires a != c && b != c
    ensures multiset(s + [a, b, c])[c] == multiset(s)[c] + 1
  {
  }

  lemma {:induction false} WheelTurns(s: seq<Hash>, i: nat, j: nat)
    requires Wheel(s) && i <= j < |s|
    ensures s[i] == s[j] <==> (j - i) % 3 == 0
    decreases j - i
  {
    if j - i >= 3 { WheelTurns(s, i, j - 3); }
  }

  lemma WheelPiece(s: seq<Hash>, lo: nat, hi: nat)
    requires Wheel(s) && lo <= hi <= |s|
    ensures Wheel(s[lo..hi])
  {
  }

  /** A single repeat mistakes any two different hashes for an oscillation; otherwise the period found is 3. */
  function WheelPeriod(length: nat, repeats: nat): Option<nat> {
    if repeats == 1 && 2 <= length then Some(2)
    else if repeats >= 2 && 3 * repeats <= length then Some(3)
    else None
  }

  lemma ShortTail(s: seq<Hash>, repeats: nat)
    requires Wheel(s)
    ensures Oscillates(s, 2, repeats) <==> repeats == 1 && 2 <= |s|
  {
    if repeats >= 1 && 2 * repeats <= |s| {
      var tail := Tail(s, 2 * repeats);
      var at := |s| - 2 * repeats;
      assert tail[0] == s[at] && tail[1] == s[at + 1] && s[at + 1] != s[at];
      assert !Uniform(tail);
      if repeats >= 2 {
        assert tail[2] == s[at + 2] && s[at + 2] != s[at];
        assert !RepeatsAt(tail, 2, 2);
      }
    }
  }

  lemma LongTail(s: seq<Hash>, repeats: nat)
    requires Wheel(s)
    ensures Oscillates(s, 3, repeats) <==> repeats > 0 && 3 * repeats <= |s|
  {
    if repeats > 0 && 3 * repeats <= |s| {
      var tail := Tail(s, 3 * repeats);
      var at := |s| - 3 * repeats;
      assert tail[0] == s[at] && tail[1] == s[at + 1] && s[at + 1] != s[at];
      forall j | 3 <= j < |tail| ensures RepeatsAt(tail, 3, j) { assert s[at + j] == s[at + j - 3]; }
    }
  }

  lemma WheelIsReported(s: seq<Hash>, repeats: nat)
    requires Wheel(s)
    ensures Reported(s, 2, 3, repeats) == WheelPeriod(|s|, repeats)
  {
    hide Wheel, Oscillates;
    ShortTail(s, repeats);
    LongTail(s, repeats);
  }

  /** The count compared with the thresholds at the n-th check. */
  function WheelCountAt(limit: nat, n: nat): nat {
    (Length(limit, n) + 2) / 3 + if LastPrune(limit, n) > 0 && (n - LastPrune(limit, n)) % 3 == 0 then 1 else 0
  }

  lemma PhantomShare(limit: nat, hashes: seq<Hash>)
    requires hashes != [] && Wheel(hashes)
    ensures var n, p := |hashes|, LastPrune(limit, |hashes|);
      p <= n && Phantom(limit, hashes, n)[hashes[n - 1]] == if p > 0 && (n - p) % 3 == 0 then 1 else 0
  {
    hide LastPrune, Wheel;
    LengthBounds(limit, |hashes|);
    var p := LastPrune(limit, |hashes|);
    if p > 0 { WheelTurns(hashes, p - 1, |hashes| - 1); }
  }

  lemma WheelItems(limit: nat, hashes: seq<Hash>)
    requires hashes != [] && Wheel(hashes)
    ensures var win := Pushed(limit, hashes, |hashes|);
      && Wheel(win.items) && |win.items| == Length(limit, |hashes|)
      && multiset(win.items)[hashes[|hashes| - 1]] == (Length(limit, |hashes|) + 2) / 3
  {
    hide Wheel, Length, LastPrune, Pushed, Phantom, Represents;
    var n := |hashes|;
    WindowExact(limit, hashes, n);
    WheelPiece(hashes, n - Length(limit, n), n);
    GuardAlternation.LastOfPiece(hashes, n - Length(limit, n));
    var items := Pushed(limit, hashes, n).items;
    if items != [] { WheelCount(items); }
  }

  lemma WheelWindow(limit: nat, hashes: seq<Hash>)
    requires hashes != [] && Wheel(hashes)
    ensures var win := Pushed(limit, hashes, |hashes|);
      && Wheel(win.items) && |win.items| == Length(limit, |hashes|)
      && CountIn(win.counts, hashes[|hashes| - 1]) == WheelCountAt(limit, |hashes|)
  {
    hide Wheel, Length, LastPrune, Phantom, Pushed, Represents, CountIn, Overflows, PushItem;
    var n := |hashes|;
    var win := Pushed(limit, hashes, n);
    WindowExact(limit, hashes, n);
    WheelItems(limit, hashes);
    PhantomShare(limit, hashes);
    GuardAlternation.CountOfSum(win.counts, multiset(win.items), Phantom(limit, hashes, n), hashes[n - 1]);
  }

  // ---- The responses ----

  function PeriodAt(config: GuardConfig, n: nat): Option<nat> {
    WheelPeriod(Length(config.windowSize, n), config.pingPongMinRepeats)
  }

  predicate IsStrike(config: GuardConfig, poll: bool, n: nat) {
    PeriodAt(config, n).Some? || WheelCountAt(config.windowSize, n) >= WarnLimit(config, poll)
  }

  function WheelStrikes(config: GuardConfig, poll: bool, n: nat): nat {
    if n == 0 then 0 else WheelStrikes(config, poll, n - 1) + if IsStrike(config, poll, n) then 1 else 0
  }

  function WheelResponse(config: GuardConfig, poll: bool, n: nat): GuardAction {
    var count, strikes := WheelCountAt(config.windowSize, n), WheelStrikes(config, poll, n);
    var warnAt, blockAt := WarnLimit(config, poll), BlockLimit(config, poll);
    if !IsStrike(config, poll, n) then Allow
    else if strikes >= config.globalCircuitBreaker then CircuitBreak(strikes)
    else if PeriodAt(config, n).Some? then
      Warn(PingPong(PeriodAt(config, n).value, config.pingPongMinRepeats), None)
    else if count >= blockAt then Block(RepeatedCall(count, blockAt))
    else Warn(RepeatedCall(count, warnAt), if poll then Some(BackoffDelay(count, warnAt)) else None)
  }

  lemma {:induction false} RotatingHashes(config: GuardConfig, ops: seq<GuardOp>, batches: seq<CallBatch>, n: nat)
    requires Rivals(batches) && n <= |ops| && Rotates(ops, batches) && config.enabled
    ensures |CallHashes(config, ops, n)| == n
    ensures forall i :: 0 <= i < n ==> CallHashes(config, ops, n)[i] == Turn(batches, i).hash
  {
    if n > 0 { RotatingHashes(config, ops, batches, n - 1); }
  }

  lemma RotationIsWheel(hashes: seq<Hash>, batches: seq<CallBatch>)
    requires Rivals(batches) && forall i :: 0 <= i < |hashes| ==> hashes[i] == Turn(batches, i).hash
    ensures Wheel(hashes)
  {
    forall i | 0 <= i < |hashes| ensures hashes[i] == batches[i % 3].hash {}
    hide Turn;
    forall i | 2 <= i < |hashes| ensures hashes[i] != hashes[i - 2] { assert i % 3 != (i - 2) % 3; }
    forall i | 1 <= i < |hashes| ensures hashes[i] != hashes[i - 1] { assert i % 3 != (i - 1) % 3; }
    forall i | 3 <= i < |hashes| ensures hashes[i] == hashes[i - 3] { assert i % 3 == (i - 3) % 3; }
  }

  lemma RotatingCheck(config: GuardConfig, ops: seq<GuardOp>, batches: seq<CallBatch>, n: nat)
    requires Rivals(batches) && 0 < n <= |ops| && Rotates(ops, batches) && config.enabled
    ensures var win := StateAfter(config, ops, n).calls;
      && PingPongPeriod(config, win.items) == PeriodAt(config, n)
      && CountIn(win.counts, ops[n - 1].batch.hash) == WheelCountAt(config.windowSize, n)
  {
    hide Length, LastPrune, StateAfter, CallHashes, Pushed, Wheel, WheelCountAt, CountIn, Reported, WheelPeriod;
    var hashes := CallHashes(config, ops, n);
    RotatingHashes(config, ops, batches, n);
    RotationIsWheel(hashes, batches);
    WindowsOfRun(config, ops, n);
    WheelWindow(config.windowSize, hashes);
    WheelIsReported(StateAfter(config, ops, n).calls.items, config.pingPongMinRepeats);
  }

  /** The n-th check of three batches that take turns, for every n. */
  lemma {:induction false} RotatingVerdict(config: GuardConfig, ops: seq<GuardOp>, batches: seq<CallBatch>, n: nat)
    requires Rivals(batches) && n <= |ops| && Rotates(ops, batches) && config.enabled
    ensures StateAfter(config, ops, n).totalRepetitions == WheelStrikes(config, batches[0].poll, n)
    ensures n > 0 ==> VerdictAt(config, ops, n - 1) == OfCheck(WheelResponse(config, batches[0].poll, n))
  {
    hide CheckStep, OutcomeStep, WheelCountAt, PeriodAt;
    if n > 0 {
      RotatingVerdict(config, ops, batches, n - 1);
      RotatingCheck(config, ops, batches, n);
      assert ops[n - 1] == CheckOp(batches[(n - 1) % 3]);
      GuardAlternation.CheckFromWindow(config, StateAfter(config, ops, n - 1), ops[n - 1].batch);
    }
  }

  // ---- When the run is broken off ----

  /** The count when `since` pushes have followed the last prune. */
  function CountSince(limit: nat, since: nat): nat { (limit / 2 + since + 2) / 3 + if since % 3 == 0 then 1 else 0 }

  /** The largest of them: one of the last three before the next prune. */
  function WheelPeak(limit: nat): nat {
    var full := limit - limit / 2;
    Max(CountSince(limit, full), Max(CountSince(limit, Max(full - 1, 0)), CountSince(limit, Max(full - 2, 0))))
  }

  lemma LaterIsLarger(limit: nat, since: nat)
    requires since <= limit - limit / 2
    ensures CountSince(limit, since) <= WheelPeak(limit)
  {
    var full := limit - limit / 2;
    var last := full - (full - since) % 3;
    assert (last - since) % 3 == 0 && since <= last;
    assert last % 3 == since % 3;
    assert last == full || last == full - 1 || last == full - 2;
  }

  lemma CountStaysBelowPeak(limit: nat, n: nat)
    requires limit > 0
    ensures WheelCountAt(limit, n) <= WheelPeak(limit)
  {
    hide Length, LastPrune, WheelPeak;
    LengthBounds(limit, n);
    LengthClosedForm(limit, n);
    if n > limit {
      LaterIsLarger(limit, Length(limit, n) - limit / 2);
    } else {
      LaterIsLarger(limit, limit - limit / 2);
    }
  }

  /** A push that did not prune. */
  lemma StepBack(limit: nat, n: nat)
    requires 0 < LastPrune(limit, n) < n
    ensures Length(limit, n) == Length(limit, n - 1) + 1 && LastPrune(limit, n - 1) == LastPrune(limit, n)
  {
  }

  /** The counts at a full window that was pruned before, and at the two checks before it. */
  lemma CountsAroundFull(limit: nat, n: nat, back: nat)
    requires limit > 0 && LastPrune(limit, n) > 0 && Length(limit, n) == limit
    requires n - LastPrune(limit, n) == limit - limit / 2 && back <= Min(limit - limit / 2, 2) && back < n
    ensures WheelCountAt(limit, n - back) == CountSince(limit, limit - limit / 2 - back)
  {
    hide Length, LastPrune;
    if back >= 1 { StepBack(limit, n); }
    if back >= 2 { StepBack(limit, n - 1); }
  }

  lemma PeakIsReached(limit: nat, n: nat) returns (m: nat)
    requires limit > 0
    ensures m > n && WheelCountAt(limit, m) == WheelPeak(limit)
  {
    hide Length, LastPrune, WheelCountAt, CountSince;
    var full := GuardAlternation.FullAgain(limit, n + 2);
    var back := if CountSince(limit, limit - limit / 2) == WheelPeak(limit) then 0
                else if CountSince(limit, limit - limit / 2 - 1) == WheelPeak(limit) then 1 else 2;
    CountsAroundFull(limit, full, back);
    m := full - back;
  }

  predicate RotationIsNoticed(config: GuardConfig, poll: bool) {
    || config.windowSize == 0
    || (config.pingPongMinRepeats == 1 && config.windowSize >= 2)
    || (config.pingPongMinRepeats >= 2 && 3 * config.pingPongMinRepeats <= config.windowSize)
    || WarnLimit(config, poll) <= WheelPeak(config.windowSize)
  }

  lemma StrikesAgain(config: GuardConfig, poll: bool, n: nat) returns (m: nat)
    requires RotationIsNoticed(config, poll)
    ensures m > n && IsStrike(config, poll, m)
  {
    hide WheelPeak;
    var limit := config.windowSize;
    if limit == 0 {
      m := n + 1 + 3 * WarnLimit(config, poll);
      LengthClosedForm(limit, m);
    } else if WarnLimit(config, poll) <= WheelPeak(limit) {
      m := PeakIsReached(limit, n);
    } else {
      m := GuardAlternation.FullAgain(limit, n);
    }
  }

  lemma {:induction false} WheelStrikesGrow(config: GuardConfig, poll: bool, a: nat, b: nat)
    requires a <= b
    ensures WheelStrikes(config, poll, a) <= WheelStrikes(config, poll, b)
  {
    if a < b { WheelStrikesGrow(config, poll, a, b - 1); }
  }

  lemma {:induction false} ManyWheelStrikes(config: GuardConfig, poll: bool, k: nat) returns (n: nat)
    requires RotationIsNoticed(config, poll)
    ensures n > 0 && IsStrike(config, poll, n) && WheelStrikes(config, poll, n) >= k
  {
    hide IsStrike, RotationIsNoticed;
    var before := 0;
    if k > 0 { before := ManyWheelStrikes(config, poll, k - 1); }
    n := StrikesAgain(config, poll, before);
    WheelStrikesGrow(config, poll, before, n - 1);
  }

  lemma SomeWheelResponseStopsIff(config: GuardConfig, poll: bool)
    ensures (exists n: nat :: n > 0 && WheelResponse(config, poll, n).Stops()) <==> RotationIsNoticed(config, poll)
  {
    hide WheelCountAt, WheelPeak;
    if RotationIsNoticed(config, poll) {
      var n := ManyWheelStrikes(config, poll, config.globalCircuitBreaker);
      assert WheelResponse(config, poll, n).Stops();
    } else {
      forall n: nat ensures !IsStrike(config, poll, n) {
        CountStaysBelowPeak(config.windowSize, n);
        LengthBounds(config.windowSize, n);
      }
    }
  }

  ghost predicate RotationEventuallyStops(config: GuardConfig, batches: seq<CallBatch>)
    requires |batches| == 3
  {
    exists ops, i: nat :: i < |ops| && Rotates(ops, batches) && StopsAt(config, ops, i)
  }

  /**
   * Three batches that take turns are stopped if and only if the guard is enabled and the window is
   * unbounded, or it holds enough for the oscillation test, or the warning threshold is at most the
   * peak of their counts.
   */
  lemma RotationIsStoppedIff(config: GuardConfig, batches: seq<CallBatch>)
    requires Rivals(batches)
    ensures RotationEventuallyStops(config, batches)
      <==> config.enabled && RotationIsNoticed(config, batches[0].poll)
  {
    hide WheelResponse, RotationIsNoticed, VerdictAt, StateAfter;
    SomeWheelResponseStopsIff(config, batches[0].poll);
    if !config.enabled {
      forall ops, i: nat | i < |ops| && Rotates(ops, batches) ensures !StopsAt(config, ops, i) {
        DisabledNeverStops(config, ops, i);
      }
    } else {
      forall ops, i: nat | i < |ops| && Rotates(ops, batches)
        ensures StopsAt(config, ops, i) <==> WheelResponse(config, batches[0].poll, i + 1).Stops()
      {
        RotatingVerdict(config, ops, batches, i + 1);
      }
      if n: nat :| n > 0 && WheelResponse(config, batches[0].poll, n).Stops() {
        var ops := seq(n, i requires 0 <= i < n => CheckOp(Turn(batches, i)));
        assert StopsAt(config, ops, n - 1);
      }
    }
  }

  lemma {:induction false} StrikesAreChecks(config: GuardConfig, poll: bool, n: nat)
    ensures WheelStrikes(config, poll, n) <= n
  {
    if n > 0 { StrikesAreChecks(config, poll, n - 1); }
  }

  /**
   * In a window that reaches that far, and short of the breaker, the n-th check reports a period of three
   * if and only if all repeats of the three batches have been seen.
   */
  lemma RotationIsReportedIff(config: GuardConfig, ops: seq<GuardOp>, batches: seq<CallBatch>, n: nat)
    requires Rivals(batches) && 0 < n <= |ops| && Rotates(ops, batches) && config.enabled
    requires config.pingPongMinRepeats >= 2 && n < config.globalCircuitBreaker
    requires config.windowSize == 0 || n <= config.windowSize
    ensures VerdictAt(config, ops, n - 1) == OfCheck(Warn(PingPong(3, config.pingPongMinRepeats), None))
      <==> n >= 3 * config.pingPongMinRepeats
  {
    hide VerdictAt, WheelCountAt, WheelStrikes;
    RotatingVerdict(config, ops, batches, n);
    StrikesAreChecks(config, batches[0].poll, n);
    LengthClosedForm(config.windowSize, n);
  }
}
