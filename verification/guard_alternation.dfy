/** The loop guard when two batches of calls alternate for ever. */
module GuardAlternation {
  import opened Bytes
  import opened Periodicity
  import opened GuardWindow
  import opened LoopGuards
  import opened GuardRuns

  ghost predicate Alternates(ops: seq<GuardOp>, a: CallBatch, b: CallBatch) {
    forall i :: 0 <= i < |ops| ==> ops[i] == CheckOp(if i % 2 == 0 then a else b)
  }

  /** Two different batches, both polls or both not. */
  predicate Rivals(a: CallBatch, b: CallBatch) {
    a.hash != b.hash && a.size > 0 && b.size > 0 && a.poll == b.poll
  }

  ghost predicate Zigzag(s: seq<Hash>) {
    && (forall i :: 0 < i < |s| ==> s[i] != s[i - 1])
    && (forall i :: 2 <= i < |s| ==> s[i] == s[i - 2])
  }

  // ---- The window ----

  lemma {:induction false} ZigzagCount(s: seq<Hash>)
    requires s != [] && Zigzag(s)
    ensures multiset(s)[s[|s| - 1]] == (|s| + 1) / 2
    decreases |s|
  {
    var n := |s|;
    if n == 1 {
      assert s == [s[0]];
    } else {
      var front := s[..n - 2];
      TwoMore(s);
      if front != [] {
        ZigzagCount(front);
        assert front[|front| - 1] == s[n - 3] == s[n - 1];
      }
    }
  }

  lemma TwoMore(s: seq<Hash>)
    requires |s| >= 2 && Zigzag(s)
    ensures Zigzag(s[..|s| - 2]) && multiset(s)[s[|s| - 1]] == multiset(s[..|s| - 2])[s[|s| - 1]] + 1
  {
    var n := |s|;
    assert s == s[..n - 2] + [s[n - 2], s[n - 1]];
    assert s[n - 2] != s[n - 1];
  }

  /** A zigzag is reported with period 2 as soon as it is long enough. */
  lemma ZigzagIsReported(s: seq<Hash>, repeats: nat)
    requires Zigzag(s)
    ensures Reported(s, 2, 3, repeats) == if repeats > 0 && 2 * repeats <= |s| then Some(2) else None
  {
    if repeats > 0 && 2 * repeats <= |s| {
      var tail := Tail(s, 2 * repeats);
      assert HasPeriod(tail, 2) by {
        forall j | 2 <= j < |tail| ensures RepeatsAt(tail, 2, j) { assert tail[j] == s[|s| - 2 * repeats + j]; }
      }
      assert tail[0] != tail[1] by { assert tail[0] == s[|s| - 2 * repeats] && tail[1] == s[|s| - 2 * repeats + 1]; }
    }
  }

  /** The count compared with the thresholds at the n-th check. */
  function AltCount(limit: nat, n: nat): nat {
    (Length(limit, n) + 1) / 2 + if LastPrune(limit, n) > 0 && (n - LastPrune(limit, n)) % 2 == 0 then 1 else 0
  }

  lemma ZigzagPiece(s: seq<Hash>, lo: nat, hi: nat)
    requires Zigzag(s) && lo <= hi <= |s|
    ensures Zigzag(s[lo..hi])
  {
  }

  lemma PhantomShare(limit: nat, hashes: seq<Hash>)
    requires hashes != [] && Zigzag(hashes)
    ensures var n, p := |hashes|, LastPrune(limit, |hashes|);
      p <= n && Phantom(limit, hashes, n)[hashes[n - 1]] == if p > 0 && (n - p) % 2 == 0 then 1 else 0
  {
    hide LastPrune, Zigzag;
    LengthBounds(limit, |hashes|);
    var p := LastPrune(limit, |hashes|);
    if p > 0 { ZigzagParity(hashes, p - 1, |hashes| - 1); }
  }

  lemma CountOfSum(counts: Counts, a: multiset<Hash>, b: multiset<Hash>, h: Hash)
    requires Represents(counts, a + b)
    ensures CountIn(counts, h) == a[h] + b[h]
  {
  }

  lemma ZigzagItems(limit: nat, hashes: seq<Hash>)
    requires hashes != [] && Zigzag(hashes)
    ensures var win := Pushed(limit, hashes, |hashes|);
      && Zigzag(win.items) && |win.items| == Length(limit, |hashes|)
      && multiset(win.items)[hashes[|hashes| - 1]] == (Length(limit, |hashes|) + 1) / 2
  {
    hide Zigzag, Length, LastPrune, Pushed, Phantom, Represents;
    var n := |hashes|;
    WindowExact(limit, hashes, n);
    ZigzagPiece(hashes, n - Length(limit, n), n);
    LastOfPiece(hashes, n - Length(limit, n));
    var items := Pushed(limit, hashes, n).items;
    if items != [] { ZigzagCount(items); }
  }

  lemma ZigzagWindow(limit: nat, hashes: seq<Hash>)
    requires hashes != [] && Zigzag(hashes)
    ensures var win := Pushed(limit, hashes, |hashes|);
      && Zigzag(win.items) && |win.items| == Length(limit, |hashes|)
      && CountIn(win.counts, hashes[|hashes| - 1]) == AltCount(limit, |hashes|)
  {
    hide Zigzag, Length, LastPrune, Phantom, Pushed, Represents, CountIn, Overflows, PushItem;
    var n := |hashes|;
    var win := Pushed(limit, hashes, n);
    WindowExact(limit, hashes, n);
    ZigzagItems(limit, hashes);
    PhantomShare(limit, hashes);
    CountOfSum(win.counts, multiset(win.items), Phantom(limit, hashes, n), hashes[n - 1]);
  }

  lemma LastOfPiece(hashes: seq<Hash>, lo: nat)
    requires lo <= |hashes|
    ensures var piece := hashes[lo..|hashes|];
      |piece| == |hashes| - lo && (piece != [] ==> piece[|piece| - 1] == hashes[|hashes| - 1])
  {
  }

  lemma {:induction false} ZigzagParity(s: seq<Hash>, i: nat, j: nat)
    requires Zigzag(s) && i <= j < |s|
    ensures s[i] == s[j] <==> (j - i) % 2 == 0
    decreases j - i
  {
    if j - i >= 2 { ZigzagParity(s, i, j - 2); }
  }

  // ---- The responses ----

  /** At the n-th check the oscillation is reported. */
  predicate Pings(config: GuardConfig, n: nat) {
    config.pingPongMinRepeats > 0 && 2 * config.pingPongMinRepeats <= Length(config.windowSize, n)
  }

  predicate IsStrike(config: GuardConfig, poll: bool, n: nat) {
    Pings(config, n) || AltCount(config.windowSize, n) >= WarnLimit(config, poll)
  }

  function AltStrikes(config: GuardConfig, poll: bool, n: nat): nat {
    if n == 0 then 0 else AltStrikes(config, poll, n - 1) + if IsStrike(config, poll, n) then 1 else 0
  }

  function AltResponse(config: GuardConfig, poll: bool, n: nat): GuardAction {
    var count, strikes := AltCount(config.windowSize, n), AltStrikes(config, poll, n);
    var warnAt, blockAt := WarnLimit(config, poll), BlockLimit(config, poll);
    if !IsStrike(config, poll, n) then Allow
    else if strikes >= config.globalCircuitBreaker then CircuitBreak(strikes)
    else if Pings(config, n) then Warn(PingPong(2, config.pingPongMinRepeats), None)
    else if count >= blockAt then Block(RepeatedCall(count, blockAt))
    else Warn(RepeatedCall(count, warnAt), if poll then Some(BackoffDelay(count, warnAt)) else None)
  }

  lemma {:induction false} AlternatingHashes(config: GuardConfig, ops: seq<GuardOp>, a: CallBatch, b: CallBatch, n: nat)
    requires n <= |ops| && Alternates(ops, a, b) && config.enabled && Rivals(a, b)
    ensures |CallHashes(config, ops, n)| == n
    ensures forall i :: 0 <= i < n ==> CallHashes(config, ops, n)[i] == (if i % 2 == 0 then a else b).hash
  {
    if n > 0 { AlternatingHashes(config, ops, a, b, n - 1); }
  }

  lemma AlternatingIsZigzag(hashes: seq<Hash>, a: Hash, b: Hash)
    requires a != b && forall i :: 0 <= i < |hashes| ==> hashes[i] == if i % 2 == 0 then a else b
    ensures Zigzag(hashes)
  {
  }

  lemma AlternatingCheck(config: GuardConfig, ops: seq<GuardOp>, a: CallBatch, b: CallBatch, n: nat)
    requires 0 < n <= |ops| && Alternates(ops, a, b) && config.enabled && Rivals(a, b)
    ensures var win := StateAfter(config, ops, n).calls;
      && PingPongPeriod(config, win.items) == (if Pings(config, n) then Some(2) else None)
      && CountIn(win.counts, ops[n - 1].batch.hash) == AltCount(config.windowSize, n)
  {
    hide Length, LastPrune, StateAfter, CallHashes, Pushed, Zigzag, AltCount, CountIn, Reported;
    var hashes := CallHashes(config, ops, n);
    AlternatingHashes(config, ops, a, b, n);
    AlternatingIsZigzag(hashes, a.hash, b.hash);
    WindowsOfRun(config, ops, n);
    ZigzagWindow(config.windowSize, hashes);
    ZigzagIsReported(StateAfter(config, ops, n).calls.items, config.pingPongMinRepeats);
  }

  lemma CheckFromWindow(config: GuardConfig, st: GuardState, batch: CallBatch)
    requires config.enabled && batch.size > 0
    ensures var (st', action) := CheckStep(config, st, batch);
      var counted := st.(calls := st'.calls, stats := st.stats.(totalChecks := st.stats.totalChecks + 1));
      (st', action) ==
        if PingPongPeriod(config, st'.calls.items).Some? then PingPongStrike(config, counted)
        else Graduated(config, counted, CountIn(st'.calls.counts, batch.hash), batch.poll)
  {
    hide Push;
  }

  /** The n-th check of two batches that take turns, for every n. */
  lemma {:induction false} AlternatingVerdict(config: GuardConfig, ops: seq<GuardOp>, a: CallBatch, b: CallBatch,
                                              n: nat)
    requires n <= |ops| && Alternates(ops, a, b) && config.enabled && Rivals(a, b)
    ensures StateAfter(config, ops, n).totalRepetitions == AltStrikes(config, a.poll, n)
    ensures n > 0 ==> VerdictAt(config, ops, n - 1) == OfCheck(AltResponse(config, a.poll, n))
  {
    hide CheckStep, OutcomeStep, AltCount, Pings;
    if n > 0 {
      AlternatingVerdict(config, ops, a, b, n - 1);
      AlternatingCheck(config, ops, a, b, n);
      CheckFromWindow(config, StateAfter(config, ops, n - 1), ops[n - 1].batch);
    }
  }

  // ---- When the run is broken off ----

  /** The largest count that alternation brings about in a window that is pruned. */
  function AltPeak(limit: nat): nat { limit / 2 + 1 + if limit % 4 == 3 then 1 else 0 }

  lemma CountStaysBelowPeak(limit: nat, n: nat)
    requires limit > 0
    ensures AltCount(limit, n) <= AltPeak(limit)
  {
    hide Length, LastPrune;
    LengthBounds(limit, n);
    LengthClosedForm(limit, n);
    if n > limit { PeakOf(limit, Length(limit, n) - limit / 2); }
  }

  lemma PeakOf(limit: nat, since: nat)
    requires limit > 0 && limit / 2 + since <= limit
    ensures (limit / 2 + since + 1) / 2 + (if since % 2 == 0 then 1 else 0) <= AltPeak(limit)
  {
  }

  /** One of the two counts around a full window is the peak. */
  lemma PeakIsOneOfTwo(limit: nat)
    requires limit > 0
    ensures var since := limit - limit / 2;
      || (limit + 1) / 2 + (if since % 2 == 0 then 1 else 0) == AltPeak(limit)
      || limit / 2 + (if since % 2 == 1 then 1 else 0) == AltPeak(limit)
  {
  }

  lemma PeakIsReached(limit: nat, n: nat) returns (m: nat)
    requires limit > 0
    ensures m > n && AltCount(limit, m) == AltPeak(limit)
  {
    hide Length, LastPrune, AltPeak;
    var full := FullAgain(limit, n + 1);
    LastPush(limit, full);
    PeakIsOneOfTwo(limit);
    var since := limit - limit / 2;
    assert AltCount(limit, full) == (limit + 1) / 2 + if since % 2 == 0 then 1 else 0;
    assert full - 1 - LastPrune(limit, full - 1) == since - 1;
    assert AltCount(limit, full - 1) == limit / 2 + if since % 2 == 1 then 1 else 0;
    m := if AltCount(limit, full) == AltPeak(limit) then full else full - 1;
  }

  /** After every n there is a full window that was pruned before. */
  lemma FullAgain(limit: nat, n: nat) returns (m: nat)
    requires limit > 0
    ensures m > n && Length(limit, m) == limit && LastPrune(limit, m) > 0
    ensures m - LastPrune(limit, m) == limit - limit / 2
  {
    hide Length, LastPrune;
    m := ReachesAgain(limit, limit + 1, n);
    LengthBounds(limit, m);
    LengthClosedForm(limit, m);
  }

  /** The push that fills a window did not prune it. */
  lemma LastPush(limit: nat, n: nat)
    requires limit > 0 && n > 0 && Length(limit, n) == limit && LastPrune(limit, n) > 0
    ensures Length(limit, n - 1) == limit - 1 && LastPrune(limit, n - 1) == LastPrune(limit, n)
  {
  }

  predicate AlternationIsNoticed(config: GuardConfig, poll: bool) {
    || config.windowSize == 0
    || 0 < 2 * config.pingPongMinRepeats <= config.windowSize
    || WarnLimit(config, poll) <= AltPeak(config.windowSize)
  }

  lemma StrikesAgain(config: GuardConfig, poll: bool, n: nat) returns (m: nat)
    requires AlternationIsNoticed(config, poll)
    ensures m > n && IsStrike(config, poll, m)
  {
    var limit := config.windowSize;
    if limit == 0 {
      m := n + 1 + 2 * WarnLimit(config, poll);
      LengthClosedForm(limit, m);
    } else if 0 < 2 * config.pingPongMinRepeats <= limit {
      m := FullAgain(limit, n);
    } else {
      m := PeakIsReached(limit, n);
    }
  }

  lemma {:induction false} AltStrikesGrow(config: GuardConfig, poll: bool, a: nat, b: nat)
    requires a <= b
    ensures AltStrikes(config, poll, a) <= AltStrikes(config, poll, b)
  {
    if a < b { AltStrikesGrow(config, poll, a, b - 1); }
  }

  lemma {:induction false} ManyAltStrikes(config: GuardConfig, poll: bool, k: nat) returns (n: nat)
    requires AlternationIsNoticed(config, poll)
    ensures n > 0 && IsStrike(config, poll, n) && AltStrikes(config, poll, n) >= k
  {
    hide IsStrike, AlternationIsNoticed;
    var before := 0;
    if k > 0 { before := ManyAltStrikes(config, poll, k - 1); }
    n := StrikesAgain(config, poll, before);
    AltStrikesGrow(config, poll, before, n - 1);
  }

  lemma SomeAltResponseStopsIff(config: GuardConfig, poll: bool)
    ensures (exists n: nat :: n > 0 && AltResponse(config, poll, n).Stops()) <==> AlternationIsNoticed(config, poll)
  {
    hide AltCount, AltPeak;
    if AlternationIsNoticed(config, poll) {
      var n := ManyAltStrikes(config, poll, config.globalCircuitBreaker);
      assert AltResponse(config, poll, n).Stops();
    } else {
      forall n: nat ensures !IsStrike(config, poll, n) {
        CountStaysBelowPeak(config.windowSize, n);
        LengthBounds(config.windowSize, n);
      }
    }
  }

  ghost predicate AlternationEventuallyStops(config: GuardConfig, a: CallBatch, b: CallBatch) {
    exists ops, i: nat :: i < |ops| && Alternates(ops, a, b) && StopsAt(config, ops, i)
  }

  /**
   * Two alternating batches are stopped if and only if the guard is enabled and the window is unbounded,
   * or it holds enough repeats for the oscillation test, or the warning threshold is at most the peak
   * of their counts.
   */
  lemma AlternationIsStoppedIff(config: GuardConfig, a: CallBatch, b: CallBatch)
    requires Rivals(a, b)
    ensures AlternationEventuallyStops(config, a, b) <==> config.enabled && AlternationIsNoticed(config, a.poll)
  {
    hide AltResponse, AlternationIsNoticed, VerdictAt, StateAfter;
    SomeAltResponseStopsIff(config, a.poll);
    if !config.enabled {
      forall ops, i: nat | i < |ops| && Alternates(ops, a, b) ensures !StopsAt(config, ops, i) {
        DisabledNeverStops(config, ops, i);
      }
    } else {
      forall ops, i: nat | i < |ops| && Alternates(ops, a, b)
        ensures StopsAt(config, ops, i) <==> AltResponse(config, a.poll, i + 1).Stops()
      {
        AlternatingVerdict(config, ops, a, b, i + 1);
      }
      if n: nat :| n > 0 && AltResponse(config, a.poll, n).Stops() {
        var ops := seq(n, i requires 0 <= i < n => CheckOp(if i % 2 == 0 then a else b));
        assert StopsAt(config, ops, n - 1);
      }
    }
  }

  lemma {:induction false} AltStrikesAreChecks(config: GuardConfig, poll: bool, n: nat)
    ensures AltStrikes(config, poll, n) <= n
  {
    if n > 0 { AltStrikesAreChecks(config, poll, n - 1); }
  }

  /**
   * In a window that reaches that far, and short of the breaker, the n-th check reports the alternation
   * if and only if all repeats of the two batches have been seen.
   */
  lemma AlternationIsReportedIff(config: GuardConfig, ops: seq<GuardOp>, a: CallBatch, b: CallBatch, n: nat)
    requires Rivals(a, b) && 0 < n <= |ops| && Alternates(ops, a, b) && config.enabled
    requires config.pingPongMinRepeats >= 1 && n < config.globalCircuitBreaker
    requires config.windowSize == 0 || n <= config.windowSize
    ensures VerdictAt(config, ops, n - 1) == OfCheck(Warn(PingPong(2, config.pingPongMinRepeats), None))
      <==> n >= 2 * config.pingPongMinRepeats
  {
    hide VerdictAt, AltCount, AltStrikes;
    AlternatingVerdict(config, ops, a, b, n);
    AltStrikesAreChecks(config, a.poll, n);
    LengthClosedForm(config.windowSize, n);
  }

  /** A window of two is too small for the default settings: two batches that take turns are allowed for ever. */
  lemma SmallWindowMissesAlternation(ops: seq<GuardOp>, a: CallBatch, b: CallBatch, i: nat)
    requires i < |ops| && Alternates(ops, a, b) && Rivals(a, b) && !a.poll
    ensures VerdictAt(GuardConfig(true, 3, 5, 30, 3, 3, 2, 3, 2), ops, i) == OfCheck(Allow)
  {
    hide VerdictAt, AltCount, AltStrikes;
    var config := GuardConfig(true, 3, 5, 30, 3, 3, 2, 3, 2);
    AlternatingVerdict(config, ops, a, b, i + 1);
    CountStaysBelowPeak(2, i + 1);
    LengthBounds(2, i + 1);
  }
}
