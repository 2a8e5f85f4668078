/** What a conversation is after compaction, told from the two ends: its size, and the messages that are left. */
module RecoveryLaws {
  import opened Bytes
  import opened Messages
  import opened TokenEstimates
  import opened Compaction
  import opened RecoveryLadder
  import opened Preflight
  import opened Requests

  // ---- Shrinking ----

  /** How many tool results follow the message at position i. */
  function NewerResults(ms: seq<Message>, i: nat): nat
    requires i < |ms|
    decreases |ms| - i
  {
    if i + 1 == |ms| then 0
    else NewerResults(ms, i + 1) + if ms[i + 1].role == Tool && ms[i + 1].toolCallId.Some? then 1 else 0
  }

  lemma {:induction false} ResultsAddUp(ms: seq<Message>, i: nat)
    requires i < |ms|
    ensures ToolResultsBefore(ms, i) + (if ms[i].IsToolResult() then 1 else 0) + NewerResults(ms, i)
      == ToolResultsBefore(ms, |ms|)
    decreases |ms| - i
  {
    if i + 1 < |ms| { ResultsAddUp(ms, i + 1); }
  }

  /**
   * The newest `recent` tool results are cut to the target and older ones to a quarter of it; what was
   * cut off is replaced by a note. Everything else stays.
   */
  predicate ShrunkAt(before: seq<Message>, after: seq<Message>, i: nat, target: nat, recent: nat)
    requires i < |before| == |after|
  {
    var budget := if NewerResults(before, i) < recent then target else target / 4;
    if before[i].role == Tool && before[i].toolCallId.Some? && |before[i].content| > budget then
      && before[i].content[..budget] <= after[i].content
      && budget + 30 <= |after[i].content|
      && after[i] == before[i].WithContent(after[i].content)
    else after[i] == before[i]
  }

  ghost predicate ShrunkTo(before: seq<Message>, after: seq<Message>, target: nat, recent: nat) {
    |before| == |after| && forall i :: 0 <= i < |before| ==> ShrunkAt(before, after, i, target, recent)
  }

  lemma ShrunkIsKeptAndNoted(content: Text, budget: nat)
    requires budget <= |content|
    ensures content[..budget] <= ShrunkContent(content, budget)
    ensures budget + 30 <= |ShrunkContent(content, budget)|
  {
    var a, b, c := Ascii("\n...[shrunk from "), Ascii(" to "), Ascii(" bytes]");
    var kept := content[..budget];
    FormatSix(kept, a, Decimal(|content|), b, Decimal(budget), c);
    assert |a| == 17 && |b| == 4 && |c| == 7;
    assert |Decimal(|content|)| >= 1 && |Decimal(budget)| >= 1;
    var rest := Format([kept, a, Decimal(|content|), b, Decimal(budget), c][1..]);
    assert ShrunkContent(content, budget) == kept + rest;
  }

  /** Shrinking keeps these budgets, for any list. */
  lemma ShrinkingObeysBudgets(ms: seq<Message>, target: nat, recent: nat)
    requires recent > 0
    ensures ShrunkTo(ms, ShrunkMessages(ms, target, recent), target, recent)
  {
    hide ShrunkContent;
    var after := ShrunkMessages(ms, target, recent);
    forall i | 0 <= i < |ms| ensures ShrunkAt(ms, after, i, target, recent) {
      ResultsAddUp(ms, i);
      var budget := if NewerResults(ms, i) < recent then target else target / 4;
      if ms[i].IsToolResult() {
        assert budget == ShrinkBudget(ms, i, target, recent);
        if |ms[i].content| > budget { ShrunkIsKeptAndNoted(ms[i].content, budget); }
      }
    }
  }

  // ---- The ladder ----

  /** The messages are within 95% of the limit. */
  predicate Fits(ms: seq<Message>, contextLimit: nat, margin: real) {
    Estimate(ms, margin) as real <= contextLimit as real * 0.95
  }

  /** The i-th message from the end is left, but a tool result may carry another text. */
  predicate IsLeft(before: seq<Message>, after: seq<Message>, i: nat)
    requires 0 < i <= |before|
  {
    i <= |after| && SameUpToToolContent(before[|before| - i], after[|after| - i])
  }

  /** It is left as it was. */
  predicate IsLeftAlone(before: seq<Message>, after: seq<Message>, i: nat)
    requires 0 < i <= |before|
  {
    i <= |after| && before[|before| - i] == after[|after| - i]
  }

  /** The System message at the front, if there is one, stays there; what else is left are at most n messages. */
  predicate FrontOf(before: seq<Message>, after: seq<Message>, n: nat) {
    && |after| <= n + (if after != [] && after[0].role == System then 1 else 0)
    && (before != [] && before[0].role == System ==> after != [] && after[0] == before[0])
  }

  /** The last n messages are left, behind at most one System message. */
  predicate CutTo(before: seq<Message>, after: seq<Message>, n: nat) {
    FrontOf(before, after, n) && forall i :: 0 < i <= Min(n, |before|) ==> IsLeft(before, after, i)
  }

  /** The same, with all texts as they were. */
  predicate CutExactly(before: seq<Message>, after: seq<Message>, n: nat) {
    FrontOf(before, after, n) && forall i :: 0 < i <= Min(n, |before|) ==> IsLeftAlone(before, after, i)
  }

  /**
   * What a recovery leaves behind. Nothing happens to what fits; a critical recovery keeps six messages;
   * any other one ends in what fits, from the messages it may keep, or it keeps three.
   */
  predicate Leaves(contextLimit: nat, margin: real, urgency: Urgency, keepRecent: nat, before: seq<Message>,
                   after: seq<Message>)
  {
    if Fits(before, contextLimit, margin) then after == before
    else
      match urgency
      case Critical => CutExactly(before, after, 6)
      case Emergency =>
        || (Fits(after, contextLimit, margin) && CutTo(before, after, Min(keepRecent, 5)))
        || CutTo(before, after, Min(keepRecent, 3))
      case Normal =>
        || (Fits(after, contextLimit, margin) && CutTo(before, after, keepRecent))
        || CutTo(before, after, Min(keepRecent, 3))
  }

  lemma LastOfTruncated(ms: seq<Message>, n: nat, i: nat)
    requires 0 < i <= Min(n, |ms|)
    ensures IsLeftAlone(ms, TruncateMessages(ms, n), i)
  {
    var after := TruncateMessages(ms, n);
    if |ms| > n && HasSystemPrefix(ms) {
      var last := ms[1..][Max(|ms| - 1 - n, 0)..];
      assert after == [ms[0]] + last && |last| == n;
      assert after[|after| - i] == last[n - i] == ms[|ms| - i];
    }
  }

  lemma TruncationCuts(ms: seq<Message>, n: nat)
    ensures CutExactly(ms, TruncateMessages(ms, n), n) && CutTo(ms, TruncateMessages(ms, n), n)
  {
    hide TruncateMessages;
    TruncationIsNoLonger(ms, |ms|, n);
    forall i | 0 < i <= Min(n, |ms|)
      ensures IsLeftAlone(ms, TruncateMessages(ms, n), i) && IsLeft(ms, TruncateMessages(ms, n), i)
    {
      LastOfTruncated(ms, n, i);
    }
  }

  lemma CutThenShrink(before: seq<Message>, middle: seq<Message>, after: seq<Message>, n: nat)
    requires CutTo(before, middle, n) && Similar(middle, after)
    ensures CutTo(before, after, n)
  {
    forall i | 0 < i <= Min(n, |before|) ensures IsLeft(before, after, i) {
      assert IsLeft(before, middle, i);
      assert SameUpToToolContent(middle[|middle| - i], after[|after| - i]);
    }
    if after != [] { assert SameUpToToolContent(middle[0], after[0]); }
  }

  lemma CutTwice(before: seq<Message>, middle: seq<Message>, n: nat, fewer: nat)
    requires CutTo(before, middle, n)
    ensures CutTo(before, TruncateMessages(middle, fewer), Min(n, fewer))
  {
    var after := TruncateMessages(middle, fewer);
    TruncationIsNoLonger(middle, n, fewer);
    hide TruncateMessages, SameUpToToolContent;
    forall i | 0 < i <= Min(Min(n, fewer), |before|) ensures IsLeft(before, after, i) {
      assert IsLeft(before, middle, i);
      LastOfTruncated(middle, fewer, i);
    }
  }

  lemma TruncationIsNoLonger(ms: seq<Message>, n: nat, fewer: nat)
    requires |ms| <= n + (if ms != [] && ms[0].role == System then 1 else 0)
    ensures FrontOf(ms, TruncateMessages(ms, fewer), Min(n, fewer))
  {
  }

  /** Every recovery that completes leaves this behind. */
  lemma RecoveryLeaves(ms: seq<Message>, contextLimit: nat, urgency: Urgency, keepRecent: nat, budget: nat,
                       margin: real)
    requires Recover(ms, contextLimit, urgency, keepRecent, budget, margin).Some?
    ensures var r := Recover(ms, contextLimit, urgency, keepRecent, budget, margin).value;
      Leaves(contextLimit, margin, urgency, keepRecent, ms, r.messages)
  {
    hide TruncateMessages, ShrunkMessages, CutTo, Estimate, ShrinkCompletes;
    TruncationCuts(ms, 6);
    var n := Tier1Keep(urgency, keepRecent);
    TruncationCuts(ms, n);
    var tier1, tier2 := TruncateMessages(ms, n), Tier2Messages(ms, urgency, keepRecent, budget);
    SimilarToItself(tier1);
    ShrinkingKeepsSimilar(tier1, tier1, Tier2Target(urgency, budget), Tier2Recent(urgency));
    CutThenShrink(ms, tier1, tier2, n);
    CutTwice(ms, tier2, n, 3);
  }

  lemma SimilarToItself(ms: seq<Message>)
    ensures Similar(ms, ms)
  {
  }

  /** Which of them: truncation alone when that fits, then the budgets, and three messages only when neither fits. */
  lemma RecoveryTakesTheFirstThatFits(ms: seq<Message>, contextLimit: nat, urgency: Urgency, keepRecent: nat,
                                      budget: nat, margin: real)
    returns (shrunk: seq<Message>)
    requires urgency != Critical && !Fits(ms, contextLimit, margin)
    requires Recover(ms, contextLimit, urgency, keepRecent, budget, margin).Some?
    ensures var after := Recover(ms, contextLimit, urgency, keepRecent, budget, margin).value.messages;
      var kept := TruncateMessages(ms, if urgency == Emergency then Min(keepRecent, 5) else keepRecent);
      if Fits(kept, contextLimit, margin) then after == kept
      else
        && (if urgency == Normal then ShrunkTo(kept, shrunk, budget, 3)
            else ShrunkTo(kept, shrunk, if budget < 2 then budget else budget / 2, 2))
        && after == if Fits(shrunk, contextLimit, margin) then shrunk else TruncateMessages(shrunk, 3)
  {
    hide TruncateMessages, ShrunkMessages, ShrunkTo, Estimate, ShrinkCompletes;
    shrunk := Tier2Messages(ms, urgency, keepRecent, budget);
    var kept := TruncateMessages(ms, Tier1Keep(urgency, keepRecent));
    ShrinkingObeysBudgets(kept, Tier2Target(urgency, budget), Tier2Recent(urgency));
  }

  /** Compaction after new messages: only when the monitor finds it urgent, and as the urgency asks. */
  predicate CompactionLeaves(monitor: Option<Monitor>, before: seq<Message>, after: seq<Message>) {
    match monitor
    case None => after == before
    case Some(m) =>
      match m.UrgencyOf(before)
      case None => after == before
      case Some(urgency) => Leaves(m.contextLimit, m.safetyMargin, urgency, 8, before, after)
  }

  /** In numbers: what is left fits, or has at most three messages (six when critical) and a System message. */
  lemma WhatIsLeftIsSmall(m: Monitor, before: seq<Message>, after: seq<Message>)
    requires CompactionLeaves(Some(m), before, after) && m.UrgencyOf(before).Some?
    ensures Estimate(after, m.safetyMargin) as real > m.contextLimit as real * 0.95 ==>
      && |after| <= (if m.UrgencyOf(before) == Some(Critical) then 6 else 3)
         + (if after != [] && after[0].role == System then 1 else 0)
  {
    hide Estimate, m.UrgencyOf;
  }

  /** A request of this many tokens leaves the headroom free and stays below the emergency threshold. */
  predicate WithinLimits(m: Monitor, tokens: nat) {
    && tokens <= ToUsize(m.contextLimit as real * m.inputHeadroomRatio)
    && tokens <= ToUsize(m.contextLimit as real * m.emergencyThreshold)
  }

  lemma CompactionLimitIsBoth(m: Monitor, tokens: nat)
    ensures WithinLimits(m, tokens) <==> tokens <= CompactionLimit(m)
  {
    hide ToUsize;
  }

  /** The guard before a call: what is sent fits and is written back, or an emergency recovery took place. */
  ghost predicate PreflightLeaves(monitor: Option<Monitor>, system: Message, tools: seq<ToolDefinition>,
                                  writeBack: bool,
                                  before: seq<Message>, after: seq<Message>, sent: seq<Message>)
  {
    match monitor
    case None => after == before
    case Some(m) =>
      || Leaves(m.contextLimit, m.safetyMargin, Emergency, 5, before, after)
      || (&& WithinLimits(m, EstimateFull(sent, tools, m.safetyMargin))
          && WritesBack(system, writeBack, before, after, sent))
  }
}
