/** The three-tier recovery from context overflow. */
module RecoveryLadder {
  import opened Bytes
  import opened Messages
  import opened TokenEstimates
  import opened Compaction
  import Utf8

  /** Whether an estimate is within 95% of the limit. */
  predicate WithinTarget(ms: seq<Message>, contextLimit: nat, margin: real) {
    Estimate(ms, margin) as real <= contextLimit as real * 0.95
  }

  function Tier1Keep(urgency: Urgency, keepRecent: nat): nat {
    if urgency == Emergency then Min(keepRecent, 5) else keepRecent
  }

  function Tier2Target(urgency: Urgency, budget: nat): nat {
    if urgency == Emergency then Min(Max(budget / 2, 1), budget) else budget
  }

  function Tier2Recent(urgency: Urgency): nat { if urgency == Emergency then 2 else 3 }

  /** The shrunk list the second tier works on. */
  ghost predicate Tier2Completes(ms: seq<Message>, urgency: Urgency, keepRecent: nat, budget: nat) {
    var tier1 := TruncateMessages(ms, Tier1Keep(urgency, keepRecent));
    ShrinkCompletes(tier1, Tier2Target(urgency, budget), Tier2Recent(urgency))
  }

  ghost function Tier2Messages(ms: seq<Message>, urgency: Urgency, keepRecent: nat, budget: nat): seq<Message> {
    var tier1 := TruncateMessages(ms, Tier1Keep(urgency, keepRecent));
    ShrunkMessages(tier1, Tier2Target(urgency, budget), Tier2Recent(urgency))
  }

  datatype Recovery = Recovery(messages: seq<Message>, tier: nat)

  /** What the ladder answers; None when the second tier aborts. */
  ghost function Recover(ms: seq<Message>, contextLimit: nat, urgency: Urgency, keepRecent: nat, budget: nat,
                         margin: real)
    : Option<Recovery>
  {
    if WithinTarget(ms, contextLimit, margin) then Some(Recovery(ms, 0))
    else if urgency == Critical then Some(Recovery(TruncateMessages(ms, 6), 3))
    else
      var tier1 := TruncateMessages(ms, Tier1Keep(urgency, keepRecent));
      if WithinTarget(tier1, contextLimit, margin) then Some(Recovery(tier1, 1))
      else if !Tier2Completes(ms, urgency, keepRecent, budget) then None
      else
        var tier2 := Tier2Messages(ms, urgency, keepRecent, budget);
        if WithinTarget(tier2, contextLimit, margin) then Some(Recovery(tier2, 2))
        else Some(Recovery(TruncateMessages(tier2, 3), 3))
  }

  method TryRecoverContextWithUrgency(
    ms: seq<Message>, contextLimit: nat, urgency: Urgency, keepRecent: nat, budget: nat, margin: real)
    returns (r: Option<Recovery>)
    ensures r == Recover(ms, contextLimit, urgency, keepRecent, budget, margin)
  {
    var target := contextLimit as real * 0.95;
    var estimated := Estimate(ms, margin);
    if estimated as real <= target {
      return Some(Recovery(ms, 0));
    }
    match urgency {
      case Critical =>
        r := Some(Recovery(TruncateMessages(ms, 6), 3));
      case Emergency =>
        var recovered := TruncateMessages(ms, Min(keepRecent, 5));
        estimated := Estimate(recovered, margin);
        if estimated as real <= target {
          return Some(Recovery(recovered, 1));
        }
        var emergencyBudget := Min(Max(budget / 2, 1), budget);
        var shrunk := ShrinkToolResultsProgressive(recovered, emergencyBudget, 2);
        if shrunk.None? {
          return None;
        }
        estimated := Estimate(shrunk.value, margin);
        if estimated as real <= target {
          return Some(Recovery(shrunk.value, 2));
        }
        r := Some(Recovery(TruncateMessages(shrunk.value, 3), 3));
      case Normal =>
        var recovered := TruncateMessages(ms, keepRecent);
        estimated := Estimate(recovered, margin);
        if estimated as real <= target {
          return Some(Recovery(recovered, 1));
        }
        var shrunk := ShrinkToolResultsProgressive(recovered, budget, 3);
        if shrunk.None? {
          return None;
        }
        estimated := Estimate(shrunk.value, margin);
        if estimated as real <= target {
          return Some(Recovery(shrunk.value, 2));
        }
        r := Some(Recovery(TruncateMessages(shrunk.value, 3), 3));
    }
  }

  // ---- What recovery promises ----

  /** The same message, except that a tool result may carry other content. */
  predicate SameUpToToolContent(a: Message, b: Message) {
    if a.IsToolResult() then a.(content := b.content, contentParts := b.contentParts) == b else a == b
  }

  ghost predicate Similar(a: seq<Message>, b: seq<Message>) {
    |a| == |b| && forall i :: 0 <= i < |a| ==> SameUpToToolContent(a[i], b[i])
  }

  /** The end of the input from `cut` on, behind the message at `lead` unless lead == cut. */
  function Selected(input: seq<Message>, lead: nat, cut: nat): seq<Message>
    requires lead <= cut <= |input|
  {
    (if lead < cut then [input[lead]] else []) + input[cut..]
  }

  /** The result is the end of the input, optionally behind one earlier System message of the input. */
  ghost predicate DerivedAt(result: seq<Message>, input: seq<Message>, lead: nat, cut: nat) {
    && lead <= cut <= |input|
    && (lead < cut ==> input[lead].role == System)
    && Similar(Selected(input, lead, cut), result)
  }

  ghost predicate DerivedFrom(result: seq<Message>, input: seq<Message>) {
    exists lead: nat, cut: nat :: DerivedAt(result, input, lead, cut)
  }

  lemma TruncationSelects(ms: seq<Message>, keepRecent: nat) returns (lead: nat, cut: nat)
    ensures DerivedAt(TruncateMessages(ms, keepRecent), ms, lead, cut)
    ensures TruncateMessages(ms, keepRecent) == Selected(ms, lead, cut)
    ensures var from := if HasSystemPrefix(ms) then 1 else 0;
      cut == Max(|ms| - keepRecent, from) && lead == if from == 1 then 0 else cut
  {
    TruncateFormula(ms, keepRecent);
    var from := if HasSystemPrefix(ms) then 1 else 0;
    cut := Max(|ms| - keepRecent, from);
    lead := if from == 1 then 0 else cut;
    assert TruncateMessages(ms, keepRecent) == Selected(ms, lead, cut);
  }

  lemma TruncationLength(ms: seq<Message>, keepRecent: nat)
    ensures |TruncateMessages(ms, keepRecent)|
      <= keepRecent + (if HasSystemPrefix(TruncateMessages(ms, keepRecent)) then 1 else 0)
  {
  }

  lemma SuffixOfSelected(ms: seq<Message>, lead: nat, cut: nat, start: nat)
    requires lead <= cut <= |ms| && start <= |Selected(ms, lead, cut)|
    requires start >= if lead < cut then 1 else 0
    ensures Selected(ms, lead, cut)[start..] == ms[cut + start - (if lead < cut then 1 else 0)..]
  {
  }

  /** Truncating a selection again selects; its leading message may be one that the first cut put in front. */
  lemma SelectedTruncates(ms: seq<Message>, lead: nat, cut: nat, keepRecent: nat) returns (lead': nat, cut': nat)
    requires lead <= cut <= |ms| && (lead < cut ==> ms[lead].role == System)
    ensures lead' <= cut' <= |ms| && (lead' < cut' ==> ms[lead'].role == System)
    ensures TruncateMessages(Selected(ms, lead, cut), keepRecent) == Selected(ms, lead', cut')
    ensures cut' == Max(|ms| - keepRecent, cut + if lead == cut < |ms| && ms[cut].role == System then 1 else 0)
  {
    hide TruncateMessages;
    var s := Selected(ms, lead, cut);
    var again, start := TruncationSelects(s, keepRecent);
    var front := if lead < cut then 1 else 0;
    cut' := cut + start - front;
    lead' := if again == start then cut' else if front == 1 then lead else cut;
    SuffixOfSelected(ms, lead, cut, start);
  }

  lemma TruncationKeepsSimilar(a: seq<Message>, b: seq<Message>, keepRecent: nat)
    requires Similar(a, b)
    ensures Similar(TruncateMessages(a, keepRecent), TruncateMessages(b, keepRecent))
  {
    TruncateFormula(a, keepRecent);
    TruncateFormula(b, keepRecent);
  }

  lemma ShrinkingKeepsSimilar(a: seq<Message>, b: seq<Message>, target: nat, recent: nat)
    requires Similar(a, b)
    ensures Similar(a, ShrunkMessages(b, target, recent))
  {
  }

  lemma ThirdTierIsDerived(ms: seq<Message>, urgency: Urgency, keepRecent: nat, budget: nat)
    ensures DerivedFrom(Tier2Messages(ms, urgency, keepRecent, budget), ms)
    ensures DerivedFrom(TruncateMessages(Tier2Messages(ms, urgency, keepRecent, budget), 3), ms)
  {
    var tier1 := TruncateMessages(ms, Tier1Keep(urgency, keepRecent));
    var tier2 := Tier2Messages(ms, urgency, keepRecent, budget);
    var lead, cut := TruncationSelects(ms, Tier1Keep(urgency, keepRecent));
    ShrinkingKeepsSimilar(tier1, tier1, Tier2Target(urgency, budget), Tier2Recent(urgency));
    assert DerivedAt(tier2, ms, lead, cut);
    TruncationKeepsSimilar(tier1, tier2, 3);
    var lead', cut' := SelectedTruncates(ms, lead, cut, 3);
    assert DerivedAt(TruncateMessages(tier2, 3), ms, lead', cut');
  }

  lemma TruncationIsDerived(ms: seq<Message>, keepRecent: nat)
    ensures DerivedFrom(TruncateMessages(ms, keepRecent), ms)
  {
    var lead, cut := TruncationSelects(ms, keepRecent);
  }

  /**
   * Tiers 0, 1 and 2 end within 95% of the limit; tier 3 keeps at most three messages (six when
   * critical) and a System prefix.
   */
  lemma RecoveryFits(ms: seq<Message>, contextLimit: nat, urgency: Urgency, keepRecent: nat, budget: nat, margin: real)
    requires Recover(ms, contextLimit, urgency, keepRecent, budget, margin).Some?
    ensures var r := Recover(ms, contextLimit, urgency, keepRecent, budget, margin).value;
      && r.tier <= 3
      && (r.tier <= 2 ==> WithinTarget(r.messages, contextLimit, margin))
      && (r.tier == 3 ==>
            |r.messages| <= (if urgency == Critical then 6 else 3) + (if HasSystemPrefix(r.messages) then 1 else 0))
  {
    TruncationLength(ms, 6);
    TruncationLength(Tier2Messages(ms, urgency, keepRecent, budget), 3);
  }

  /** In every tier the result is the end of the input, where at most tool-result contents have changed. */
  lemma RecoveryOnlyCuts(ms: seq<Message>, contextLimit: nat, urgency: Urgency, keepRecent: nat, budget: nat,
                         margin: real)
    requires Recover(ms, contextLimit, urgency, keepRecent, budget, margin).Some?
    ensures DerivedFrom(Recover(ms, contextLimit, urgency, keepRecent, budget, margin).value.messages, ms)
  {
    if WithinTarget(ms, contextLimit, margin) {
      assert TruncateMessages(ms, |ms|) == ms;
      TruncationIsDerived(ms, |ms|);
    } else if urgency == Critical {
      TruncationIsDerived(ms, 6);
    } else if WithinTarget(TruncateMessages(ms, Tier1Keep(urgency, keepRecent)), contextLimit, margin) {
      TruncationIsDerived(ms, Tier1Keep(urgency, keepRecent));
    } else {
      ThirdTierIsDerived(ms, urgency, keepRecent, budget);
    }
  }

  /** The cut that the second tier makes in this message would split a character. */
  predicate SplitsCharacter(ms: seq<Message>, i: nat, target: nat, recent: nat)
    requires i < |ms|
  {
    var budget := ShrinkBudget(ms, i, target, recent);
    ms[i].IsToolResult() && budget < |ms[i].content| && !Utf8.IsCharBoundary(ms[i].content, budget)
  }

  /**
   * The ladder aborts exactly when the context is too full before and after truncation and some tool
   * result that truncation kept is over its budget and has no character boundary there.
   */
  lemma RecoveryAbortsIff(ms: seq<Message>, contextLimit: nat, urgency: Urgency, keepRecent: nat, budget: nat,
                          margin: real)
    ensures var kept := TruncateMessages(ms, Tier1Keep(urgency, keepRecent));
      Recover(ms, contextLimit, urgency, keepRecent, budget, margin).None? <==>
        && urgency != Critical
        && !WithinTarget(ms, contextLimit, margin) && !WithinTarget(kept, contextLimit, margin)
        && exists i :: 0 <= i < |kept| && SplitsCharacter(kept, i, Tier2Target(urgency, budget), Tier2Recent(urgency))
  {
    hide Utf8.IsCharBoundary, ShrinkBudget, WithinTarget;
    var kept := TruncateMessages(ms, Tier1Keep(urgency, keepRecent));
    var target, recent := Tier2Target(urgency, budget), Tier2Recent(urgency);
    if !ShrinkCompletes(kept, target, recent) {
      var i :| 0 <= i < |kept| && !CutsOnBoundary(kept, i, target, recent);
      assert SplitsCharacter(kept, i, target, recent);
    }
    forall i | 0 <= i < |kept| && SplitsCharacter(kept, i, target, recent)
      ensures !ShrinkCompletes(kept, target, recent)
    {
      assert !CutsOnBoundary(kept, i, target, recent);
    }
  }

  /** Every tool message carries ASCII text. */
  predicate ToolsAscii(ms: seq<Message>) {
    forall i :: 0 <= i < |ms| && ms[i].role == Tool ==> Utf8.IsAscii(ms[i].content)
  }

  /** Tool messages of ASCII text never make the ladder abort. */
  lemma AsciiNeverAborts(ms: seq<Message>, contextLimit: nat, urgency: Urgency, keepRecent: nat, budget: nat,
                         margin: real)
    requires ToolsAscii(ms)
    ensures Recover(ms, contextLimit, urgency, keepRecent, budget, margin).Some?
  {
    hide Recover, WithinTarget, ShrinkBudget;
    var kept := TruncateMessages(ms, Tier1Keep(urgency, keepRecent));
    RecoveryAbortsIff(ms, contextLimit, urgency, keepRecent, budget, margin);
    TruncationKeepsAscii(ms, Tier1Keep(urgency, keepRecent));
    assert forall i :: 0 <= i < |kept| ==>
      !SplitsCharacter(kept, i, Tier2Target(urgency, budget), Tier2Recent(urgency));
  }

  lemma TruncationKeepsAscii(ms: seq<Message>, keepRecent: nat)
    requires ToolsAscii(ms)
    ensures ToolsAscii(TruncateMessages(ms, keepRecent))
  {
  }

  lemma ShrunkIsAscii(content: Text, budget: nat)
    requires budget <= |content| && Utf8.IsAscii(content)
    ensures Utf8.IsAscii(ShrunkContent(content, budget))
  {
    hide Utf8.IsAscii, Decimal, Ascii, Format;
    Utf8.PieceIsAscii(content, 0, budget);
    Utf8.LiteralIsAscii("\n...[shrunk from ");
    Utf8.LiteralIsAscii(" to ");
    Utf8.LiteralIsAscii(" bytes]");
    Utf8.DecimalIsAscii(|content|);
    Utf8.DecimalIsAscii(budget);
    var kept := content[..budget];
    Utf8.FormatIsAscii(
      [kept, Ascii("\n...[shrunk from "), Decimal(|content|), Ascii(" to "), Decimal(budget), Ascii(" bytes]")]);
  }

  lemma ShrinkingKeepsAscii(ms: seq<Message>, target: nat, recent: nat)
    requires ToolsAscii(ms)
    ensures ToolsAscii(ShrunkMessages(ms, target, recent))
  {
    hide ShrunkContent, ShrinkBudget, Utf8.IsAscii;
    forall i | 0 <= i < |ms| && ms[i].role == Tool
      ensures Utf8.IsAscii(ShrunkMessage(ms, i, target, recent).content)
    {
      var budget := ShrinkBudget(ms, i, target, recent);
      if budget < |ms[i].content| { ShrunkIsAscii(ms[i].content, budget); }
    }
  }

  /** And the ladder keeps them ASCII. */
  lemma RecoveryKeepsAscii(ms: seq<Message>, contextLimit: nat, urgency: Urgency, keepRecent: nat, budget: nat,
                           margin: real)
    requires ToolsAscii(ms)
    ensures Recover(ms, contextLimit, urgency, keepRecent, budget, margin).Some?
    ensures ToolsAscii(Recover(ms, contextLimit, urgency, keepRecent, budget, margin).value.messages)
  {
    AsciiNeverAborts(ms, contextLimit, urgency, keepRecent, budget, margin);
    hide WithinTarget, TruncateMessages, ShrunkMessages, ToolsAscii;
    TruncationKeepsAscii(ms, 6);
    TruncationKeepsAscii(ms, Tier1Keep(urgency, keepRecent));
    var tier1 := TruncateMessages(ms, Tier1Keep(urgency, keepRecent));
    ShrinkingKeepsAscii(tier1, Tier2Target(urgency, budget), Tier2Recent(urgency));
    TruncationKeepsAscii(Tier2Messages(ms, urgency, keepRecent, budget), 3);
  }

  /** The ladder is entered at its first tier: the context is too full, and the urgency leaves time for it. */
  ghost predicate EntersTiers(ms: seq<Message>, contextLimit: nat, urgency: Urgency, margin: real) {
    !WithinTarget(ms, contextLimit, margin) && urgency != Critical
  }

  /** The estimate lies between 95% of the limit and the critical threshold. */
  predicate NearlyCritical(m: Monitor, ms: seq<Message>) {
    m.contextLimit as real * 0.95 < m.Fullness(ms) as real < m.contextLimit as real * m.criticalThreshold
  }

  /**
   * With the monitor's own urgency, limit and margin, recovery enters its tiers exactly for an estimate
   * between 95% of the limit and the critical threshold. Anywhere else it finds nothing to do or
   * truncates to six, and never aborts.
   */
  lemma MonitorEntersTiersIff(m: Monitor, ms: seq<Message>, keepRecent: nat, budget: nat)
    requires m.UrgencyOf(ms).Some?
    ensures EntersTiers(ms, m.contextLimit, m.UrgencyOf(ms).value, m.safetyMargin) <==> NearlyCritical(m, ms)
    ensures !NearlyCritical(m, ms) ==>
      Recover(ms, m.contextLimit, m.UrgencyOf(ms).value, keepRecent, budget, m.safetyMargin) ==
        if WithinTarget(ms, m.contextLimit, m.safetyMargin) then Some(Recovery(ms, 0))
        else Some(Recovery(TruncateMessages(ms, 6), 3))
  {
    hide Estimate, TruncateMessages, Tier2Completes, Tier2Messages;
    if m.contextLimit > 0 {
      RatioOrProduct(m.Fullness(ms) as real, m.contextLimit as real, m.criticalThreshold);
    }
  }

  /** With a critical threshold of at most 0.95 the middle tiers are never reached. */
  lemma MonitorUrgencySkipsMiddleTiers(m: Monitor, ms: seq<Message>, keepRecent: nat, budget: nat)
    requires m.UrgencyOf(ms).Some? && m.criticalThreshold <= 0.95
    ensures var r := Recover(ms, m.contextLimit, m.UrgencyOf(ms).value, keepRecent, budget, m.safetyMargin);
      && r.Some?
      && r.value == if m.UrgencyOf(ms) == Some(Critical) && !WithinTarget(ms, m.contextLimit, m.safetyMargin)
                    then Recovery(TruncateMessages(ms, 6), 3)
                    else Recovery(ms, 0)
  {
    hide Estimate, TruncateMessages, Tier2Completes, Tier2Messages;
    MonitorEntersTiersIff(m, ms, keepRecent, budget);
    ProductGrows(m.contextLimit as real, m.criticalThreshold, 0.95);
  }

  lemma ProductGrows(a: real, b: real, c: real)
    requires a >= 0.0 && b <= c
    ensures a * b <= a * c
  {
  }

  /** A threshold of 1.0 leaves room: twelve messages that fill 96% of a small context end in the first tier. */
  lemma TwelveMessagesEndInFirstTier(text: Text, ms: seq<Message>, budget: nat)
    requires |text| == 304 && |ms| == 12 && forall i :: 0 <= i < 12 ==> ms[i] == UserMessage(text)
    ensures var m := Monitor(1000, 0.70, 0.90, 1.0, 0.75, 0.50, 1.0);
      && m.UrgencyOf(ms) == Some(Emergency)
      && Recover(ms, 1000, Emergency, 8, budget, 1.0) == Some(Recovery(ms[7..], 1))
  {
    hide RawTokens;
    SameMessagesWeigh(text, ms);
    SameMessagesWeigh(text, ms[7..]);
    assert TruncateMessages(ms, 5) == ms[7..];
    assert Estimate(ms, 1.0) == 960 && Estimate(ms[7..], 1.0) == 400;
  }

  lemma {:induction false} SameMessagesWeigh(text: Text, ms: seq<Message>)
    requires |text| == 304 && forall i :: 0 <= i < |ms| ==> ms[i] == UserMessage(text)
    ensures RawTokens(ms) == |ms| as real * 80.0
  {
    if ms != [] {
      SameMessagesWeigh(text, ms[1..]);
      var m := UserMessage(text);
      assert PartsTokens(m.contentParts, CHARS_PER_TOKEN) == 76.0 by { assert m.contentParts[1..] == []; }
      assert MessageTokens(ms[0]) == 80.0;
    }
  }
}
