/** When a recovered conversation still has every call answered. */
module RecoveryPairing {
  import opened Bytes
  import opened Messages
  import opened Transcripts
  import opened TokenEstimates
  import opened Compaction
  import opened RecoveryLadder
  import opened ResultSync

  /** Where the kept messages begin after one truncation, behind a leading System message. */
  function CutFor(ms: seq<Message>, keepRecent: nat): nat {
    Max(|ms| - keepRecent, if HasSystemPrefix(ms) then 1 else 0)
  }

  /** And after a second one; it may find a System message in front that the first one did not. */
  function SecondCut(ms: seq<Message>, first: nat, keepRecent: nat): nat
    requires first <= |ms|
  {
    Max(|ms| - keepRecent, first + if !HasSystemPrefix(ms) && first < |ms| && ms[first].role == System then 1 else 0)
  }

  /** Where the messages begin that a recovery keeps, from the tests it makes on the way. */
  ghost function RecoveryCut(ms: seq<Message>, contextLimit: nat, urgency: Urgency, keepRecent: nat, budget: nat,
                             margin: real): nat
  {
    var tier1 := TruncateMessages(ms, Tier1Keep(urgency, keepRecent));
    var first := CutFor(ms, Tier1Keep(urgency, keepRecent));
    if WithinTarget(ms, contextLimit, margin) then 0
    else if urgency == Critical then CutFor(ms, 6)
    else if WithinTarget(tier1, contextLimit, margin) then first
    else if WithinTarget(Tier2Messages(ms, urgency, keepRecent, budget), contextLimit, margin) then first
    else SecondCut(ms, first, 3)
  }

  ghost predicate SameSlots(a: seq<Message>, b: seq<Message>) {
    |a| == |b| && forall i :: 0 <= i < |a| ==> SameSlot(a[i], b[i])
  }

  /** Pairing does not depend on texts. */
  lemma {:induction false} SlotsPairing(a: seq<Message>, b: seq<Message>, i: nat)
    requires SameSlots(a, b) && i <= |a|
    ensures PairedFrom(a, i) <==> PairedFrom(b, i)
    decreases |a| - i
  {
    if i < |a| {
      assert SameSlot(a[i], b[i]);
      SlotsPairing(a, b, i + 1);
      if a[i].HasToolCalls() && i + 1 + |a[i].toolCalls.value| <= |a| {
        SlotsAnswer(a, b, i);
        SlotsPairing(a, b, i + 1 + |a[i].toolCalls.value|);
      }
    }
  }

  lemma SlotsAnswer(a: seq<Message>, b: seq<Message>, i: nat)
    requires SameSlots(a, b) && i < |a| && SameSlot(a[i], b[i])
    requires a[i].HasToolCalls() && i + 1 + |a[i].toolCalls.value| <= |a|
    ensures BlockAt(a, i) <==> BlockAt(b, i)
  {
    var calls := a[i].toolCalls.value;
    forall j | 0 <= j < |calls|
      ensures AnswersCall(calls[j], a[i + 1..i + 1 + |calls|][j])
        <==> AnswersCall(calls[j], b[i + 1..i + 1 + |calls|][j])
    {
      assert SameSlot(a[i + 1 + j], b[i + 1 + j]);
    }
  }

  lemma SimilarPairing(a: seq<Message>, b: seq<Message>)
    requires Similar(a, b)
    ensures Paired(a) <==> Paired(b)
  {
    forall i | 0 <= i < |a| ensures SameSlot(a[i], b[i]) { assert SameUpToToolContent(a[i], b[i]); }
    SlotsPairing(a, b, 0);
  }

  /** A suffix behind a plain message is paired exactly when the suffix is. */
  lemma SelectedIsPairedIff(ms: seq<Message>, lead: nat, cut: nat)
    requires Paired(ms) && lead <= cut <= |ms| && (lead < cut ==> Plain(ms[lead]))
    ensures Paired(Selected(ms, lead, cut)) <==> cut == |ms| || ms[cut].role != Tool
  {
    PairedSuffixIff(ms, cut);
    if lead < cut {
      ShiftPaired([ms[lead]], ms[cut..], 0);
    } else {
      assert Selected(ms, lead, cut) == ms[cut..];
    }
  }

  lemma FirstCut(ms: seq<Message>, keepRecent: nat) returns (lead: nat)
    ensures lead <= CutFor(ms, keepRecent) <= |ms| && (lead < CutFor(ms, keepRecent) <==> HasSystemPrefix(ms))
    ensures lead < CutFor(ms, keepRecent) ==> lead == 0
    ensures TruncateMessages(ms, keepRecent) == Selected(ms, lead, CutFor(ms, keepRecent))
  {
    var cut;
    lead, cut := TruncationSelects(ms, keepRecent);
  }

  /** The third tier's two truncations keep the messages from the second cut on. */
  lemma TwoCuts(ms: seq<Message>, first: nat, second: nat) returns (lead: nat)
    ensures var cut := SecondCut(ms, CutFor(ms, first), second);
      && lead <= cut <= |ms| && (lead < cut ==> ms[lead].role == System)
      && TruncateMessages(TruncateMessages(ms, first), second) == Selected(ms, lead, cut)
  {
    hide TruncateMessages;
    var lead1 := FirstCut(ms, first);
    var cut;
    lead, cut := SelectedTruncates(ms, lead1, CutFor(ms, first), second);
  }

  /** What the ladder answers is, up to tool texts, the end of the history from the recovery cut on. */
  lemma RecoveredSelection(ms: seq<Message>, contextLimit: nat, urgency: Urgency, keepRecent: nat, budget: nat,
                           margin: real)
    returns (lead: nat)
    requires Recover(ms, contextLimit, urgency, keepRecent, budget, margin).Some?
    ensures var result := Recover(ms, contextLimit, urgency, keepRecent, budget, margin).value.messages;
      var cut := RecoveryCut(ms, contextLimit, urgency, keepRecent, budget, margin);
      && lead <= cut <= |ms| && (lead < cut ==> ms[lead].role == System)
      && Similar(Selected(ms, lead, cut), result)
  {
    hide TruncateMessages, WithinTarget, ShrinkCompletes;
    var k := Tier1Keep(urgency, keepRecent);
    if WithinTarget(ms, contextLimit, margin) {
      lead := 0;
      assert Selected(ms, 0, 0) == ms;
    } else if urgency == Critical {
      lead := FirstCut(ms, 6);
    } else {
      var tier1, tier2 := TruncateMessages(ms, k), Tier2Messages(ms, urgency, keepRecent, budget);
      ShrinkingKeepsSimilar(tier1, tier1, Tier2Target(urgency, budget), Tier2Recent(urgency));
      if WithinTarget(tier1, contextLimit, margin) || WithinTarget(tier2, contextLimit, margin) {
        lead := FirstCut(ms, k);
      } else {
        lead := TwoCuts(ms, k, 3);
        TruncationKeepsSimilar(tier1, tier2, 3);
      }
    }
  }

  predicate PlainSystems(ms: seq<Message>) { forall i :: 0 <= i < |ms| && ms[i].role == System ==> Plain(ms[i]) }

  /** The first message kept behind the System message in front is not a tool result. */
  ghost predicate CutsClean(ms: seq<Message>, contextLimit: nat, urgency: Urgency, keepRecent: nat, budget: nat,
                            margin: real)
  {
    var cut := RecoveryCut(ms, contextLimit, urgency, keepRecent, budget, margin);
    cut < |ms| ==> ms[cut].role != Tool
  }

  /**
   * A recovery of a paired history is paired exactly when the first message it keeps, behind the
   * System message in front, is not a tool result.
   */
  lemma RecoveryKeepsPairingIff(ms: seq<Message>, contextLimit: nat, urgency: Urgency, keepRecent: nat, budget: nat,
                                margin: real)
    requires Paired(ms) && PlainSystems(ms)
    requires Recover(ms, contextLimit, urgency, keepRecent, budget, margin).Some?
    ensures Paired(Recover(ms, contextLimit, urgency, keepRecent, budget, margin).value.messages)
      <==> CutsClean(ms, contextLimit, urgency, keepRecent, budget, margin)
    ensures PlainSystems(Recover(ms, contextLimit, urgency, keepRecent, budget, margin).value.messages)
  {
    hide Recover, RecoveryCut, PairedFrom;
    var result := Recover(ms, contextLimit, urgency, keepRecent, budget, margin).value.messages;
    var lead := RecoveredSelection(ms, contextLimit, urgency, keepRecent, budget, margin);
    var cut := RecoveryCut(ms, contextLimit, urgency, keepRecent, budget, margin);
    SimilarPairing(Selected(ms, lead, cut), result);
    SelectedIsPairedIff(ms, lead, cut);
    forall i | 0 <= i < |result| && result[i].role == System ensures Plain(result[i]) {
      assert SameUpToToolContent(Selected(ms, lead, cut)[i], result[i]);
    }
  }

  /** Two calls in one batch, two more exchanges, and a long question. */
  function TwoCallsThenTalk(calls: seq<ToolCall>, texts: seq<Text>, question: Text): seq<Message>
    requires |calls| == 2 && |texts| == 6
  {
    [UserMessage(texts[0]), AssistantWithTools(texts[1], calls),
     ToolResult(calls[0].id, texts[2]), ToolResult(calls[1].id, texts[3]),
     AssistantMessage(texts[4]), UserMessage(texts[5]), AssistantMessage(texts[4]), UserMessage(question)]
  }

  /**
   * With the default limit and margin, a critical recovery of this paired history leaves its
   * results without their call.
   */
  lemma SixMessagesBreakPairing(calls: seq<ToolCall>, texts: seq<Text>, question: Text, keepRecent: nat, budget: nat)
    requires |calls| == 2 && |texts| == 6 && |question| >= 600_000
    ensures Paired(TwoCallsThenTalk(calls, texts, question))
    ensures var r := Recover(TwoCallsThenTalk(calls, texts, question), 180_000, Critical, keepRecent, budget, 1.2);
      r.Some? && !Paired(r.value.messages)
  {
    var ms := TwoCallsThenTalk(calls, texts, question);
    assert PairedFrom(ms, 7) && PairedFrom(ms, 6);
    assert PairedFrom(ms, 5) && PairedFrom(ms, 4);
    assert BlockAt(ms, 1) by { assert ms[2..4] == [ms[2], ms[3]]; }
    assert PairedFrom(ms, 1);
    LongTextFills(ms, 7, 0.0);
    assert !WithinTarget(ms, 180_000, 1.2);
    RecoveryKeepsPairingIff(ms, 180_000, Critical, keepRecent, budget, 1.2);
  }
}
