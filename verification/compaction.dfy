/** Truncation, summarisation, shrinking of tool results, and the recovery ladder built from them. */
module Compaction {
  import opened Bytes
  import opened Messages
  import opened Transcripts
  import opened TokenEstimates
  import Utf8

  // ---- Truncation ----

  function LastN(ms: seq<Message>, n: nat): seq<Message> {
    ms[Max(|ms| - n, 0)..]
  }

  predicate HasSystemPrefix(ms: seq<Message>) { ms != [] && ms[0].role == System }

  function TruncateMessages(ms: seq<Message>, keepRecent: nat): seq<Message> {
    if |ms| <= keepRecent then ms
    else if keepRecent == 0 then
      if HasSystemPrefix(ms) then [ms[0]] else []
    else if HasSystemPrefix(ms) then
      [ms[0]] + ms[1..][Max(|ms| - 1 - keepRecent, 0)..]
    else
      ms[|ms| - keepRecent..]
  }

  /** In one formula: the leading System message, if any, and the last messages after it. */
  lemma TruncateFormula(ms: seq<Message>, keepRecent: nat)
    ensures TruncateMessages(ms, keepRecent) ==
      if HasSystemPrefix(ms) then [ms[0]] + LastN(ms[1..], keepRecent) else LastN(ms, keepRecent)
  {
  }

  lemma LastNComposes(ms: seq<Message>, a: nat, b: nat)
    ensures LastN(LastN(ms, a), b) == LastN(ms, Min(a, b))
  {
  }

  predicate SystemFirstOrNowhere(ms: seq<Message>) {
    HasSystemPrefix(ms) || forall i :: 0 <= i < |ms| ==> ms[i].role != System
  }

  ghost predicate TruncationsCompose(ms: seq<Message>) {
    forall a: nat, b: nat ::
      TruncateMessages(TruncateMessages(ms, a), b) == TruncateMessages(ms, Min(a, b))
  }

  lemma ComposesWithSystemFirst(ms: seq<Message>, a: nat, b: nat)
    requires SystemFirstOrNowhere(ms)
    ensures TruncateMessages(TruncateMessages(ms, a), b) == TruncateMessages(ms, Min(a, b))
  {
    TruncateFormula(ms, a);
    TruncateFormula(ms, Min(a, b));
    var first := TruncateMessages(ms, a);
    TruncateFormula(first, b);
    if HasSystemPrefix(ms) {
      LastNComposes(ms[1..], a, b);
      assert first[1..] == LastN(ms[1..], a);
    } else {
      LastNComposes(ms, a, b);
    }
  }

  /**
   * Truncating twice is truncating to the smaller number exactly when the first message is System,
   * or no message is.
   */
  lemma TruncationsComposeIff(ms: seq<Message>)
    ensures TruncationsCompose(ms) <==> SystemFirstOrNowhere(ms)
  {
    if SystemFirstOrNowhere(ms) {
      forall a: nat, b: nat
        ensures TruncateMessages(TruncateMessages(ms, a), b) == TruncateMessages(ms, Min(a, b))
      {
        ComposesWithSystemFirst(ms, a, b);
      }
    } else {
      var i :| 0 <= i < |ms| && ms[i].role == System;
      var a := |ms| - i;
      assert TruncateMessages(ms, a)[0] == ms[i];
      assert TruncateMessages(TruncateMessages(ms, a), 0) == [ms[i]];
      assert TruncateMessages(ms, Min(a, 0)) == [];
    }
  }

  /** Truncation never raises the token estimate, for any history. */
  lemma TruncationNeverRaisesEstimate(ms: seq<Message>, keepRecent: nat, margin: real)
    ensures Estimate(TruncateMessages(ms, keepRecent), margin) <= Estimate(ms, margin)
  {
    TruncateFormula(ms, keepRecent);
    var rest := if HasSystemPrefix(ms) then ms[1..] else ms;
    var cut := Max(|rest| - keepRecent, 0);
    assert rest == rest[..cut] + rest[cut..];
    RawTokensAppend(rest[..cut], rest[cut..]);
    RawTokensNonNegative(rest[..cut]);
    if HasSystemPrefix(ms) {
      assert ([ms[0]] + rest[cut..])[1..] == rest[cut..];
    }
    EstimateIsMonotone(TruncateMessages(ms, keepRecent), ms, margin);
  }

  /** Truncating a paired transcript leaves it paired exactly when the cut does not fall in front of a tool result. */
  lemma TruncationKeepsPairingIff(ms: seq<Message>, keepRecent: nat)
    requires Paired(ms)
    requires HasSystemPrefix(ms) ==> Plain(ms[0])
    ensures var cut := if HasSystemPrefix(ms) then Max(|ms| - keepRecent, 1) else Max(|ms| - keepRecent, 0);
      Paired(TruncateMessages(ms, keepRecent)) <==> cut == |ms| || ms[cut].role != Tool
  {
    var from := if HasSystemPrefix(ms) then 1 else 0;
    var cut := Max(|ms| - keepRecent, from);
    TruncateFormula(ms, keepRecent);
    PairedSuffixIff(ms, cut);
    if from == 1 {
      assert LastN(ms[1..], keepRecent) == ms[cut..];
      ShiftPaired([ms[0]], ms[cut..], 0);
    } else {
      assert LastN(ms, keepRecent) == ms[cut..];
    }
  }

  // ---- Summaries ----

  function KeepText(parts: seq<ContentPart>): seq<ContentPart> {
    if parts == [] then []
    else (if parts[0].TextPart? then [parts[0]] else []) + KeepText(parts[1..])
  }

  function WithoutImages(m: Message): Message {
    if m.HasImages() then m.(contentParts := KeepText(m.contentParts)) else m
  }

  function StripImages(ms: seq<Message>): seq<Message> { seq(|ms|, i requires 0 <= i < |ms| => WithoutImages(ms[i])) }

  lemma {:induction false} KeepTextKeepsNoImage(parts: seq<ContentPart>)
    ensures forall i :: 0 <= i < |KeepText(parts)| ==> KeepText(parts)[i].TextPart? && KeepText(parts)[i] in parts
  {
    if parts != [] { KeepTextKeepsNoImage(parts[1..]); }
  }

  lemma {:induction false} KeepTextKeepsAllText(parts: seq<ContentPart>)
    ensures PartsText(KeepText(parts)) == PartsText(parts) && Images(KeepText(parts)) == 0
  {
    if parts != [] {
      KeepTextKeepsAllText(parts[1..]);
      if parts[0].TextPart? {
        assert KeepText(parts) == [parts[0]] + KeepText(parts[1..]);
      } else {
        assert KeepText(parts) == KeepText(parts[1..]);
      }
    }
  }

  /** Stripping takes the images and nothing else. */
  lemma StrippingKeepsText(ms: seq<Message>, i: nat)
    requires i < |ms|
    ensures |StripImages(ms)| == |ms|
    ensures var m, stripped := ms[i], StripImages(ms)[i];
      && stripped == m.(contentParts := stripped.contentParts) && !stripped.HasImages()
      && PartsText(stripped.contentParts) == PartsText(m.contentParts)
      && (!m.HasImages() ==> stripped == m)
  {
    KeepTextKeepsAllText(ms[i].contentParts);
    KeepTextKeepsNoImage(ms[i].contentParts);
  }

  method StripImagesFromMessages(messages: array<Message>)
    modifies messages
    ensures messages[..] == StripImages(old(messages[..]))
    ensures forall i :: 0 <= i < messages.Length ==> !messages[i].HasImages()
  {
    for i := 0 to messages.Length
      invariant forall j :: 0 <= j < i ==> messages[j] == WithoutImages(old(messages[j])) && !messages[j].HasImages()
      invariant forall j :: i <= j < messages.Length ==> messages[j] == old(messages[j])
    {
      if messages[i].HasImages() {
        KeepTextKeepsNoImage(messages[i].contentParts);
        messages[i] := messages[i].(contentParts := KeepText(messages[i].contentParts));
      }
    }
  }

  function SummaryMessage(summary: Text): Message { SystemMessage(Ascii("[Conversation Summary]\n") + summary) }

  function SummarizeMessages(ms: seq<Message>, keepRecent: nat, summary: Text): seq<Message> {
    if ms == [] then [SummaryMessage(summary)]
    else if |ms| <= keepRecent then ms
    else if HasSystemPrefix(ms) then
      StripImages([ms[0], SummaryMessage(summary)] + ms[1..][Max(|ms| - 1 - keepRecent, 0)..])
    else
      StripImages([SummaryMessage(summary)] + ms[|ms| - keepRecent..])
  }

  /** A summary is a truncation with one message inserted after the leading System message and images stripped. */
  lemma SummaryIsTruncationPlusOne(ms: seq<Message>, keepRecent: nat, summary: Text)
    requires |ms| > keepRecent
    ensures var at := if HasSystemPrefix(ms) then 1 else 0;
      var kept := StripImages(TruncateMessages(ms, keepRecent));
      at <= |kept| && SummarizeMessages(ms, keepRecent, summary) == kept[..at] + [SummaryMessage(summary)] + kept[at..]
  {
    if HasSystemPrefix(ms) {
      var tail := ms[1..][Max(|ms| - 1 - keepRecent, 0)..];
      assert TruncateMessages(ms, keepRecent) == [ms[0]] + tail by { TruncateFormula(ms, keepRecent); }
      assert [ms[0], SummaryMessage(summary)] + tail == [ms[0]] + [SummaryMessage(summary)] + tail;
      InsertThenStrip([ms[0]], SummaryMessage(summary), tail);
    } else {
      var tail := ms[|ms| - keepRecent..];
      assert TruncateMessages(ms, keepRecent) == [] + tail;
      assert [SummaryMessage(summary)] + tail == [] + [SummaryMessage(summary)] + tail;
      InsertThenStrip([], SummaryMessage(summary), tail);
    }
  }

  lemma InsertThenStrip(front: seq<Message>, m: Message, tail: seq<Message>)
    requires !m.HasImages()
    ensures var kept := StripImages(front + tail);
      StripImages(front + [m] + tail) == kept[..|front|] + [m] + kept[|front|..]
  {
  }

  /** Keeping one message of a call and its result leaves the result without its call. */
  lemma KeepingOneBreaksPairing(content: Text, call: ToolCall, result: Text)
    ensures var ms := [AssistantWithTools(content, [call]), ToolResult(call.id, result)];
      Paired(ms) && !Paired(TruncateMessages(ms, 1))
  {
    var ask, answer := AssistantWithTools(content, [call]), ToolResult(call.id, result);
    BlockIsPaired(ask, [answer]);
    assert [ask] + [answer] == [ask, answer];
    TruncationKeepsPairingIff([ask, answer], 1);
  }

  // ---- Shrinking tool results ----

  function ToolResultsBefore(ms: seq<Message>, i: nat): nat
    requires i <= |ms|
  {
    if i == 0 then 0 else ToolResultsBefore(ms, i - 1) + if ms[i - 1].IsToolResult() then 1 else 0
  }

  /** The byte budget of the tool result at position i: the newest `recent` get all of it, older ones a quarter. */
  function ShrinkBudget(ms: seq<Message>, i: nat, target: nat, recent: nat): nat
    requires i < |ms|
  {
    if ToolResultsBefore(ms, i) >= Max(ToolResultsBefore(ms, |ms|) - recent, 0) then target else target / 4
  }

  function ShrunkContent(content: Text, budget: nat): Text
    requires budget <= |content|
  {
    var kept := content[..budget];
    Format([kept, Ascii("\n...[shrunk from "), Decimal(|content|), Ascii(" to "), Decimal(budget), Ascii(" bytes]")])
  }

  /** A shrink that completes leaves valid text valid. */
  lemma ShrinkingKeepsValidText(content: Text, budget: nat)
    requires budget <= |content| && Utf8.ValidUtf8(content) && Utf8.IsCharBoundary(content, budget)
    ensures Utf8.ValidUtf8(ShrunkContent(content, budget))
  {
    hide Utf8.ValidUtf8, Utf8.IsCharBoundary, Decimal, Ascii, Format;
    Utf8.ValidPrefixIffBoundary(content, budget);
    Utf8.LiteralIsValid("\n...[shrunk from ");
    Utf8.LiteralIsValid(" to ");
    Utf8.LiteralIsValid(" bytes]");
    Utf8.DecimalIsValid(|content|);
    Utf8.DecimalIsValid(budget);
    var kept := content[..budget];
    Utf8.FormatIsValid(
      [kept, Ascii("\n...[shrunk from "), Decimal(|content|), Ascii(" to "), Decimal(budget), Ascii(" bytes]")]);
  }

  lemma FormatSix(a: Text, b: Text, c: Text, d: Text, e: Text, f: Text)
    ensures |Format([a, b, c, d, e, f])| == |a| + |b| + |c| + |d| + |e| + |f|
  {
    assert |Format([f])| == |f| by { assert [f][1..] == []; }
    assert |Format([e, f])| == |e| + |f| by { assert [e, f][1..] == [f]; }
    assert |Format([d, e, f])| == |d| + |e| + |f| by { assert [d, e, f][1..] == [e, f]; }
    assert |Format([c, d, e, f])| == |c| + |d| + |e| + |f| by { assert [c, d, e, f][1..] == [d, e, f]; }
    assert |Format([b, c, d, e, f])| == |b| + |c| + |d| + |e| + |f| by { assert [b, c, d, e, f][1..] == [c, d, e, f]; }
    assert [a, b, c, d, e, f][1..] == [b, c, d, e, f];
  }

  /** Shrinking makes the content smaller exactly when it was over budget by more than the note that is added. */
  lemma ShrinkReducesIff(content: Text, budget: nat)
    requires budget <= |content|
    ensures |ShrunkContent(content, budget)| < |content|
      <==> |content| - budget > 28 + |Decimal(|content|)| + |Decimal(budget)|
  {
    var a, b, c := Ascii("\n...[shrunk from "), Ascii(" to "), Ascii(" bytes]");
    FormatSix(content[..budget], a, Decimal(|content|), b, Decimal(budget), c);
    assert |a| == 17 && |b| == 4 && |c| == 7;
  }

  /** A result that is one byte over its budget comes out 35 bytes longer. */
  lemma OneByteOverGrows(content: Text)
    requires |content| == 5_121
    ensures |ShrunkContent(content, 5_120)| == 5_156
  {
    FormatSix(
      content[..5_120], Ascii("\n...[shrunk from "), Decimal(5_121), Ascii(" to "), Decimal(5_120), Ascii(" bytes]"));
    assert |Decimal(5_121)| == 4 by { assert |Decimal(512)| == 3 by { assert |Decimal(51)| == 2; } }
    assert |Decimal(5_120)| == 4 by { assert |Decimal(512)| == 3 by { assert |Decimal(51)| == 2; } }
  }

  function ShrunkMessage(ms: seq<Message>, i: nat, target: nat, recent: nat): Message
    requires i < |ms|
  {
    var budget := ShrinkBudget(ms, i, target, recent);
    if ms[i].IsToolResult() && |ms[i].content| > budget
    then ms[i].WithContent(ShrunkContent(ms[i].content, budget))
    else ms[i]
  }

  /** `String::truncate` aborts unless the new length falls on a character boundary. */
  predicate CutsOnBoundary(ms: seq<Message>, i: nat, target: nat, recent: nat)
    requires i < |ms|
  {
    var budget := ShrinkBudget(ms, i, target, recent);
    ms[i].IsToolResult() && |ms[i].content| > budget ==> Utf8.IsCharBoundary(ms[i].content, budget)
  }

  ghost predicate ShrinkCompletes(ms: seq<Message>, target: nat, recent: nat) {
    forall i :: 0 <= i < |ms| ==> CutsOnBoundary(ms, i, target, recent)
  }

  function ShrunkMessages(ms: seq<Message>, target: nat, recent: nat): seq<Message> {
    seq(|ms|, i requires 0 <= i < |ms| => ShrunkMessage(ms, i, target, recent))
  }

  /** The budget-cutting loop; None is the abort of `String::truncate`. */
  method ShrinkToolResultsProgressive(ms: seq<Message>, target: nat, recent: nat) returns (r: Option<seq<Message>>)
    ensures r.Some? <==> ShrinkCompletes(ms, target, recent)
    ensures r.Some? ==> r.value == ShrunkMessages(ms, target, recent)
  {
    hide ShrunkContent, Utf8.IsCharBoundary;
    var total := 0;
    for i := 0 to |ms|
      invariant total == ToolResultsBefore(ms, i)
    {
      if ms[i].IsToolResult() { total := total + 1; }
    }
    if total == 0 {
      NoToolResults(ms, |ms|);
      assert ShrunkMessages(ms, target, recent) == ms;
      return Some(ms);
    }
    var messages := ms;
    var pos := 0;
    for i := 0 to |ms|
      invariant pos == ToolResultsBefore(ms, i)
      invariant |messages| == |ms| && messages[i..] == ms[i..]
      invariant forall j :: 0 <= j < i ==> CutsOnBoundary(ms, j, target, recent)
      invariant forall j :: 0 <= j < i ==> messages[j] == ShrunkMessage(ms, j, target, recent)
    {
      assert messages[i] == messages[i..][0] == ms[i..][0] == ms[i];
      if ms[i].IsToolResult() {
        var isRecent := pos >= Max(total - recent, 0);
        var budget := if isRecent then target else target / 4;
        var content := ms[i].content;
        if |content| > budget {
          if !Utf8.IsCharBoundary(content, budget) {
            assert !CutsOnBoundary(ms, i, target, recent);
            return None;
          }
          messages := messages[i := ms[i].WithContent(ShrunkContent(content, budget))];
        }
        pos := pos + 1;
      }
    }
    assert messages == ShrunkMessages(ms, target, recent);
    r := Some(messages);
  }

  lemma {:induction false} NoToolResults(ms: seq<Message>, n: nat)
    requires n <= |ms| && ToolResultsBefore(ms, n) == 0
    ensures forall i :: 0 <= i < n ==> !ms[i].IsToolResult()
  {
    if n > 0 { NoToolResults(ms, n - 1); }
  }
}
