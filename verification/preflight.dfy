/** The guard that runs before each provider call and trims tool results in place. */
module Preflight {
  import opened Bytes
  import opened Messages
  import opened TokenEstimates
  import Utf8

  datatype PreflightAction = Fits | Trimmed | NeedsCompaction

  const COMPACTED: Text := Ascii("[compacted]")

  function ContextBudget(m: Monitor): nat { ToUsize(m.contextLimit as real * m.inputHeadroomRatio) }

  function SingleResultTokens(m: Monitor): nat { ToUsize(m.contextLimit as real * m.singleToolResultShare) }

  function SingleResultCap(m: Monitor): nat {
    ToUsize(SingleResultTokens(m) as real * TOOL_RESULT_CHARS_PER_TOKEN)
  }

  function CompactionLimit(m: Monitor): nat {
    Min(ContextBudget(m), ToUsize(m.contextLimit as real * m.emergencyThreshold))
  }

  /** With the default settings a request may take 135000 tokens, in the second pass and at the final test. */
  lemma DefaultLimits(m: Monitor)
    requires m.contextLimit == 180_000 && m.inputHeadroomRatio == 0.75 && m.emergencyThreshold == 0.90
    ensures ContextBudget(m) == 135_000 && CompactionLimit(m) == 135_000
  {
  }

  // ---- Pass 1: cap single results ----

  function Head(content: Text, cap: nat): Text { Utf8.Truncated(content, cap * 7 / 10) }

  function TailEnd(content: Text, cap: nat): Text { Utf8.TruncatedTail(content, cap * 3 / 10) }

  predicate Oversized(m: Message, cap: nat) { m.role == Tool && |m.content| > cap }

  /** Head and tail are disjoint pieces of the content, and the reported number is what lies between them. */
  lemma HeadAndTailAreDisjoint(content: Text, cap: nat)
    requires |content| > cap
    ensures |Head(content, cap)| + |TailEnd(content, cap)| <= |content|
    ensures var dropped := |content| - |Head(content, cap)| - |TailEnd(content, cap)|;
      content
        == Head(content, cap) + content[|Head(content, cap)|..|Head(content, cap)| + dropped] + TailEnd(content, cap)
  {
    var start := Utf8.CeilBoundary(content, |content| - cap * 3 / 10);
    var end := Utf8.FloorBoundary(content, cap * 7 / 10);
    assert content == content[..end] + content[end..start] + content[start..];
  }

  function CappedContent(content: Text, cap: nat): Text
    requires |content| > cap
  {
    HeadAndTailAreDisjoint(content, cap);
    var head, tail := Head(content, cap), TailEnd(content, cap);
    Format([head, Ascii("\n...[truncated "), Decimal(|content| - |head| - |tail|), Ascii(" bytes]...\n"), tail])
  }

  /**
   * A capped result keeps seven tenths of the cap from the front and three tenths from the end, up to three
   * bytes less each, around a note that names the bytes between them.
   */
  lemma CappedShares(content: Text, cap: nat) returns (head: nat, tail: nat)
    requires |content| > cap && Utf8.ValidUtf8(content)
    ensures cap * 7 / 10 - 3 <= head <= cap * 7 / 10 && cap * 3 / 10 - 3 <= tail <= cap * 3 / 10
    ensures head + tail <= cap
    ensures CappedContent(content, cap) == content[..head] + Ascii("\n...[truncated ")
        + Decimal(|content| - head - tail) + Ascii(" bytes]...\n") + content[|content| - tail..]
  {
    hide Decimal, Ascii, Utf8.ValidUtf8, Utf8.Truncated, Utf8.TruncatedTail, Format;
    Utf8.TruncationKeepsLongestPrefix(content, cap * 7 / 10);
    Utf8.TruncationKeepsLongestSuffix(content, cap * 3 / 10);
    HeadAndTailAreDisjoint(content, cap);
    EndsOfContent(content, cap);
    hide Head, TailEnd;
    head, tail := |Head(content, cap)|, |TailEnd(content, cap)|;
    var a, b := Ascii("\n...[truncated "), Ascii(" bytes]...\n");
    FormatFive(content[..head], a, Decimal(|content| - head - tail), b, content[|content| - tail..]);
  }

  lemma EndsOfContent(content: Text, cap: nat)
    requires |content| > cap
    ensures |Head(content, cap)| <= |content| && content[..|Head(content, cap)|] == Head(content, cap)
    ensures |TailEnd(content, cap)| <= |content|
      && content[|content| - |TailEnd(content, cap)|..] == TailEnd(content, cap)
  {
  }

  lemma FormatFive(a: Text, b: Text, c: Text, d: Text, e: Text)
    ensures Format([a, b, c, d, e]) == a + b + c + d + e
  {
    assert Format([e]) == e;
    assert Format([d, e]) == d + e by { assert [d, e][1..] == [e]; }
    assert Format([c, d, e]) == c + d + e by { assert [c, d, e][1..] == [d, e]; }
    assert Format([b, c, d, e]) == b + c + d + e by { assert [b, c, d, e][1..] == [c, d, e]; }
    assert [a, b, c, d, e][1..] == [b, c, d, e];
  }

  /** The share of a single result is counted in tokens of two bytes: 180000 bytes with the default settings. */
  lemma CapIsTwoBytesPerToken(m: Monitor)
    ensures SingleResultCap(m) == 2 * SingleResultTokens(m)
    ensures m.contextLimit == 180_000 && m.singleToolResultShare == 0.5 ==> SingleResultCap(m) == 180_000
  {
    hide SingleResultTokens;
    assert SingleResultTokens(m) as real * 2.0 == (2 * SingleResultTokens(m)) as real;
    if m.contextLimit == 180_000 && m.singleToolResultShare == 0.5 { DefaultShare(m); }
  }

  lemma DefaultShare(m: Monitor)
    requires m.contextLimit == 180_000 && m.singleToolResultShare == 0.5
    ensures SingleResultTokens(m) == 90_000
  {
  }

  /** Capping never leaves half a character behind. */
  lemma CappingKeepsValidText(content: Text, cap: nat)
    requires |content| > cap && Utf8.ValidUtf8(content)
    ensures Utf8.ValidUtf8(CappedContent(content, cap))
  {
    hide Utf8.ValidUtf8, Decimal, Ascii, Format, Head, TailEnd;
    var head, tail := Head(content, cap), TailEnd(content, cap);
    HeadAndTailAreDisjoint(content, cap);
    EndsAreValid(content, cap);
    Utf8.LiteralIsValid("\n...[truncated ");
    Utf8.LiteralIsValid(" bytes]...\n");
    Utf8.DecimalIsValid(|content| - |head| - |tail|);
    Utf8.FiveAreValid(head, Ascii("\n...[truncated "), Decimal(|content| - |head| - |tail|), Ascii(" bytes]...\n"),
      tail);
  }

  lemma EndsAreValid(content: Text, cap: nat)
    requires Utf8.ValidUtf8(content)
    ensures Utf8.ValidUtf8(Head(content, cap)) && Utf8.ValidUtf8(TailEnd(content, cap))
  {
    hide Utf8.ValidUtf8, Utf8.Truncated, Utf8.TruncatedTail;
    Utf8.TruncatedIsValid(content, cap * 7 / 10);
    Utf8.TruncatedIsValid(content, cap * 3 / 10);
  }

  function Capped(m: Message, cap: nat): Message {
    if Oversized(m, cap) then m.WithContent(CappedContent(m.content, cap)) else m
  }

  function CapAll(ms: seq<Message>, cap: nat): seq<Message> {
    seq(|ms|, i requires 0 <= i < |ms| => Capped(ms[i], cap))
  }

  // ---- Pass 2: replace the oldest results ----

  predicate Compactable(m: Message) { m.role == Tool && m.content != COMPACTED }

  /** The positions of the results that are not compacted yet, oldest first, among the first n messages. */
  function Slots(ms: seq<Message>, n: nat): seq<nat>
    requires n <= |ms|
  {
    if n == 0 then []
    else Slots(ms, n - 1) + if Compactable(ms[n - 1]) then [n - 1] else []
  }

  lemma {:induction false} SlotsAreTheCompactables(ms: seq<Message>, n: nat)
    requires n <= |ms|
    ensures forall k :: 0 <= k < |Slots(ms, n)| ==> Slots(ms, n)[k] < n && Compactable(ms[Slots(ms, n)[k]])
    ensures forall j, k :: 0 <= j < k < |Slots(ms, n)| ==> Slots(ms, n)[j] < Slots(ms, n)[k]
    ensures forall i :: 0 <= i < n && Compactable(ms[i]) ==> i in Slots(ms, n)
  {
    if n > 0 { SlotsAreTheCompactables(ms, n - 1); }
  }

  /** The messages with the first k compactable results replaced. */
  function CompactOldest(ms: seq<Message>, slots: seq<nat>, k: nat): seq<Message>
    requires k <= |slots|
  {
    seq(|ms|, i requires 0 <= i < |ms| => if i in slots[..k] then ms[i].WithContent(COMPACTED) else ms[i])
  }

  // ---- The contract ----

  /** k is the length of a shortest oldest-first prefix that fits, or all slots when none does. */
  ghost predicate ShortestFittingPrefix(m: Monitor, ms: seq<Message>, slots: seq<nat>, k: nat)
  {
    && k <= |slots|
    && (forall j :: 0 <= j < k ==> Estimate(CompactOldest(ms, slots, j), m.safetyMargin) > ContextBudget(m))
    && (k == |slots| || Estimate(CompactOldest(ms, slots, k), m.safetyMargin) <= ContextBudget(m))
  }

  /** There is never more than one such k: it determines what the second pass does. */
  lemma ShortestFittingPrefixIsUnique(m: Monitor, ms: seq<Message>, slots: seq<nat>, j: nat, k: nat)
    requires ShortestFittingPrefix(m, ms, slots, j) && ShortestFittingPrefix(m, ms, slots, k)
    ensures j == k
  {
  }

  /** What the first two passes make of the messages, when the second one replaces k results. */
  ghost predicate TrimmedTo(m: Monitor, before: seq<Message>, after: seq<Message>, k: nat) {
    var capped := CapAll(before, SingleResultCap(m));
    var slots := Slots(capped, |capped|);
    ShortestFittingPrefix(m, capped, slots, k) && after == CompactOldest(capped, slots, k)
  }

  /** The tool text that is sent: compacted before the cutoff, and capped or as it was from there on. */
  predicate IsSentAs(before: Message, after: Message, cap: nat, compacted: bool) {
    if before.role != Tool then after == before
    else
      && after.content == (if compacted then COMPACTED
                           else if |before.content| > cap then CappedContent(before.content, cap)
                           else before.content)
      && after == before.(content := after.content, contentParts := after.contentParts)
  }

  /**
   * What trimming makes of each message: up to a cutoff all tool texts are replaced by the marker, and behind
   * it long ones are capped. The cutoff is 0 if capping is enough; if the result still does not fit, no tool
   * text is left.
   */
  lemma TrimmedShape(m: Monitor, before: seq<Message>, after: seq<Message>, k: nat) returns (cutoff: nat)
    requires TrimmedTo(m, before, after, k)
    ensures cutoff <= |before| == |after|
    ensures forall i :: 0 <= i < |before| ==> IsSentAs(before[i], after[i], SingleResultCap(m), i < cutoff)
    ensures Estimate(CapAll(before, SingleResultCap(m)), m.safetyMargin) <= ContextBudget(m) ==> cutoff == 0
    ensures Estimate(after, m.safetyMargin) > ContextBudget(m) ==>
      forall i :: 0 <= i < |before| && before[i].role == Tool ==> after[i].content == COMPACTED
  {
    hide Estimate, SingleResultCap, ContextBudget, CappedContent, Slots;
    var cap := SingleResultCap(m);
    var capped := CapAll(before, cap);
    var slots := Slots(capped, |capped|);
    SlotsAreTheCompactables(capped, |capped|);
    CompactNone(capped, slots);
    cutoff := if k == 0 then 0 else slots[k - 1] + 1;
    forall i | 0 <= i < |before| ensures IsSentAs(before[i], after[i], cap, i < cutoff) {
      TrimmedAt(before, cap, k, i);
    }
    if k == |slots| {
      forall i | 0 <= i < |before| && before[i].role == Tool ensures after[i].content == COMPACTED {
        TrimmedAt(before, cap, k, i);
        assert capped[i] == Capped(before[i], cap);
        if Compactable(capped[i]) { assert i in slots; }
        AllCompacted(before, cap, i);
      }
    }
  }

  lemma TrimmedAt(before: seq<Message>, cap: nat, k: nat, i: nat)
    requires var slots := Slots(CapAll(before, cap), |before|); k <= |slots| && i < |before|
    ensures var capped := CapAll(before, cap);
      var slots := Slots(capped, |before|);
      && (k > 0 ==> slots[k - 1] < |before|)
      && IsSentAs(before[i], CompactOldest(capped, slots, k)[i], cap, k > 0 && i <= slots[k - 1])
  {
    hide CappedContent, Slots;
    var capped := CapAll(before, cap);
    var slots := Slots(capped, |before|);
    SlotsAreTheCompactables(capped, |before|);
    assert capped[i] == Capped(before[i], cap);
    if i in slots[..k] {
      var j :| 0 <= j < k && slots[j] == i;
      assert Compactable(capped[slots[j]]);
    }
    if k > 0 && i <= slots[k - 1] && Compactable(capped[i]) { SlotInPrefix(slots, k, i); }
  }

  lemma SlotInPrefix(slots: seq<nat>, k: nat, i: nat)
    requires 0 < k <= |slots| && i in slots && i <= slots[k - 1]
    requires forall j, l :: 0 <= j < l < |slots| ==> slots[j] < slots[l]
    ensures i in slots[..k]
  {
    var j :| 0 <= j < |slots| && slots[j] == i;
    assert j < k;
    assert slots[..k][j] == i;
  }

  lemma AllCompacted(before: seq<Message>, cap: nat, i: nat)
    requires i < |before| && before[i].role == Tool
    ensures var capped := CapAll(before, cap);
      var slots := Slots(capped, |before|);
      CompactOldest(capped, slots, |slots|)[i].content == COMPACTED
  {
    hide CappedContent, Slots;
    var capped := CapAll(before, cap);
    var slots := Slots(capped, |before|);
    SlotsAreTheCompactables(capped, |before|);
    assert capped[i] == Capped(before[i], cap);
    assert slots[..|slots|] == slots;
    if capped[i].content != COMPACTED { assert Compactable(capped[i]) && i in slots; }
  }

  method CapText(content: Text, cap: nat) returns (text: Text)
    requires |content| > cap
    ensures text == CappedContent(content, cap)
  {
    HeadAndTailAreDisjoint(content, cap);
    var head := Utf8.SafeTruncate(content, cap * 7 / 10);
    var tail := Utf8.SafeTruncateTail(content, cap * 3 / 10);
    var truncated := |content| - |head| - |tail|;
    text := Format([head, Ascii("\n...[truncated "), Decimal(truncated), Ascii(" bytes]...\n"), tail]);
  }

  method CapOversized(messages: array<Message>, cap: nat) returns (trimmed: bool)
    modifies messages
    ensures messages[..] == CapAll(old(messages[..]), cap)
    ensures trimmed <==> exists i :: 0 <= i < messages.Length && Oversized(old(messages[i]), cap)
  {
    hide CappedContent;
    trimmed := false;
    for i := 0 to messages.Length
      invariant forall j :: 0 <= j < i ==> messages[j] == Capped(old(messages[j]), cap)
      invariant forall j :: i <= j < messages.Length ==> messages[j] == old(messages[j])
      invariant trimmed <==> exists j :: 0 <= j < i && Oversized(old(messages[j]), cap)
    {
      if messages[i].role == Tool && |messages[i].content| > cap {
        assert Oversized(old(messages[i]), cap);
        var text := CapText(messages[i].content, cap);
        messages[i] := messages[i].WithContent(text);
        trimmed := true;
      }
    }
  }

  lemma CompactOneMore(ms: seq<Message>, slots: seq<nat>, k: nat)
    requires k < |slots| && slots[k] < |ms| && slots[k] !in slots[..k]
    ensures CompactOldest(ms, slots, k + 1)
      == CompactOldest(ms, slots, k)[slots[k] := CompactOldest(ms, slots, k)[slots[k]].WithContent(COMPACTED)]
  {
  }

  lemma CompactNone(ms: seq<Message>, slots: seq<nat>)
    ensures CompactOldest(ms, slots, 0) == ms
  {
  }

  lemma NothingToCap(ms: seq<Message>, cap: nat)
    requires forall i :: 0 <= i < |ms| ==> !Oversized(ms[i], cap)
    ensures CapAll(ms, cap) == ms
  {
  }

  method CompactUntilFits(m: Monitor, messages: array<Message>) returns (trimmed: bool, ghost k: nat)
    modifies messages
    ensures ShortestFittingPrefix(m, old(messages[..]), Slots(old(messages[..]), messages.Length), k)
    ensures messages[..] == CompactOldest(old(messages[..]), Slots(old(messages[..]), messages.Length), k)
    ensures trimmed <==> k > 0
  {
    hide Estimate, Slots, CompactOldest, ContextBudget;
    ghost var before := messages[..];
    trimmed, k := false, 0;
    var budget := ContextBudget(m);
    var slots := Slots(messages[..], messages.Length);
    SlotsAreTheCompactables(before, messages.Length);
    CompactNone(before, slots);
    var total := Estimate(messages[..], m.safetyMargin);
    if total > budget {
      var n := 0;
      while n < |slots|
        invariant k == n <= |slots| && (trimmed <==> k > 0)
        invariant messages[..] == CompactOldest(before, slots, n)
        invariant forall j :: 0 <= j <= n ==> Estimate(CompactOldest(before, slots, j), m.safetyMargin) > budget
      {
        CompactOneMore(before, slots, n);
        var idx := slots[n];
        messages[idx] := messages[idx].WithContent(COMPACTED);
        trimmed := true;
        n, k := n + 1, k + 1;
        var newTotal := Estimate(messages[..], m.safetyMargin);
        if newTotal <= budget {
          break;
        }
      }
    }
  }

  ghost predicate AnyOversized(ms: seq<Message>, cap: nat) { exists i :: 0 <= i < |ms| && Oversized(ms[i], cap) }

  method PreflightCheck(m: Monitor, messages: array<Message>, tools: seq<ToolDefinition>)
    returns (action: PreflightAction, ghost k: nat)
    modifies messages
    ensures TrimmedTo(m, old(messages[..]), messages[..], k)
    ensures action == NeedsCompaction <==> EstimateFull(messages[..], tools, m.safetyMargin) > CompactionLimit(m)
    ensures action == Fits ==> messages[..] == old(messages[..])
    ensures action != NeedsCompaction ==>
      (action == Trimmed <==> k > 0 || AnyOversized(old(messages[..]), SingleResultCap(m)))
  {
    hide CappedContent, Estimate, EstimateFull, Slots, CapAll;
    hide CompactOldest, ShortestFittingPrefix, SingleResultCap, Oversized;
    var capped := CapOversized(messages, SingleResultCap(m));
    if !capped { NothingToCap(old(messages[..]), SingleResultCap(m)); }
    CompactNone(messages[..], Slots(messages[..], messages.Length));
    var compacted;
    compacted, k := CompactUntilFits(m, messages);
    var finalTotal := EstimateFull(messages[..], tools, m.safetyMargin);
    var hardLimit := ToUsize(m.contextLimit as real * m.emergencyThreshold);
    var compactionLimit := Min(ContextBudget(m), hardLimit);
    assert compactionLimit == CompactionLimit(m);
    if finalTotal > compactionLimit {
      return NeedsCompaction, k;
    }
    action := if capped || compacted then Trimmed else Fits;
  }

  // ---- What trimming leaves alone ----

  /** The same message up to its text: role, calls and ids are unchanged, and so is anything but a tool message. */
  predicate OnlyToolTextDiffers(a: Message, b: Message) {
    && (a.role == Tool || a == b)
    && a.(content := b.content, contentParts := b.contentParts) == b
  }

  lemma PreflightOnlyRewritesToolText(ms: seq<Message>, cap: nat, k: nat)
    requires k <= |Slots(CapAll(ms, cap), |ms|)|
    ensures var result := CompactOldest(CapAll(ms, cap), Slots(CapAll(ms, cap), |ms|), k);
      |result| == |ms| && forall i :: 0 <= i < |ms| ==> OnlyToolTextDiffers(ms[i], result[i])
  {
    var capped := CapAll(ms, cap);
    SlotsAreTheCompactables(capped, |ms|);
    forall i | 0 <= i < |ms|
      ensures OnlyToolTextDiffers(ms[i], CompactOldest(capped, Slots(capped, |ms|), k)[i])
    {
      if i in Slots(capped, |ms|)[..k] { assert Compactable(capped[i]); }
    }
  }
}
