/** Heuristic token estimates, the urgency tiers and the strategies derived from them. */
module TokenEstimates {
  import opened Bytes
  import opened Messages

  const CHARS_PER_TOKEN: real := 4.0
  const TOOL_RESULT_CHARS_PER_TOKEN: real := 2.0
  const IMAGE_TOKEN_ESTIMATE: real := 2000.0
  const MESSAGE_FRAMING_TOKENS: real := 4.0

  // The JSON schema of the parameters, as it is serialised into the request.
  datatype ToolDefinition = ToolDefinition(name: Text, description: Text, schema: Text)

  /** `as usize` on a float: the fraction is cut and negative values saturate at zero. */
  function ToUsize(x: real): nat { if x < 0.0 then 0 else x.Floor }

  function Scaled(raw: real, margin: real): nat { ToUsize(raw * margin) }

  function Larger(a: real, b: real): real { if a <= b then b else a }

  function PartsTokens(parts: seq<ContentPart>, charsPerToken: real): real
    requires charsPerToken > 0.0
  {
    if parts == [] then 0.0
    else
      (match parts[0]
       case TextPart(text) => |text| as real / charsPerToken
       case ImagePart(_) => IMAGE_TOKEN_ESTIMATE) + PartsTokens(parts[1..], charsPerToken)
  }

  function CallTokens(calls: seq<ToolCall>): real {
    if calls == [] then 0.0
    else
      |calls[0].name| as real / CHARS_PER_TOKEN
      + |calls[0].arguments| as real / TOOL_RESULT_CHARS_PER_TOKEN
      + CallTokens(calls[1..])
  }

  function MessageTokens(m: Message): real {
    var charsPerToken := if m.role == Tool then TOOL_RESULT_CHARS_PER_TOKEN else CHARS_PER_TOKEN;
    var body := Larger(|m.content| as real / charsPerToken, PartsTokens(m.contentParts, charsPerToken));
    var calls := match m.toolCalls case None => 0.0 case Some(calls) => CallTokens(calls);
    body + calls + MESSAGE_FRAMING_TOKENS
  }

  function RawTokens(ms: seq<Message>): real {
    if ms == [] then 0.0 else MessageTokens(ms[0]) + RawTokens(ms[1..])
  }

  function DefinitionTokens(tools: seq<ToolDefinition>): real {
    if tools == [] then 0.0
    else
      (|tools[0].name| + |tools[0].description|) as real / CHARS_PER_TOKEN
      + |tools[0].schema| as real / TOOL_RESULT_CHARS_PER_TOKEN
      + DefinitionTokens(tools[1..])
  }

  function Estimate(ms: seq<Message>, margin: real): nat { Scaled(RawTokens(ms), margin) }

  function EstimateFull(ms: seq<Message>, tools: seq<ToolDefinition>, margin: real): nat {
    Scaled(RawTokens(ms) + DefinitionTokens(tools), margin)
  }

  // ---- Laws of the estimate ----

  lemma {:induction false} CallTokensNonNegative(calls: seq<ToolCall>)
    ensures CallTokens(calls) >= 0.0
  {
    if calls != [] { CallTokensNonNegative(calls[1..]); }
  }

  lemma MessageCostsItsFraming(m: Message)
    ensures MessageTokens(m) >= MESSAGE_FRAMING_TOKENS
  {
    if m.toolCalls.Some? { CallTokensNonNegative(m.toolCalls.value); }
  }

  /** The text of the text parts, in order. */
  function PartsText(parts: seq<ContentPart>): Text {
    if parts == [] then [] else (if parts[0].TextPart? then parts[0].text else []) + PartsText(parts[1..])
  }

  function Images(parts: seq<ContentPart>): nat {
    if parts == [] then 0 else (if parts[0].ImagePart? then 1 else 0) + Images(parts[1..])
  }

  lemma {:induction false} PartsAreTextAndImages(parts: seq<ContentPart>, charsPerToken: real)
    requires charsPerToken > 0.0
    ensures PartsTokens(parts, charsPerToken)
      == |PartsText(parts)| as real / charsPerToken + Images(parts) as real * IMAGE_TOKEN_ESTIMATE
  {
    if parts != [] {
      PartsAreTextAndImages(parts[1..], charsPerToken);
      var rest := parts[1..];
      match parts[0] {
        case TextPart(text) =>
          QuotientOfSum(|text| as real, |PartsText(rest)| as real, charsPerToken);
          assert |PartsText(parts)| as real == |text| as real + |PartsText(rest)| as real;
        case ImagePart(_) =>
          assert PartsText(parts) == PartsText(rest);
          assert Images(parts) as real * IMAGE_TOKEN_ESTIMATE
            == IMAGE_TOKEN_ESTIMATE + Images(rest) as real * IMAGE_TOKEN_ESTIMATE;
      }
    }
  }

  lemma QuotientOfSum(a: real, b: real, c: real)
    requires c > 0.0
    ensures (a + b) / c == a / c + b / c
  {
  }

  /** A text that is also present as parts, in one piece or in several, is counted once, besides the images. */
  lemma RepeatedTextIsCountedOnce(m: Message)
    requires PartsText(m.contentParts) == m.content
    ensures MessageTokens(m)
      == MessageTokens(m.(contentParts := [])) + Images(m.contentParts) as real * IMAGE_TOKEN_ESTIMATE
  {
    var charsPerToken := if m.role == Tool then TOOL_RESULT_CHARS_PER_TOKEN else CHARS_PER_TOKEN;
    PartsAreTextAndImages(m.contentParts, charsPerToken);
    assert |m.content| as real / charsPerToken >= 0.0;
  }

  function NameBytes(calls: seq<ToolCall>): nat {
    if calls == [] then 0 else |calls[0].name| + NameBytes(calls[1..])
  }

  function ArgumentBytes(calls: seq<ToolCall>): nat {
    if calls == [] then 0 else |calls[0].arguments| + ArgumentBytes(calls[1..])
  }

  /** Names weigh four bytes a token, arguments two. */
  lemma {:induction false} CallsWeigh(calls: seq<ToolCall>)
    ensures CallTokens(calls) == NameBytes(calls) as real / 4.0 + ArgumentBytes(calls) as real / 2.0
  {
    if calls != [] { CallsWeigh(calls[1..]); }
  }

  /**
   * A message whose text parts join to its content: tool text weighs two bytes a token and any other text
   * four, an image weighs 2000 tokens, and there are four tokens of framing.
   */
  lemma MessageWeighs(m: Message)
    requires PartsText(m.contentParts) == m.content
    ensures var text := |m.content| as real / if m.role == Tool then 2.0 else 4.0;
      var calls := if m.toolCalls.Some? then m.toolCalls.value else [];
      MessageTokens(m) == text + Images(m.contentParts) as real * 2000.0
        + NameBytes(calls) as real / 4.0 + ArgumentBytes(calls) as real / 2.0 + 4.0
  {
    RepeatedTextIsCountedOnce(m);
    if m.toolCalls.Some? { CallsWeigh(m.toolCalls.value); }
  }

  function TitleBytes(tools: seq<ToolDefinition>): nat {
    if tools == [] then 0 else |tools[0].name| + |tools[0].description| + TitleBytes(tools[1..])
  }

  function SchemaBytes(tools: seq<ToolDefinition>): nat {
    if tools == [] then 0 else |tools[0].schema| + SchemaBytes(tools[1..])
  }

  /** Names and descriptions of tools weigh four bytes a token, schemas two. */
  lemma {:induction false} DefinitionsWeigh(tools: seq<ToolDefinition>)
    ensures DefinitionTokens(tools) == TitleBytes(tools) as real / 4.0 + SchemaBytes(tools) as real / 2.0
  {
    if tools != [] { DefinitionsWeigh(tools[1..]); }
  }

  lemma {:induction false} RawTokensAppend(a: seq<Message>, b: seq<Message>)
    ensures RawTokens(a + b) == RawTokens(a) + RawTokens(b)
  {
    if a == [] {
      assert a + b == b;
    } else {
      RawTokensAppend(a[1..], b);
      assert (a + b)[1..] == a[1..] + b;
    }
  }

  lemma {:induction false} RawTokensNonNegative(ms: seq<Message>)
    ensures RawTokens(ms) >= 0.0
  {
    if ms != [] {
      MessageCostsItsFraming(ms[0]);
      RawTokensNonNegative(ms[1..]);
    }
  }

  lemma ScalingIsMonotone(x: real, y: real, margin: real)
    requires 0.0 <= x <= y
    ensures Scaled(x, margin) <= Scaled(y, margin)
  {
    if margin >= 0.0 {
      ProductNonNegative(y - x, margin);
      assert y * margin == x * margin + (y - x) * margin;
    } else {
      ProductNonNegative(x, -margin);
      ProductNonNegative(y, -margin);
      assert x * margin == -(x * -margin) && y * margin == -(y * -margin);
    }
  }

  lemma ProductNonNegative(x: real, y: real)
    requires x >= 0.0 && y >= 0.0
    ensures x * y >= 0.0
  {
  }

  lemma EstimateIsMonotone(a: seq<Message>, b: seq<Message>, margin: real)
    requires RawTokens(a) <= RawTokens(b)
    ensures Estimate(a, margin) <= Estimate(b, margin)
  {
    RawTokensNonNegative(a);
    ScalingIsMonotone(RawTokens(a), RawTokens(b), margin);
  }

  lemma AppendingNeverLowersEstimate(ms: seq<Message>, more: seq<Message>, margin: real)
    ensures Estimate(ms, margin) <= Estimate(ms + more, margin)
  {
    RawTokensAppend(ms, more);
    RawTokensNonNegative(more);
    EstimateIsMonotone(ms, ms + more, margin);
  }

  /** A list that holds a text this long is beyond the default limit. */
  lemma LongTextFills(ms: seq<Message>, i: nat, extra: real)
    requires i < |ms| && |ms[i].content| >= 600_000 && ms[i].role != Tool && extra >= 0.0
    ensures Scaled(RawTokens(ms) + extra, 1.2) >= 180_000
  {
    hide MessageTokens;
    assert ms == ms[..i] + ([ms[i]] + ms[i + 1..]);
    RawTokensAppend(ms[..i], [ms[i]] + ms[i + 1..]);
    RawTokensNonNegative(ms[..i]);
    RawTokensNonNegative(ms[i + 1..]);
    assert ([ms[i]] + ms[i + 1..])[1..] == ms[i + 1..];
    LongTextWeighs(ms[i]);
    assert (RawTokens(ms) + extra) * 1.2 >= 180_000.0;
  }

  lemma LongTextWeighs(m: Message)
    requires |m.content| >= 600_000 && m.role != Tool
    ensures MessageTokens(m) >= 150_000.0
  {
    if m.toolCalls.Some? { CallTokensNonNegative(m.toolCalls.value); }
  }

  // ---- The monitor ----

  datatype Urgency = Normal | Emergency | Critical

  datatype Strategy = NoCompaction | Summarize(keepRecent: nat) | Truncate(keepRecent: nat)

  datatype Monitor = Monitor(
    contextLimit: nat,
    threshold: real,
    emergencyThreshold: real,
    criticalThreshold: real,
    inputHeadroomRatio: real,
    singleToolResultShare: real,
    safetyMargin: real)
  {
    function Fullness(ms: seq<Message>): nat { Estimate(ms, safetyMargin) }

    predicate NeedsCompaction(ms: seq<Message>) {
      Fullness(ms) as real > threshold * contextLimit as real
    }

    /**
     * With a limit of zero the ratio is not a number for an empty estimate, where every comparison
     * fails, and infinite otherwise.
     */
    function UrgencyOf(ms: seq<Message>): Option<Urgency> {
      if contextLimit == 0 then
        Some(if Fullness(ms) == 0 then Normal else Critical)
      else
        var ratio := Fullness(ms) as real / contextLimit as real;
        if ratio <= threshold then None
        else if ratio >= criticalThreshold then Some(Critical)
        else if ratio >= emergencyThreshold then Some(Emergency)
        else Some(Normal)
    }

    function SuggestStrategy(ms: seq<Message>): Strategy {
      match UrgencyOf(ms)
      case None => NoCompaction
      case Some(Critical) => Truncate(3)
      case Some(Emergency) => Truncate(5)
      case Some(Normal) =>
        if contextLimit > 0 && Fullness(ms) as real / contextLimit as real > 0.85 then Summarize(5) else Summarize(8)
    }
  }

  function Severity(u: Option<Urgency>): nat {
    match u
    case None => 0
    case Some(Normal) => 1
    case Some(Emergency) => 2
    case Some(Critical) => 3
  }

  /** How many messages a strategy keeps; no compaction keeps them all. */
  function Kept(s: Strategy, total: nat): nat {
    if s.NoCompaction? then total else Min(s.keepRecent, total)
  }

  predicate OrderedThresholds(m: Monitor) {
    m.threshold <= m.emergencyThreshold <= m.criticalThreshold
  }

  lemma RatioIsMonotone(a: nat, b: nat, limit: nat)
    requires a <= b && limit > 0
    ensures a as real / limit as real <= b as real / limit as real
  {
  }

  /** Appending messages never lowers the urgency, and never raises the suggested keep_recent. */
  lemma AppendingNeverRelaxes(m: Monitor, ms: seq<Message>, more: seq<Message>)
    requires OrderedThresholds(m)
    ensures Severity(m.UrgencyOf(ms)) <= Severity(m.UrgencyOf(ms + more))
    ensures !m.SuggestStrategy(ms).NoCompaction? ==>
      && !m.SuggestStrategy(ms + more).NoCompaction?
      && m.SuggestStrategy(ms + more).keepRecent <= m.SuggestStrategy(ms).keepRecent
  {
    AppendingNeverLowersEstimate(ms, more, m.safetyMargin);
    if m.contextLimit > 0 { RatioIsMonotone(m.Fullness(ms), m.Fullness(ms + more), m.contextLimit); }
  }

  /** The threshold test and the urgency tiers disagree for one case only: an empty estimate against a limit of zero. */
  lemma NeedsCompactionIffUrgent(m: Monitor, ms: seq<Message>)
    ensures (m.NeedsCompaction(ms) <==> m.UrgencyOf(ms).Some?)
      <==> !(m.contextLimit == 0 && m.Fullness(ms) == 0)
  {
  }

  lemma RatioOrProduct(a: real, b: real, c: real)
    requires b > 0.0
    ensures a / b < c <==> a < b * c
  {
    var q := a / b;
    assert a == b * q;
    if q < c { assert b * (c - q) > 0.0; } else { assert b * (q - c) >= 0.0; }
  }

  /** Without a limit nothing is urgent but critical, except for an empty estimate. */
  lemma UrgencyWithoutLimit(m: Monitor, ms: seq<Message>)
    requires m.contextLimit == 0
    ensures m.UrgencyOf(ms) == Some(if Estimate(ms, m.safetyMargin) == 0 then Normal else Critical)
  {
  }

  /**
   * Which urgency there is, by the shares of the limit that the thresholds name: none up to the first,
   * then the highest threshold that is reached.
   */
  lemma UrgencyByThresholds(m: Monitor, ms: seq<Message>)
    requires m.contextLimit > 0
    ensures var full, limit := m.Fullness(ms) as real, m.contextLimit as real;
      && (m.UrgencyOf(ms) == None <==> full <= limit * m.threshold)
      && (m.UrgencyOf(ms) == Some(Critical) <==> full > limit * m.threshold && full >= limit * m.criticalThreshold)
      && (m.UrgencyOf(ms) == Some(Emergency) <==>
            && full > limit * m.threshold
            && limit * m.emergencyThreshold <= full < limit * m.criticalThreshold)
      && (m.UrgencyOf(ms) == Some(Normal) <==>
            && full > limit * m.threshold
            && full < limit * m.emergencyThreshold && full < limit * m.criticalThreshold)
  {
    hide Estimate;
    var full, limit := m.Fullness(ms) as real, m.contextLimit as real;
    RatioOrProduct(full, limit, m.threshold);
    RatioOrProduct(full, limit, m.emergencyThreshold);
    RatioOrProduct(full, limit, m.criticalThreshold);
    ProductOrRatio(full, limit, m.threshold);
  }

  lemma ProductOrRatio(a: real, b: real, c: real)
    requires b > 0.0
    ensures a / b <= c <==> a <= b * c
  {
    RatioOrProduct(a, b, c);
    var q := a / b;
    assert a == b * q;
    if q == c { assert a == b * c; }
    if a == b * c { assert b * (q - c) == 0.0; }
  }

  /** Which strategy is suggested; a normal urgency past 85% of the limit keeps five instead of eight. */
  lemma StrategyByThresholds(m: Monitor, ms: seq<Message>)
    requires m.contextLimit > 0
    ensures var full, limit := m.Fullness(ms) as real, m.contextLimit as real;
      && (m.UrgencyOf(ms).None? ==> m.SuggestStrategy(ms) == NoCompaction)
      && (m.UrgencyOf(ms) == Some(Critical) ==> m.SuggestStrategy(ms) == Truncate(3))
      && (m.UrgencyOf(ms) == Some(Emergency) ==> m.SuggestStrategy(ms) == Truncate(5))
      && (m.UrgencyOf(ms) == Some(Normal) ==> m.SuggestStrategy(ms) == Summarize(if full > limit * 0.85 then 5 else 8))
  {
    hide Estimate;
    ProductOrRatio(m.Fullness(ms) as real, m.contextLimit as real, 0.85);
  }
}
