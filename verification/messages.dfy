/** Conversation messages, and what it means for every tool call to be answered. */
module Messages {
  import opened Bytes

  datatype Role = System | User | Assistant | Tool

  datatype ToolCall = ToolCall(id: Text, name: Text, arguments: Text)

  datatype ContentPart = TextPart(text: Text) | ImagePart(source: Text)

  datatype Message = Message(
    role: Role,
    content: Text,
    contentParts: seq<ContentPart>,
    toolCalls: Option<seq<ToolCall>>,
    toolCallId: Option<Text>)
  {
    predicate HasImages() { exists i :: 0 <= i < |contentParts| && contentParts[i].ImagePart? }

    predicate HasToolCalls() { toolCalls.Some? && toolCalls.value != [] }

    predicate IsToolResult() { role == Tool && toolCallId.Some? }

    /** The message with new text; structured parts, when present, are replaced by that text. */
    function WithContent(text: Text): Message {
      this.(content := text, contentParts := if contentParts == [] then [] else [TextPart(text)])
    }
  }

  function UserMessage(content: Text): Message { Message(User, content, [TextPart(content)], None, None) }

  function AssistantMessage(content: Text): Message { Message(Assistant, content, [TextPart(content)], None, None) }

  function SystemMessage(content: Text): Message { Message(System, content, [TextPart(content)], None, None) }

  function AssistantWithTools(content: Text, calls: seq<ToolCall>): Message {
    AssistantMessage(content).(toolCalls := Some(calls))
  }

  function ToolResult(id: Text, content: Text): Message {
    Message(Tool, content, [TextPart(content)], None, Some(id))
  }
}

/** Transcripts in which tool calls and tool results match up. */
module Transcripts {
  import opened Bytes
  import opened Messages

  /** A message that neither asks for a tool nor answers one. */
  predicate Plain(m: Message) { m.role != Tool && m.toolCalls.None? }

  /** The results answer exactly these calls, in order. */
  predicate Answers(calls: seq<ToolCall>, results: seq<Message>) {
    && |results| == |calls|
    && forall j :: 0 <= j < |calls| ==> AnswersCall(calls[j], results[j])
  }

  predicate AnswersCall(call: ToolCall, result: Message) {
    result.role == Tool && result.toolCalls.None? && result.toolCallId == Some(call.id)
  }

  /** The message at i opens a block: an assistant message with calls, directly followed by their results. */
  predicate BlockAt(ms: seq<Message>, i: nat)
    requires i < |ms|
  {
    && ms[i].role == Assistant && ms[i].HasToolCalls()
    && i + 1 + |ms[i].toolCalls.value| <= |ms|
    && Answers(ms[i].toolCalls.value, ms[i + 1..i + 1 + |ms[i].toolCalls.value|])
  }

  /** From position i on, the transcript is a sequence of plain messages and complete blocks. */
  predicate PairedFrom(ms: seq<Message>, i: nat)
    requires i <= |ms|
    decreases |ms| - i
  {
    i == |ms|
    || (Plain(ms[i]) && PairedFrom(ms, i + 1))
    || (BlockAt(ms, i) && PairedFrom(ms, i + 1 + |ms[i].toolCalls.value|))
  }

  predicate Paired(ms: seq<Message>) { PairedFrom(ms, 0) }

  /** The position j holds a result that belongs to the block opened at i. */
  predicate Owns(ms: seq<Message>, i: nat, j: nat)
    requires i < |ms|
  {
    ms[i].toolCalls.Some? && i < j <= i + |ms[i].toolCalls.value|
  }

  /**
   * Pairing without the recursion: every message with calls has at least one and is directly
   * followed by exactly their results, and every tool result belongs to such a message.
   */
  ghost predicate EveryCallAnswered(ms: seq<Message>) {
    && (forall i :: 0 <= i < |ms| && ms[i].toolCalls.Some? ==> BlockAt(ms, i))
    && (forall j :: 0 <= j < |ms| && ms[j].role == Tool ==> exists i :: 0 <= i < j && Owns(ms, i, j))
  }

  lemma {:induction false} PairedFromAnswers(ms: seq<Message>, i: nat)
    requires i <= |ms| && PairedFrom(ms, i)
    ensures forall k :: i <= k < |ms| && ms[k].toolCalls.Some? ==> BlockAt(ms, k)
    ensures forall j :: i <= j < |ms| && ms[j].role == Tool ==> exists k :: i <= k < j && Owns(ms, k, j)
    decreases |ms| - i
  {
    if i < |ms| {
      if Plain(ms[i]) {
        PairedFromAnswers(ms, i + 1);
      } else {
        var n := |ms[i].toolCalls.value|;
        PairedFromAnswers(ms, i + 1 + n);
        forall k | i < k <= i + n ensures ms[k].toolCalls.None? && Owns(ms, i, k) {
          assert AnswersCall(ms[i].toolCalls.value[k - i - 1], ms[i + 1..i + 1 + n][k - i - 1]);
        }
      }
    }
  }

  lemma {:induction false} AnsweredIsPairedFrom(ms: seq<Message>, i: nat)
    requires i <= |ms|
    requires forall k :: i <= k < |ms| && ms[k].toolCalls.Some? ==> BlockAt(ms, k)
    requires forall j :: i <= j < |ms| && ms[j].role == Tool ==> exists k :: i <= k < j && Owns(ms, k, j)
    ensures PairedFrom(ms, i)
    decreases |ms| - i
  {
    if i < |ms| {
      if ms[i].toolCalls.None? {
        assert Plain(ms[i]);
        forall j | i + 1 <= j < |ms| && ms[j].role == Tool ensures exists k :: i + 1 <= k < j && Owns(ms, k, j) {
          var k :| i <= k < j && Owns(ms, k, j);
          assert k != i;
        }
        AnsweredIsPairedFrom(ms, i + 1);
      } else {
        var n := |ms[i].toolCalls.value|;
        forall k | i < k <= i + n ensures ms[k].toolCalls.None? {
          assert AnswersCall(ms[i].toolCalls.value[k - i - 1], ms[i + 1..i + 1 + n][k - i - 1]);
        }
        forall j | i + 1 + n <= j < |ms| && ms[j].role == Tool
          ensures exists k :: i + 1 + n <= k < j && Owns(ms, k, j)
        {
          var k :| i <= k < j && Owns(ms, k, j);
          assert k > i + n;
        }
        AnsweredIsPairedFrom(ms, i + 1 + n);
      }
    }
  }

  lemma PairedMeaning(ms: seq<Message>)
    ensures Paired(ms) <==> EveryCallAnswered(ms)
  {
    if Paired(ms) { PairedFromAnswers(ms, 0); }
    if EveryCallAnswered(ms) { AnsweredIsPairedFrom(ms, 0); }
  }

  // ---- Building transcripts ----

  lemma {:induction false} AppendPairedFrom(a: seq<Message>, b: seq<Message>, i: nat)
    requires i <= |a| && PairedFrom(a, i) && Paired(b)
    ensures PairedFrom(a + b, i)
    decreases |a| - i
  {
    if i == |a| {
      ShiftPaired(a, b, 0);
    } else if Plain(a[i]) {
      AppendPairedFrom(a, b, i + 1);
    } else {
      var n := |a[i].toolCalls.value|;
      AppendPairedFrom(a, b, i + 1 + n);
      assert (a + b)[i + 1..i + 1 + n] == a[i + 1..i + 1 + n];
    }
  }

  lemma {:induction false} ShiftPaired(a: seq<Message>, b: seq<Message>, i: nat)
    requires i <= |b|
    ensures PairedFrom(a + b, |a| + i) <==> PairedFrom(b, i)
    decreases |b| - i
  {
    if i < |b| {
      ShiftPaired(a, b, i + 1);
      if b[i].HasToolCalls() && i + 1 + |b[i].toolCalls.value| <= |b| {
        var n := |b[i].toolCalls.value|;
        ShiftPaired(a, b, i + 1 + n);
        assert (a + b)[|a| + i + 1..|a| + i + 1 + n] == b[i + 1..i + 1 + n];
      }
    }
  }

  lemma AppendPaired(a: seq<Message>, b: seq<Message>)
    requires Paired(a) && Paired(b)
    ensures Paired(a + b)
  {
    AppendPairedFrom(a, b, 0);
  }

  lemma AppendPlain(a: seq<Message>, m: Message)
    requires Paired(a) && Plain(m)
    ensures Paired(a + [m])
  {
    assert PairedFrom([m], 1);
    AppendPaired(a, [m]);
  }

  lemma BlockIsPaired(m: Message, results: seq<Message>)
    requires m.role == Assistant && m.HasToolCalls() && Answers(m.toolCalls.value, results)
    ensures Paired([m] + results)
  {
  }

  // ---- Cutting transcripts ----

  /** A suffix of a paired transcript is paired exactly when it does not start inside a block. */
  lemma {:induction false} SuffixPairedFrom(ms: seq<Message>, i: nat, cut: nat)
    requires i <= cut <= |ms| && PairedFrom(ms, i)
    ensures PairedFrom(ms, cut) <==> cut == |ms| || ms[cut].role != Tool
    decreases |ms| - i
  {
    if i < cut {
      if Plain(ms[i]) {
        SuffixPairedFrom(ms, i + 1, cut);
      } else {
        var n := |ms[i].toolCalls.value|;
        if cut <= i + n {
          assert AnswersCall(ms[i].toolCalls.value[cut - i - 1], ms[i + 1..i + 1 + n][cut - i - 1]);
        } else {
          SuffixPairedFrom(ms, i + 1 + n, cut);
        }
      }
    }
  }

  lemma PairedSuffixIff(ms: seq<Message>, cut: nat)
    requires cut <= |ms| && Paired(ms)
    ensures Paired(ms[cut..]) <==> cut == |ms| || ms[cut].role != Tool
  {
    SuffixPairedFrom(ms, 0, cut);
    ShiftPaired(ms[..cut], ms[cut..], 0);
    assert ms[..cut] + ms[cut..] == ms;
  }
}
