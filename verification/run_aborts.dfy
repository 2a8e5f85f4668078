/** Which runs abort: one with default settings that does, and why runs with ASCII tool results never do. */
module RunAborts {
  import opened Bytes
  import opened Messages
  import opened Transcripts
  import opened TokenEstimates
  import opened Compaction
  import opened RecoveryLadder
  import opened Preflight
  import opened ResultSync
  import opened ToolLoop
  import opened AgentLoops
  import opened Abridgements
  import Utf8

  // ---- A run that aborts ----

  const DEFAULT_MONITOR: Monitor := Monitor(180_000, 0.70, 0.90, 0.95, 0.75, 0.50, 1.2)

  const DEFAULT_RESULT_CAP: nat := 20_480

  /** One answered call, whose result just fits the default result limit, and then a long question. */
  function LongQuestion(first: Text, call: ToolCall, reply: Text, question: Text): seq<Message> {
    [UserMessage(first), AssistantWithTools([], [call]), ToolResult(call.id, Utf8.Euros(6_826)),
     AssistantMessage(reply), UserMessage(question)]
  }

  lemma LongQuestionIsPaired(first: Text, call: ToolCall, reply: Text, question: Text)
    ensures Paired(LongQuestion(first, call, reply, question))
    ensures Paired(LongQuestion(first, call, reply, question)[..4])
  {
    var asked, result := AssistantWithTools([], [call]), ToolResult(call.id, Utf8.Euros(6_826));
    BlockIsPaired(asked, [result]);
    AppendPlain([], UserMessage(first));
    AppendPaired([] + [UserMessage(first)], [asked] + [result]);
    var ms := [] + [UserMessage(first)] + ([asked] + [result]);
    AppendPlain(ms, AssistantMessage(reply));
    AppendPlain(ms + [AssistantMessage(reply)], UserMessage(question));
    assert ms + [AssistantMessage(reply)] == LongQuestion(first, call, reply, question)[..4];
    assert ms + [AssistantMessage(reply)] + [UserMessage(question)] == LongQuestion(first, call, reply, question);
  }

  lemma {:induction false} DefinitionsWeigh(tools: seq<ToolDefinition>)
    ensures DefinitionTokens(tools) >= 0.0
  {
    if tools != [] { DefinitionsWeigh(tools[1..]); }
  }

  /** The monitor finds the session critical, and the six messages it keeps are all there are. */
  lemma CompactionKeepsLongQuestion(config: AgentConfig, ms: seq<Message>)
    requires config.monitor == Some(DEFAULT_MONITOR) && |ms| == 5
    requires |ms[4].content| >= 600_000 && ms[4].role == User
    ensures CompactedIfUrgent(config, ms) == Some(ms)
    ensures !WithinTarget(ms, 180_000, 1.2)
  {
    LongTextFills(ms, 4, 0.0);
    hide RawTokens;
    var full := Estimate(ms, 1.2);
    assert full >= 180_000 && full as real / 180_000.0 >= 1.0;
  }

  /** The question is sent, and trimming leaves it as it is. */
  lemma {:induction false} UserIsSent(ms: seq<Message>, inline: seq<ContentPart> -> seq<ContentPart>, i: nat)
    returns (j: nat)
    requires i < |ms| && ms[i].role == User && ms[i].content != []
    ensures j < |SentMessages(ms, inline)| && SentMessages(ms, inline)[j] == Inlined(ms[i], inline)
  {
    if i == 0 {
      j := 0;
    } else {
      j := UserIsSent(ms[1..], inline, i - 1);
      j := j + if Sent(Inlined(ms[0], inline)) then 1 else 0;
    }
  }

  lemma QuestionSurvives(world: World, ms: seq<Message>, m: Monitor, trimmed: seq<Message>, k: nat) returns (j: nat)
    requires |ms| == 5 && ms[4].content != [] && ms[4].role == User
    requires TrimmedTo(m, BuildResolvedMessages(world.system, ms, world.inline), trimmed, k)
    ensures j < |trimmed| && trimmed[j].content == ms[4].content && trimmed[j].role == User
  {
    hide SingleResultCap, Estimate;
    j := UserIsSent([world.system] + ms, world.inline, 5);
    var request := BuildResolvedMessages(world.system, ms, world.inline);
    PreflightOnlyRewritesToolText(request, SingleResultCap(m), k);
    assert OnlyToolTextDiffers(request[j], trimmed[j]);
  }

  lemma LongQuestionNeedsRecovery(world: World, ms: seq<Message>, tools: seq<ToolDefinition>, trimmed: seq<Message>,
                                  k: nat)
    requires |ms| == 5 && |ms[4].content| >= 600_000 && ms[4].role == User
    requires TrimmedTo(DEFAULT_MONITOR, BuildResolvedMessages(world.system, ms, world.inline), trimmed, k)
    ensures EstimateFull(trimmed, tools, 1.2) > CompactionLimit(DEFAULT_MONITOR)
  {
    hide RawTokens, DefinitionTokens, CompactionLimit, Scaled, TrimmedTo, BuildResolvedMessages;
    var j := QuestionSurvives(world, ms, DEFAULT_MONITOR, trimmed, k);
    DefinitionsWeigh(tools);
    LongTextFills(trimmed, j, DefinitionTokens(tools));
    DefaultCompactionLimit();
  }

  lemma DefaultCompactionLimit()
    ensures CompactionLimit(DEFAULT_MONITOR) == 135_000
  {
  }

  /** The recovery cuts the result to half the default limit: in the middle of a three-byte character. */
  lemma RecoverySplitsResult(ms: seq<Message>)
    requires |ms| == 5 && !WithinTarget(ms, 180_000, 1.2)
    requires ms[2].IsToolResult() && ms[2].content == Utf8.Euros(6_826)
    requires forall i :: 0 <= i < 5 && i != 2 ==> !ms[i].IsToolResult()
    ensures Recover(ms, 180_000, Emergency, 5, DEFAULT_RESULT_CAP, 1.2).None?
  {
    hide Recover, WithinTarget, Utf8.Euros;
    assert TruncateMessages(ms, 5) == ms;
    RecoveryAbortsIff(ms, 180_000, Emergency, 5, DEFAULT_RESULT_CAP, 1.2);
    Utf8.EurosBoundary(6_826, 10_240);
    OneResult(ms);
    assert Tier1Keep(Emergency, 5) == 5 && Tier2Recent(Emergency) == 2;
    assert Tier2Target(Emergency, DEFAULT_RESULT_CAP) == 10_240;
    assert SplitsCharacter(ms, 2, 10_240, 2);
  }

  lemma OneResult(ms: seq<Message>)
    requires |ms| == 5 && ms[2].IsToolResult() && forall i :: 0 <= i < 5 && i != 2 ==> !ms[i].IsToolResult()
    ensures ShrinkBudget(ms, 2, 10_240, 2) == 10_240
  {
    assert ToolResultsBefore(ms, 2) == 0 by { assert ToolResultsBefore(ms, 1) == 0; }
    assert ToolResultsBefore(ms, 3) == 1;
    assert ToolResultsBefore(ms, 5) == 1 by { assert ToolResultsBefore(ms, 4) == 1; }
  }

  /**
   * With default settings, a long question behind one such result gets no request ready: compaction
   * keeps the session, the request does not fit, and the recovery that preflight asks for aborts.
   */
  lemma LongQuestionAborts(config: AgentConfig, world: World, first: Text, call: ToolCall, reply: Text, question: Text,
                           tools: seq<ToolDefinition>, writeBack: bool,
                           r: Option<seq<Message>>, sent: seq<Message>, trimmed: seq<Message>, k: nat)
    requires config.monitor == Some(DEFAULT_MONITOR) && config.toolResultCap == DEFAULT_RESULT_CAP
    requires |question| >= 600_000
    requires Guarded(config, world, LongQuestion(first, call, reply, question), tools, writeBack, r, sent, trimmed, k)
    ensures CompactedIfUrgent(config, LongQuestion(first, call, reply, question))
      == Some(LongQuestion(first, call, reply, question))
    ensures r == None
    ensures Utf8.ValidUtf8(Utf8.Euros(6_826)) && |Utf8.Euros(6_826)| <= DEFAULT_RESULT_CAP
  {
    hide Recover, TrimmedTo, EstimateFull, CompactionLimit, Utf8.Euros, Utf8.ValidUtf8;
    var ms := LongQuestion(first, call, reply, question);
    Utf8.EurosAreValid(6_826);
    Utf8.EurosBoundary(6_826, 0);
    CompactionKeepsLongQuestion(config, ms);
    LongQuestionNeedsRecovery(world, ms, tools, trimmed, k);
    RecoverySplitsResult(ms);
  }

  /** Whatever the provider, the tools and the store's file do, this run aborts without a provider call. */
  method RunOnLongQuestion(agent: AgentLoop, world: World, key: Text, first: Text, call: ToolCall, reply: Text,
                           question: Text)
    returns (r: Result<Text, RunError>)
    requires agent.Valid() && |question| >= 600_000
    requires agent.config.monitor == Some(DEFAULT_MONITOR) && agent.config.toolResultCap == DEFAULT_RESULT_CAP
    requires key in agent.store && agent.store[key] == LongQuestion(first, call, reply, question)[..4]
    requires !world.injectionBlocked && world.providerConfigured
    modifies agent`store, agent.toolCallLimit, agent.tokenBudget
    ensures r == Err(Aborted)
  {
    ghost var ms := agent.store[key] + [UserMessage(question)];
    assert ms == LongQuestion(first, call, reply, question);
    forall guarded, sent ensures !agent.Readied(world, ms, 0, true, guarded, sent) {
      NeverReadied(agent, world, first, call, reply, question, guarded, sent);
    }
    CompactionKeepsLongQuestion(agent.config, ms);
    hide CompactedIfUrgent, LongQuestion, agent.Readied, agent.FailsIn, agent.Explains, agent.WithinCaps, agent.Story;
    var result, _, _, _, _, _ := agent.ProcessMessage(world, key, UserMessage(question));
    r := result;
  }

  lemma NeverReadied(agent: AgentLoop, world: World, first: Text, call: ToolCall, reply: Text, question: Text,
                     guarded: seq<Message>, sent: seq<Message>)
    requires agent.config.monitor == Some(DEFAULT_MONITOR) && agent.config.toolResultCap == DEFAULT_RESULT_CAP
    requires |question| >= 600_000
    ensures !agent.Readied(world, LongQuestion(first, call, reply, question), 0, true, guarded, sent)
  {
    hide Guarded, LongQuestion, CompactedIfUrgent;
    var ms, tools := LongQuestion(first, call, reply, question), Offered(world, 0, true);
    forall trimmed, k | Guarded(agent.config, world, ms, tools, true, Some(guarded), sent, trimmed, k) ensures false {
      LongQuestionAborts(
        agent.config, world, first, call, reply, question, tools, true, Some(guarded), sent, trimmed, k);
    }
  }

  // ---- Runs with ASCII tool results ----

  /** Every tool answers in ASCII, and the system prompt is not a tool message. */
  ghost predicate AsciiTools(world: World) {
    && (forall i, j :: Utf8.IsAscii(world.runTool(i, j).result))
    && world.system.role != Tool
  }

  lemma AppendKeepsAscii(a: seq<Message>, b: seq<Message>)
    requires ToolsAscii(a) && ToolsAscii(b)
    ensures ToolsAscii(a + b)
  {
  }

  lemma RoundIsAscii(world: World, rounds: seq<Round>, i: nat)
    requires AsciiTools(world) && RanTools(world, rounds) && i < |rounds| && WellFormed(rounds[i])
    ensures ToolsAscii(RoundMessages(rounds[i].(notes := []))) && ToolsAscii(NoteMessages(rounds[i].notes))
  {
    hide Utf8.IsAscii;
    forall j | 0 <= j < |rounds[i].results| ensures Utf8.IsAscii(rounds[i].results[j]) {
      assert rounds[i].results[j] == world.runTool(i, j).result;
    }
    QuietRoundMessages(rounds[i].(notes := []));
  }

  lemma SentKeepsAscii(ms: seq<Message>, inline: seq<ContentPart> -> seq<ContentPart>)
    requires ToolsAscii(ms)
    ensures ToolsAscii(SentMessages(ms, inline))
  {
    hide Utf8.IsAscii;
    var sent := SentMessages(ms, inline);
    forall j | 0 <= j < |sent| && sent[j].role == Tool ensures Utf8.IsAscii(sent[j].content) {
      var i := SentOrigin(ms, inline, j);
    }
  }

  lemma CappedIsAscii(content: Text, cap: nat)
    requires |content| > cap && Utf8.IsAscii(content)
    ensures Utf8.IsAscii(CappedContent(content, cap))
  {
    hide Utf8.IsAscii, Decimal, Ascii, Format;
    HeadAndTailAreDisjoint(content, cap);
    var head, tail := Head(content, cap), TailEnd(content, cap);
    Utf8.PieceIsAscii(content, 0, |head|);
    Utf8.PieceIsAscii(content, |content| - |tail|, |content|);
    Utf8.LiteralIsAscii("\n...[truncated ");
    Utf8.LiteralIsAscii(" bytes]...\n");
    Utf8.DecimalIsAscii(|content| - |head| - |tail|);
    Utf8.FormatIsAscii(
      [head, Ascii("\n...[truncated "), Decimal(|content| - |head| - |tail|), Ascii(" bytes]...\n"), tail]);
  }

  lemma TrimmingKeepsAscii(m: Monitor, before: seq<Message>, after: seq<Message>, k: nat)
    requires TrimmedTo(m, before, after, k) && ToolsAscii(before)
    ensures ToolsAscii(after)
  {
    hide Utf8.IsAscii, CappedContent, SingleResultCap, ShortestFittingPrefix, Ascii;
    var cap := SingleResultCap(m);
    Utf8.LiteralIsAscii("[compacted]");
    forall i | 0 <= i < |after| && after[i].role == Tool ensures Utf8.IsAscii(after[i].content) {
      if Oversized(before[i], cap) { CappedIsAscii(before[i].content, cap); }
    }
  }

  lemma SyncKeepsAscii(session: seq<Message>, resolved: seq<Message>)
    requires ToolsAscii(session) && ToolsAscii(resolved)
    ensures ToolsAscii(Synced(session, resolved))
  {
    hide Utf8.IsAscii;
    SyncExact(session, resolved, |resolved|);
    forall i | 0 <= i < |session| && session[i].role == Tool
      ensures Utf8.IsAscii(Synced(session, resolved)[i].content)
    {
      assert SyncedSlot(session, resolved, Synced(session, resolved), i, |resolved|);
    }
    forall i | 0 <= i < |session| ensures Synced(session, resolved)[i].role == session[i].role {
      assert SyncedSlot(session, resolved, Synced(session, resolved), i, |resolved|);
    }
  }

  lemma CompactionKeepsAscii(config: AgentConfig, session: seq<Message>)
    requires ToolsAscii(session)
    ensures CompactedIfUrgent(config, session).Some? && ToolsAscii(CompactedIfUrgent(config, session).value)
  {
    hide Recover, ToolsAscii;
    if config.monitor.Some? {
      var m := config.monitor.value;
      var urgency := m.UrgencyOf(session);
      if urgency.Some? {
        RecoveryKeepsAscii(session, m.contextLimit, urgency.value, 8, config.toolResultCap, m.safetyMargin);
      }
    }
  }

  lemma PreflightKeepsAscii(config: AgentConfig, world: World, session: seq<Message>, tools: seq<ToolDefinition>,
                            writeBack: bool, r: Option<seq<Message>>, sent: seq<Message>, trimmed: seq<Message>, k: nat)
    requires Guarded(config, world, session, tools, writeBack, r, sent, trimmed, k)
    requires ToolsAscii(session) && AsciiTools(world)
    ensures r.Some? && ToolsAscii(r.value)
  {
    hide Recover, TrimmedTo, Synced, EstimateFull, CompactionLimit, AnyOversized, Utf8.IsAscii;
    if config.monitor.Some? {
      var m := config.monitor.value;
      AppendKeepsAscii([world.system], session);
      SentKeepsAscii([world.system] + session, world.inline);
      TrimmingKeepsAscii(m, BuildResolvedMessages(world.system, session, world.inline), trimmed, k);
      SyncKeepsAscii(session, trimmed);
      RecoveryKeepsAscii(session, m.contextLimit, Emergency, 5, config.toolResultCap, m.safetyMargin);
    }
  }

  lemma {:induction false} RetryKeepsAscii(config: AgentConfig, world: World, session: seq<Message>, sent: seq<Message>,
                                           calls: nat, attempt: nat, offerTools: bool)
    requires attempt <= config.overflowRetries && ToolsAscii(session)
    ensures var r := RetryFrom(config, world, session, sent, calls, attempt, offerTools);
      r.reply != Err(Aborted) && ToolsAscii(r.session)
    decreases config.overflowRetries - attempt
  {
    hide BuildResolvedMessages, Recover, ToolsAscii;
    var result := world.chat(calls, sent, Offered(world, calls, offerTools));
    if result == Err(ContextOverflow) && attempt < config.overflowRetries && config.monitor.Some? {
      var m := config.monitor.value;
      RecoveryKeepsAscii(
        session, m.contextLimit, OverflowRetryUrgency(attempt), RetryKeep(offerTools),
        config.toolResultCap, m.safetyMargin);
      var after := CompactedForRetry(config, m, session, attempt, offerTools).value.messages;
      var request := BuildResolvedMessages(world.system, after, world.inline);
      RetryKeepsAscii(config, world, after, request, calls + 1, attempt + 1, offerTools);
    }
  }

  lemma ReadyIsAscii(agent: AgentLoop, world: World, session: seq<Message>, calls: nat, offerTools: bool,
                     guarded: seq<Message>, sent: seq<Message>)
    requires agent.Readied(world, session, calls, offerTools, guarded, sent) && ToolsAscii(session) && AsciiTools(world)
    ensures ToolsAscii(guarded)
  {
    hide Guarded, ToolsAscii, AsciiTools;
    var tools := Offered(world, calls, offerTools);
    var trimmed, k :| Guarded(agent.config, world, session, tools, offerTools, Some(guarded), sent, trimmed, k);
    PreflightKeepsAscii(agent.config, world, session, tools, offerTools, Some(guarded), sent, trimmed, k);
  }

  lemma PromptIsAscii(agent: AgentLoop, world: World, session: seq<Message>, calls: nat, offerTools: bool, to: Pass)
    requires agent.Prompted(world, session, calls, offerTools, to) && ToolsAscii(session) && AsciiTools(world)
    ensures ToolsAscii(to.session)
  {
    hide RetryFrom, ToolsAscii, AsciiTools, agent.Readied;
    var guarded, sent :|
      && agent.Readied(world, session, calls, offerTools, guarded, sent)
      && RetryFrom(agent.config, world, guarded, sent, calls, 0, offerTools)
         == Retried(Ok(to.reply), to.session, to.calls);
    ReadyIsAscii(agent, world, session, calls, offerTools, guarded, sent);
    RetryKeepsAscii(agent.config, world, guarded, sent, calls, 0, offerTools);
  }

  lemma RefusalIsNoAbort(agent: AgentLoop, world: World, session: seq<Message>, calls: nat, offerTools: bool,
                         error: RunError, calls': nat)
    requires agent.Refused(world, session, calls, offerTools, error, calls') && ToolsAscii(session) && AsciiTools(world)
    ensures error != Aborted
  {
    hide RetryFrom, ToolsAscii, AsciiTools, agent.Readied, Guarded;
    var tools := Offered(world, calls, offerTools);
    if agent.NotReadied(world, session, calls, offerTools) {
      var sent, trimmed, k :| Guarded(agent.config, world, session, tools, offerTools, None, sent, trimmed, k);
      PreflightKeepsAscii(agent.config, world, session, tools, offerTools, None, sent, trimmed, k);
    } else {
      var guarded, sent :|
        && agent.Readied(world, session, calls, offerTools, guarded, sent)
        && RetryFrom(agent.config, world, guarded, sent, calls, 0, offerTools).reply == Err(error);
      ReadyIsAscii(agent, world, session, calls, offerTools, guarded, sent);
      RetryKeepsAscii(agent.config, world, guarded, sent, calls, 0, offerTools);
    }
  }

  /** The session in the middle of a pass, behind the results and the notes. */
  lemma ResultsAreAscii(agent: AgentLoop, world: World, session: seq<Message>, rounds: seq<Round>, i: nat)
    requires ToolsAscii(session) && AsciiTools(world) && RanTools(world, rounds)
    requires i < |rounds| && WellFormed(rounds[i])
    ensures agent.AfterResults(session, rounds[i]).Some?
    ensures ToolsAscii(agent.AfterResults(session, rounds[i]).value + NoteMessages(rounds[i].notes))
  {
    hide CompactedIfUrgent, ToolsAscii, AsciiTools, RanTools;
    RoundIsAscii(world, rounds, i);
    AppendKeepsAscii(session, RoundMessages(rounds[i].(notes := [])));
    CompactionKeepsAscii(agent.config, session + RoundMessages(rounds[i].(notes := [])));
    AppendKeepsAscii(agent.AfterResults(session, rounds[i]).value, NoteMessages(rounds[i].notes));
  }

  lemma PassKeepsAscii(agent: AgentLoop, exit: Option<Exit>, world: World, from: Pass, earlier: seq<Round>,
                       rounds: seq<Round>, to: Pass)
    requires agent.PassedThrough(exit, world, from, earlier, rounds, to)
    requires ToolsAscii(from.session) && AsciiTools(world) && RanTools(world, rounds)
    ensures ToolsAscii(to.session)
  {
    hide agent.Prompted, agent.AfterResults, ToolsAscii, AsciiTools, RanTools;
    if exit != Some(LimitAlreadyReached) {
      var last := |rounds| - 1;
      ResultsAreAscii(agent, world, from.session, rounds, last);
      var noted := agent.AfterResults(from.session, rounds[last]).value + NoteMessages(rounds[last].notes);
      if exit == None {
        PromptIsAscii(agent, world, noted, from.calls, true, to);
      } else if exit == Some(Synthesized) {
        PromptIsAscii(agent, world, noted, from.calls, false, to);
      }
    }
  }

  lemma {:induction false} ChainKeepsAscii(agent: AgentLoop, world: World, passes: seq<Pass>, rounds: seq<Round>,
                                           n: nat)
    requires agent.Chained(world, passes, rounds) && n <= |rounds|
    requires ToolsAscii(passes[0].session) && AsciiTools(world) && RanTools(world, rounds)
    ensures ToolsAscii(passes[n].session)
  {
    hide agent.PassedThrough, ToolsAscii, AsciiTools;
    if n > 0 {
      ChainKeepsAscii(agent, world, passes, rounds, n - 1);
      assert agent.Links(world, passes, rounds, n - 1);
      PassKeepsAscii(agent, None, world, passes[n - 1], rounds[..n - 1], rounds[..n], passes[n]);
    }
  }

  /** A run on such a session, with such tools, may fail, but never by aborting. */
  lemma AsciiRunNeverAborts(agent: AgentLoop, error: RunError, world: World, opening: seq<Message>, passes: seq<Pass>,
                            rounds: seq<Round>, calls: nat)
    requires agent.RunFails(error, world, opening, passes, rounds, calls)
    requires ToolsAscii(opening) && AsciiTools(world) && RanTools(world, rounds)
    ensures error != Aborted
  {
    hide CompactedIfUrgent, agent.Refused, agent.Prompted, agent.AfterResults, agent.Chained, ToolsAscii, AsciiTools;
    CompactionKeepsAscii(agent.config, opening);
    var compacted := CompactedIfUrgent(agent.config, opening).value;
    if passes == [] {
      RefusalIsNoAbort(agent, world, compacted, 0, true, error, calls);
    } else {
      var n := |rounds| - 1;
      PromptIsAscii(agent, world, compacted, 0, true, passes[0]);
      ChainKeepsAscii(agent, world, passes, rounds[..n], n);
      ResultsAreAscii(agent, world, passes[n].session, rounds, n);
      var noted := agent.AfterResults(passes[n].session, rounds[n]).value + NoteMessages(rounds[n].notes);
      var offerTools := agent.toolCallLimit.limit != Some(Executed(rounds));
      RefusalIsNoAbort(agent, world, noted, passes[n].calls, offerTools, error, calls);
    }
  }

  /** And what it leaves behind is such a session again. */
  lemma AsciiRunStaysAscii(agent: AgentLoop, world: World, opening: seq<Message>, passes: seq<Pass>, exit: Exit,
                           trace: RunTrace, session: seq<Message>, reply: Reply)
    requires CompactedIfUrgent(agent.config, opening).Some?
    requires agent.TellsAll(world, CompactedIfUrgent(agent.config, opening).value, passes, exit, trace, session, reply)
    requires ToolsAscii(opening) && AsciiTools(world) && RanTools(world, trace.rounds)
    ensures ToolsAscii(session)
  {
    hide CompactedIfUrgent, agent.Prompted, agent.Chained, agent.PassedThrough, ToolsAscii, AsciiTools;
    var n := |passes| - 1;
    CompactionKeepsAscii(agent.config, opening);
    PromptIsAscii(agent, world, CompactedIfUrgent(agent.config, opening).value, 0, true, passes[0]);
    ChainKeepsAscii(agent, world, passes, trace.rounds[..n], n);
    if exit != Answered && exit != IterationsExhausted {
      PassKeepsAscii(agent, Some(exit), world, passes[n], trace.rounds[..n], trace.rounds,
                     Pass(session, reply, trace.providerCalls));
    }
  }

  ghost predicate StoreIsAscii(agent: AgentLoop)
    reads agent
  {
    forall key :: key in agent.store ==> ToolsAscii(agent.store[key])
  }

  /** Any number of runs with ASCII tool results, with any configuration: none aborts. */
  method ServeAscii(agent: AgentLoop, inbox: seq<Inbound>) returns (results: seq<Result<Text, RunError>>)
    requires agent.Valid() && StoreIsAscii(agent)
    requires forall i :: 0 <= i < |inbox| ==> Plain(inbox[i].user) && AsciiTools(inbox[i].world)
    modifies agent`store, agent.toolCallLimit, agent.tokenBudget
    ensures agent.Valid() && StoreIsAscii(agent)
    ensures |results| == |inbox| && forall i :: 0 <= i < |results| ==> results[i] != Err(Aborted)
  {
    results := [];
    for i := 0 to |inbox|
      invariant agent.Valid() && StoreIsAscii(agent)
      invariant |results| == i && forall j :: 0 <= j < i ==> results[j] != Err(Aborted)
    {
      var r := ServeOneAscii(agent, inbox[i].world, inbox[i].key, inbox[i].user);
      results := results + [r];
    }
  }

  /** What a completed run saves. */
  lemma SavedIsAscii(agent: AgentLoop, world: World, before: seq<Message>, user: Message, saved: seq<Message>,
                     trace: RunTrace, exit: Exit, reply: Reply, passes: seq<Pass>)
    requires if world.cached.Some? then agent.CompletedFromCache(world, before, user, saved)
             else agent.Completed(world, before, user, saved, trace, exit, reply, passes)
    requires ToolsAscii(before + [user]) && AsciiTools(world) && RanTools(world, trace.rounds)
    ensures ToolsAscii(saved)
  {
    hide ToolsAscii, AsciiTools, CompactedIfUrgent, agent.TellsAll, agent.Readied, agent.Explains, RanTools;
    hide Abridges, Converses, SavedTranscript, ExitContent;
    var opening, session, answer := before + [user], saved[..|saved| - 1], saved[|saved| - 1];
    var compacted := CompactedIfUrgent(agent.config, opening).value;
    CompactionKeepsAscii(agent.config, opening);
    if world.cached.Some? {
      var sent :| agent.Readied(world, compacted, 0, true, session, sent);
      ReadyIsAscii(agent, world, compacted, 0, true, session, sent);
    } else {
      AsciiRunStaysAscii(agent, world, opening, passes, exit, trace, session, reply);
    }
    NoToolsIsAscii([answer]);
    AppendKeepsAscii(session, [answer]);
    assert saved == session + [answer];
  }

  method ServeOneAscii(agent: AgentLoop, world: World, key: Text, user: Message) returns (r: Result<Text, RunError>)
    requires agent.Valid() && StoreIsAscii(agent) && Plain(user) && AsciiTools(world)
    modifies agent`store, agent.toolCallLimit, agent.tokenBudget
    ensures agent.Valid() && StoreIsAscii(agent)
    ensures r != Err(Aborted)
  {
    hide ToolsAscii, AsciiTools, agent.WithinCaps, agent.HeedsGuard, agent.FlushesMemory, agent.RunFails;
    hide agent.Completed, agent.CompletedFromCache, agent.ErrorMeans, RanTools;
    ghost var before := agent.Loaded(key);
    NoToolsIsAscii([]);
    NoToolsIsAscii([user]);
    AppendKeepsAscii(before, [user]);
    var result, trace, exit, reply, passes, _ := agent.ProcessMessage(world, key, user);
    r := result;
    if r.Ok? || r.error == SaveFailed {
      SavedIsAscii(agent, world, before, user, agent.Loaded(key), trace, exit, reply, passes);
    } else if r == Err(Aborted) {
      AsciiRunNeverAborts(agent, Aborted, world, before + [user], passes, trace.rounds, trace.providerCalls);
    }
  }

  lemma NoToolsIsAscii(ms: seq<Message>)
    requires forall i :: 0 <= i < |ms| ==> ms[i].role != Tool
    ensures ToolsAscii(ms)
  {
  }
}
