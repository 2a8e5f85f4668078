/** The imperative side of the tool loop: the agent object and its run method. */
module AgentLoops {
  import opened Bytes
  import opened Messages
  import opened Transcripts
  import opened TokenEstimates
  import opened Preflight
  import opened ResultSync
  import opened Abridgements
  import opened RecoveryLadder
  import opened RecoveryLaws
  import opened Requests
  import opened LoopGuards
  import opened Limits
  import opened ToolLoop
  import opened GuardedRounds
  import Utf8

  // ---- One batch of tool calls ----

  method ExecuteBatch(world: World, round: nat, batch: seq<ToolCall>) returns (results: seq<Text>, pause: bool)
    ensures |results| == |batch|
    ensures forall j :: 0 <= j < |batch| ==> results[j] == world.runTool(round, j).result
    ensures pause <==> SomePause(world, round, |batch|)
  {
    results, pause := [], false;
    for j := 0 to |batch|
      invariant |results| == j
      invariant forall i :: 0 <= i < j ==> results[i] == world.runTool(round, i).result
      invariant pause <==> SomePause(world, round, j)
    {
      var outcome := world.runTool(round, j);
      results := results + [outcome.result];
      pause := pause || outcome.pause;
      assert outcome.pause == Pauses(world, round, j);
    }
  }

  method AddResults(session: seq<Message>, calls: seq<ToolCall>, results: seq<Text>) returns (longer: seq<Message>)
    requires |calls| == |results|
    ensures longer == session + ResultMessages(calls, results)
  {
    longer := session;
    for j := 0 to |calls|
      invariant longer == session + ResultMessages(calls, results)[..j]
    {
      longer := longer + [ToolResult(calls[j].id, results[j])];
      assert ResultMessages(calls, results)[..j + 1]
        == ResultMessages(calls, results)[..j] + [ToolResult(calls[j].id, results[j])];
    }
    assert ResultMessages(calls, results)[..|calls|] == ResultMessages(calls, results);
  }

  // ---- The guard's part of a round ----

  method CheckLoopGuard(guard: LoopGuard, world: World, calls: seq<ToolCall>) returns (stop: bool, notes: seq<Text>)
    requires guard.Amortised()
    modifies guard
    ensures guard.Amortised()
    ensures var (st, action) := CheckStep(guard.config, old(guard.State()), BatchOf(world, calls));
      && guard.State() == st
      && stop == action.Stops()
      && notes == if action.Allow? then [] else [world.describe(action)]
  {
    var action := guard.Check(BatchOf(world, calls));
    stop := action.Stops();
    notes := if action.Allow? then [] else [world.describe(action)];
  }

  method CheckLoopGuardOutcomes(guard: LoopGuard, world: World, calls: seq<ToolCall>, results: seq<Text>)
    returns (stop: bool, notes: seq<Text>)
    requires |calls| == |results| && guard.Amortised()
    modifies guard
    ensures guard.Amortised()
    ensures (guard.State(), notes, stop) == OutcomesFrom(world, guard.config, old(guard.State()), calls, results, 0)
  {
    hide OutcomeStep;
    var callMap: map<Text, ToolCall> := map[];
    for n := 0 to |calls|
      invariant MapsCalls(callMap, calls, n)
    {
      callMap := callMap[calls[n].id := calls[n]];
    }
    ghost var goal := OutcomesFrom(world, guard.config, guard.State(), calls, results, 0);
    notes := [];
    AfterNotesLaws([], [], goal);
    for i := 0 to |results|
      invariant guard.Amortised()
      invariant goal == AfterNotes(notes, OutcomesFrom(world, guard.config, guard.State(), calls, results, i))
    {
      if calls[i].id in callMap {
        var call := callMap[calls[i].id];
        assert CallFor(calls, calls[i].id, |calls|) == Some(call);
        var prefix := Utf8.SafeTruncate(results[i], 1000);
        var response := guard.RecordOutcome(world.outcomeHash(call.name, call.arguments, prefix));
        if response.Some? && !response.value.Allow? {
          var note := world.describe(response.value);
          if response.value.Stops() {
            return true, notes + [note];
          }
          AfterNotesLaws(notes, note, OutcomesFrom(world, guard.config, guard.State(), calls, results, i + 1));
          notes := notes + [note];
        }
      }
    }
    AfterNotesLaws(notes, [], (guard.State(), [], false));
    stop := false;
  }

  // ---- Context management around a provider call ----

  ghost function CompactedIfUrgent(config: AgentConfig, session: seq<Message>): Option<seq<Message>> {
    match config.monitor
    case None => Some(session)
    case Some(m) =>
      match m.UrgencyOf(session)
      case None => Some(session)
      case Some(urgency) =>
        var recovered := Recover(session, m.contextLimit, urgency, 8, config.toolResultCap, m.safetyMargin);
        if recovered.Some? then Some(recovered.value.messages) else None
  }

  lemma CompactedIsTold(config: AgentConfig, session: seq<Message>)
    requires CompactedIfUrgent(config, session).Some?
    ensures CompactionLeaves(config.monitor, session, CompactedIfUrgent(config, session).value)
  {
    hide Recover, Leaves;
    match config.monitor {
      case None =>
      case Some(m) =>
        var urgency := m.UrgencyOf(session);
        if urgency.Some? {
          RecoveryLeaves(session, m.contextLimit, urgency.value, 8, config.toolResultCap, m.safetyMargin);
        }
    }
  }

  /** The in-place compaction that follows new messages when the monitor finds the context too full. */
  method CompactIfUrgent(config: AgentConfig, session: seq<Message>) returns (r: Option<seq<Message>>)
    ensures config.monitor.None? ==> r == Some(session)
    ensures r == CompactedIfUrgent(config, session)
    ensures r.Some? ==> CompactionLeaves(config.monitor, session, r.value)
    ensures r.Some? ==> Abridges(session, r.value)
  {
    hide Recover, Abridges, CompactionLeaves;
    AbridgesItself(session);
    match config.monitor {
      case None => r := Some(session);
      case Some(m) =>
        var urgency := m.UrgencyOf(session);
        if urgency.None? {
          CompactedIsTold(config, session);
          return Some(session);
        }
        var recovered := TryRecoverContextWithUrgency(
          session, m.contextLimit, urgency.value, 8, config.toolResultCap, m.safetyMargin);
        if recovered.Some? {
          RecoveryAbridges(session, m.contextLimit, urgency.value, 8, config.toolResultCap, m.safetyMargin);
        }
        r := if recovered.Some? then Some(recovered.value.messages) else None;
    }
    if r.Some? { CompactedIsTold(config, session); }
  }

  /**
   * What the preflight guard makes of the session (None: it aborted) and of the request: the request
   * that is sent is the trimmed one, which fits, or the one rebuilt after an emergency recovery.
   */
  ghost predicate Guarded(config: AgentConfig, world: World, session: seq<Message>, tools: seq<ToolDefinition>,
                          writeBack: bool,
                          r: Option<seq<Message>>, sent: seq<Message>, trimmed: seq<Message>, k: nat)
  {
    var request := BuildResolvedMessages(world.system, session, world.inline);
    match config.monitor
    case None => r == Some(session) && sent == request
    case Some(m) =>
      && TrimmedTo(m, request, trimmed, k)
      && if EstimateFull(trimmed, tools, m.safetyMargin) > CompactionLimit(m) then
           match Recover(session, m.contextLimit, Emergency, 5, config.toolResultCap, m.safetyMargin)
           case None => r == None
           case Some(recovered) =>
             && r == Some(recovered.messages)
             && sent == BuildResolvedMessages(world.system, recovered.messages, world.inline)
         else
           && sent == trimmed
           && var synced := writeBack && (k > 0 || AnyOversized(request, SingleResultCap(m)));
           r == Some(if synced then Synced(session, trimmed) else session)
  }

  /** Everything of the conversation is sent, and what is left of it fits or is what an emergency recovery leaves. */
  lemma GuardedIsTold(config: AgentConfig, world: World, session: seq<Message>, tools: seq<ToolDefinition>,
                      writeBack: bool,
                      guarded: seq<Message>, sent: seq<Message>, trimmed: seq<Message>, k: nat)
    requires Guarded(config, world, session, tools, writeBack, Some(guarded), sent, trimmed, k)
    ensures Sends(world.system, guarded, sent, world.inline)
    ensures PreflightLeaves(config.monitor, world.system, tools, writeBack, session, guarded, sent)
  {
    hide Sends, TrimmedTo, Recover, BuildResolvedMessages, EstimateFull, Leaves, Synced, AnyOversized;
    hide WithinLimits, CompactionLimit, WritesBack;
    BuiltIsSent(world.system, guarded, world.inline);
    if config.monitor.Some? {
      var m := config.monitor.value;
      if EstimateFull(trimmed, tools, m.safetyMargin) > CompactionLimit(m) {
        RecoveryLeaves(session, m.contextLimit, Emergency, 5, config.toolResultCap, m.safetyMargin);
      } else {
        CompactionLimitIsBoth(m, EstimateFull(trimmed, tools, m.safetyMargin));
        TrimmedIsSent(m, world.system, session, trimmed, k, world.inline);
        SyncedIsSent(world.system, session, trimmed, trimmed, world.inline);
        var request := BuildResolvedMessages(world.system, session, world.inline);
        if !writeBack {
          NoWriteBack(world.system, session, trimmed);
        } else if k > 0 || AnyOversized(request, SingleResultCap(m)) {
          SyncWritesBack(m, world.system, session, trimmed, k, world.inline);
        } else {
          UntrimmedIsWrittenBack(m, world.system, session, trimmed, world.inline);
        }
      }
    }
  }

  method PreflightSession(config: AgentConfig, world: World, session: seq<Message>, tools: seq<ToolDefinition>,
                          writeBack: bool)
    returns (r: Option<seq<Message>>, sent: seq<Message>, ghost trimmed: seq<Message>, ghost k: nat)
    ensures Guarded(config, world, session, tools, writeBack, r, sent, trimmed, k)
    ensures r.Some? ==> Sends(world.system, r.value, sent, world.inline)
    ensures r.Some? ==> PreflightLeaves(config.monitor, world.system, tools, writeBack, session, r.value, sent)
    ensures r.Some? ==> Abridges(session, r.value)
  {
    AbridgesItself(session);
    hide Abridges, TrimmedTo, Recover, Synced, BuildResolvedMessages, EstimateFull, CompactionLimit, AnyOversized;
    hide Sends, PreflightLeaves;
    trimmed, k, sent := [], 0, BuildResolvedMessages(world.system, session, world.inline);
    match config.monitor {
      case None => r := Some(session);
      case Some(m) =>
        var buffer := new Message[|sent|](i requires 0 <= i < |sent| => sent[i]);
        assert buffer[..] == sent;
        var action;
        action, k := PreflightCheck(m, buffer, tools);
        trimmed, sent := buffer[..], buffer[..];
        match action {
          case Fits => r := Some(session);
          case Trimmed =>
            if writeBack {
              var slots := new Message[|session|](i requires 0 <= i < |session| => session[i]);
              assert slots[..] == session;
              SyncTrimmedToolResults(slots, buffer[..]);
              SyncAbridges(session, buffer[..]);
              r := Some(slots[..]);
            } else {
              r := Some(session);
            }
          case NeedsCompaction =>
            var recovered := TryRecoverContextWithUrgency(
              session, m.contextLimit, Emergency, 5, config.toolResultCap, m.safetyMargin);
            if recovered.None? {
              return None, sent, trimmed, k;
            }
            RecoveryAbridges(session, m.contextLimit, Emergency, 5, config.toolResultCap, m.safetyMargin);
            r := Some(recovered.value.messages);
            sent := BuildResolvedMessages(world.system, recovered.value.messages, world.inline);
        }
    }
    GuardedIsTold(config, world, session, tools, writeBack, r.value, sent, trimmed, k);
  }

  function OverflowRetryUrgency(attempt: nat): Urgency {
    if attempt == 0 then Normal else if attempt == 1 then Emergency else Critical
  }

  /** How many recent messages a retry may keep: fewer for the final synthesis call. */
  function RetryKeep(offerTools: bool): nat { if offerTools then 8 else 5 }

  /** The reply to exactly this conversation. */
  ghost predicate RepliesNow(world: World, n: nat, session: seq<Message>, offerTools: bool, reply: Reply) {
    world.chat(n, BuildResolvedMessages(world.system, session, world.inline), Offered(world, n, offerTools))
      == Ok(reply)
  }

  datatype Retried = Retried(reply: Result<Reply, RunError>, session: seq<Message>, calls: nat)

  /** What the retry after the given number of failed attempts compacts the session to. */
  ghost function CompactedForRetry(config: AgentConfig, m: Monitor, session: seq<Message>, attempt: nat,
                                   offerTools: bool)
    : Option<Recovery>
  {
    var urgency, keep := OverflowRetryUrgency(attempt), RetryKeep(offerTools);
    Recover(session, m.contextLimit, urgency, keep, config.toolResultCap, m.safetyMargin)
  }

  /** Sending a request and, while the context overflows, what compacting the session and sending it anew leads to. */
  ghost function RetryFrom(config: AgentConfig, world: World, session: seq<Message>, sent: seq<Message>,
                           calls: nat, attempt: nat, offerTools: bool): Retried
    requires attempt <= config.overflowRetries
    decreases config.overflowRetries - attempt
  {
    match world.chat(calls, sent, Offered(world, calls, offerTools))
    case Ok(answer) => Retried(Ok(answer), session, calls + 1)
    case Err(e) =>
      if e != ContextOverflow || attempt == config.overflowRetries || config.monitor.None?
      then Retried(Err(ProviderFailed(e)), session, calls + 1)
      else
        match CompactedForRetry(config, config.monitor.value, session, attempt, offerTools)
        case None => Retried(Err(Aborted), session, calls + 1)
        case Some(recovered) =>
          var request := BuildResolvedMessages(world.system, recovered.messages, world.inline);
          RetryFrom(config, world, recovered.messages, request, calls + 1, attempt + 1, offerTools)
  }

  /**
   * Retries are bounded and each follows an overflow; the reply answers the request as given or, after
   * a retry, the session left behind. An overflow is passed on only when the retries are used up or
   * there is no monitor.
   */
  lemma {:induction false} RetriesAreBounded(config: AgentConfig, world: World, session: seq<Message>,
                                             sent: seq<Message>,
                                             calls: nat, attempt: nat, offerTools: bool)
    requires attempt <= config.overflowRetries
    ensures calls < RetryFrom(config, world, session, sent, calls, attempt, offerTools).calls
      <= calls + config.overflowRetries - attempt + 1
    ensures var r := RetryFrom(config, world, session, sent, calls, attempt, offerTools);
      var rebuilt := BuildResolvedMessages(world.system, r.session, world.inline);
      var request := if r.calls == calls + 1 then sent else rebuilt;
      var last := world.chat(r.calls - 1, request, Offered(world, r.calls - 1, offerTools));
      && (forall n :: calls <= n < r.calls - 1 ==> ProviderFailedWith(world, n, offerTools, ContextOverflow))
      && (r.reply.Ok? ==> last == Ok(r.reply.value))
      && (r.reply.Err? ==>
            || (r.reply.error == Aborted && config.monitor.Some?)
            || (last.Err? && r.reply.error == ProviderFailed(last.error)))
      && (r.reply == Err(ProviderFailed(ContextOverflow)) && config.monitor.Some? ==>
            r.calls == calls + config.overflowRetries - attempt + 1)
      && (r.calls == calls + 1 ==> r.session == session)
      && (config.monitor.None? ==> r.calls == calls + 1)
      && Abridges(session, r.session)
    decreases config.overflowRetries - attempt
  {
    hide BuildResolvedMessages, Recover, Abridges;
    AbridgesItself(session);
    var result := world.chat(calls, sent, Offered(world, calls, offerTools));
    if result == Err(ContextOverflow) && attempt < config.overflowRetries && config.monitor.Some? {
      assert ProviderFailedWith(world, calls, offerTools, ContextOverflow);
      var m := config.monitor.value;
      var recovered := CompactedForRetry(config, m, session, attempt, offerTools);
      if recovered.Some? {
        var after := recovered.value.messages;
        var request := BuildResolvedMessages(world.system, after, world.inline);
        RetriesAreBounded(config, world, after, request, calls + 1, attempt + 1, offerTools);
        RecoveryAbridges(
          session, m.contextLimit, OverflowRetryUrgency(attempt), RetryKeep(offerTools),
          config.toolResultCap, m.safetyMargin);
        var rest := RetryFrom(config, world, after, request, calls + 1, attempt + 1, offerTools);
        AbridgesCompose(session, after, rest.session);
      }
    }
  }

  /** Calls the provider and, while the context overflows and retries are left, compacts and calls again. */
  method CallProvider(config: AgentConfig, world: World, session: seq<Message>, sent: seq<Message>, calls: nat,
                      offerTools: bool)
    returns (reply: Result<Reply, RunError>, session': seq<Message>, calls': nat)
    ensures Retried(reply, session', calls') == RetryFrom(config, world, session, sent, calls, 0, offerTools)
    ensures reply.Err? ==> reply.error != SaveFailed
  {
    hide BuildResolvedMessages, Recover;
    session', calls' := session, calls + 1;
    var request := sent;
    var result := world.chat(calls, request, Offered(world, calls, offerTools));
    var attempt := 0;
    ghost var goal := RetryFrom(config, world, session, sent, calls, 0, offerTools);
    while result.Err?
      invariant attempt <= config.overflowRetries && calls' == calls + attempt + 1
      invariant result == world.chat(calls' - 1, request, Offered(world, calls' - 1, offerTools))
      invariant goal == RetryFrom(config, world, session', request, calls' - 1, attempt, offerTools)
      decreases config.overflowRetries - attempt, result.Err?
    {
      if result.error != ContextOverflow || attempt >= config.overflowRetries || config.monitor.None? {
        break;
      }
      var m := config.monitor.value;
      var recovered := TryRecoverContextWithUrgency(
        session', m.contextLimit, OverflowRetryUrgency(attempt), RetryKeep(offerTools),
        config.toolResultCap, m.safetyMargin);
      if recovered.None? {
        return Err(Aborted), session', calls';
      }
      session' := recovered.value.messages;
      request := BuildResolvedMessages(world.system, session', world.inline);
      result := world.chat(calls', request, Offered(world, calls', offerTools));
      calls', attempt := calls' + 1, attempt + 1;
    }
    match result {
      case Ok(answer) => reply := Ok(answer);
      case Err(e) => reply := Err(ProviderFailed(e));
    }
  }

  // ---- The run ----

  // The state at the head of the tool loop.
  datatype Pass = Pass(session: seq<Message>, reply: Reply, calls: nat)

  datatype Step = Step(session: seq<Message>, reply: Reply, calls: nat, exit: Option<Exit>)

  /** The answered calls after a pass that ends like this. */
  function AnsweredAfter(answered: seq<Option<Usage>>, r: Result<Step, RunError>): seq<Option<Usage>> {
    match r
    case Err(_) => answered
    case Ok(step) =>
      if step.exit == None || step.exit == Some(Synthesized) then answered + [step.reply.usage] else answered
  }

  /** What the replies of a run report: one for each pass, and one more for the synthesis. */
  function Usages(passes: seq<Pass>, exit: Exit, reply: Reply): seq<Option<Usage>> {
    seq(|passes|, i requires 0 <= i < |passes| => passes[i].reply.usage)
    + if exit == Synthesized then [reply.usage] else []
  }

  lemma NoUsages(exit: Exit, reply: Reply)
    requires exit != Synthesized
    ensures Usages([], exit, reply) == []
  {
  }

  lemma UsagesGrow(passes: seq<Pass>, to: Pass, reply: Reply)
    ensures Usages([to], Answered, reply) == [to.reply.usage]
    ensures Usages(passes + [to], Answered, reply) == Usages(passes, Answered, reply) + [to.reply.usage]
  {
  }

  lemma UsagesEnd(passes: seq<Pass>, exit: Exit, reply: Reply, before: Reply)
    ensures Usages(passes, exit, reply)
      == if exit == Synthesized then Usages(passes, Answered, before) + [reply.usage]
         else Usages(passes, Answered, before)
  {
  }

  class AgentLoop {
    const config: AgentConfig
    const toolCallLimit: ToolCallLimitTracker
    const tokenBudget: TokenBudget
    var store: map<Text, seq<Message>>

    /** With the monitor off, every saved transcript is paired. */
    ghost predicate Valid()
      reads this
    {
      config.monitor.None? ==> forall key :: key in store ==> Paired(store[key])
    }

    constructor (config: AgentConfig, toolCallLimit: ToolCallLimitTracker, tokenBudget: TokenBudget)
      ensures Valid() && store == map[]
      ensures this.config == config && this.toolCallLimit == toolCallLimit && this.tokenBudget == tokenBudget
    {
      this.config, this.toolCallLimit, this.tokenBudget := config, toolCallLimit, tokenBudget;
      store := map[];
    }

    function CallAllowance(iterations: nat): nat { (iterations + 1) * (config.overflowRetries + 1) }

    lemma AllowanceGrows(iterations: nat)
      ensures CallAllowance(iterations) + config.overflowRetries + 1 == CallAllowance(iterations + 1)
    {
    }

    /** The tokens of every answered call are counted, and none was made with the budget used up. */
    ghost predicate Accounted(answered: seq<Option<Usage>>)
      reads tokenBudget
    {
      Accounts(tokenBudget.limit, tokenBudget.inputUsed, tokenBudget.outputUsed, answered)
    }

    /** What a run may have done at most. */
    ghost predicate WithinCaps(world: World, trace: RunTrace)
      reads tokenBudget
    {
      && |trace.rounds| <= trace.iterations <= config.maxIterations
      && trace.providerCalls <= CallAllowance(trace.iterations)
      && (toolCallLimit.limit.Some? ==> Executed(trace.rounds) <= toolCallLimit.limit.value)
      && OnlyLastInterrupts(world, trace.rounds)
      && Accounted(trace.answered) && AllReported(world, trace.answered, trace.providerCalls)
    }

    /** The session and the trace tell the same story, within the caps. */
    ghost predicate Sound(world: World, opening: seq<Message>, session: seq<Message>, trace: RunTrace)
      reads tokenBudget
    {
      && AllWellFormed(trace.rounds)
      && WithinCaps(world, trace)
      && RanTools(world, trace.rounds)
      && Abridges(opening + Transcript(trace.rounds, |trace.rounds|), session)
      && (config.monitor.None? ==>
            && session == opening + Transcript(trace.rounds, |trace.rounds|)
            && Converses(world, opening, trace.rounds))
    }

    /** In addition nothing was truncated so far, and `reply` is the provider's answer to the session as it stands. */
    ghost predicate Continuing(world: World, opening: seq<Message>, session: seq<Message>, reply: Reply,
                               trace: RunTrace)
      reads tokenBudget
    {
      && Sound(world, opening, session, trace)
      && trace.iterations == |trace.rounds|
      && AllUninterrupted(world, trace.rounds, |trace.rounds|)
      && (config.monitor.None? ==>
            && trace.providerCalls == |trace.rounds| + 1
            && RepliesNow(world, |trace.rounds|, session, true, reply))
    }

    /** The counter agrees with the trace, and only a limit of zero is reached before the first round. */
    ghost predicate Counted(trace: RunTrace)
      reads toolCallLimit
    {
      && Executed(trace.rounds) == toolCallLimit.count
      && (trace.rounds != [] ==> !toolCallLimit.IsExceeded())
    }

    /** The guard has seen every round and stopped after none of them. */
    ghost predicate Watched(guard: LoopGuard, world: World, rounds: seq<Round>)
      reads guard
    {
      && guard.config == config.guard && guard.Amortised() && AllWellFormed(rounds)
      && guard.State() == GuardAfter(config.guard, world, rounds, |rounds|)
      && WentOn(config.guard, world, rounds, |rounds|)
    }

    /** After no round but the last did the guard end the run. */
    ghost predicate HeedsGuard(world: World, rounds: seq<Round>) {
      AllWellFormed(rounds) && (rounds != [] ==> WentOn(config.guard, world, rounds, |rounds| - 1))
    }

    /** Neither a pause nor the limit ended the run with the last round. */
    ghost predicate Finished(world: World, rounds: seq<Round>) {
      && AllUninterrupted(world, rounds, |rounds|)
      && (rounds != [] ==> toolCallLimit.limit != Some(Executed(rounds)))
    }

    ghost predicate WentOnAfterAll(world: World, rounds: seq<Round>) {
      AllWellFormed(rounds) && Finished(world, rounds) && WentOn(config.guard, world, rounds, |rounds|)
    }

    ghost predicate EndsQuietly(rounds: seq<Round>) { rounds != [] && rounds[|rounds| - 1].notes == [] }

    ghost predicate LimitEnds(world: World, rounds: seq<Round>) {
      && EndsQuietly(rounds)
      && !SomePause(world, |rounds| - 1, |rounds[|rounds| - 1].executed|)
      && toolCallLimit.limit == Some(Executed(rounds))
    }

    ghost predicate GuardEnds(exit: Exit, world: World, rounds: seq<Round>) {
      && rounds != [] && AllWellFormed(rounds) && Finished(world, rounds)
      && Judged(config.guard, world, rounds, |rounds| - 1, Some(exit))
    }

    /** Where the last reply comes from: with the monitor off, it answers exactly the session as it is saved. */
    ghost predicate RepliedLast(exit: Exit, world: World, session: seq<Message>, reply: Reply, rounds: seq<Round>) {
      match exit
      case Answered => config.monitor.None? ==> RepliesNow(world, |rounds|, session, true, reply)
      case IterationsExhausted => config.monitor.None? ==> RepliesNow(world, |rounds|, session, true, reply)
      case LimitAlreadyReached => config.monitor.None? ==> RepliesNow(world, |rounds|, session, true, reply)
      case Synthesized => config.monitor.None? ==> RepliesNow(world, |rounds|, session, false, reply)
      case _ => rounds != [] && reply.content == rounds[|rounds| - 1].draft
    }

    /** What each exit says about the run. */
    ghost predicate Explains(exit: Exit, world: World, session: seq<Message>, reply: Reply, trace: RunTrace)
      reads tokenBudget
    {
      var rounds := trace.rounds;
      RepliedLast(exit, world, session, reply, rounds) &&
      match exit
      case Answered => WentOnAfterAll(world, rounds) && reply.toolCalls == []
      case IterationsExhausted =>
        WentOnAfterAll(world, rounds) && reply.toolCalls != [] && trace.iterations == config.maxIterations
      case LimitAlreadyReached => toolCallLimit.limit == Some(0) && rounds == []
      case Paused => EndsQuietly(rounds) && SomePause(world, |rounds| - 1, |rounds[|rounds| - 1].executed|)
      case Synthesized =>
        && LimitEnds(world, rounds) && trace.providerCalls > 0
        && ProviderAnswered(world, trace.providerCalls - 1, false, reply)
      case LimitAndBudgetSpent => LimitEnds(world, rounds) && tokenBudget.IsExceeded()
      case GuardStopped => GuardEnds(exit, world, rounds)
      case OutcomesRepeated => GuardEnds(exit, world, rounds)
      case BudgetSpent => rounds != [] && WentOnAfterAll(world, rounds) && tokenBudget.IsExceeded()
    }

    /** Preflight leaves this session and sends this request. */
    ghost predicate Readied(world: World, session: seq<Message>, calls: nat, offerTools: bool,
                            guarded: seq<Message>, sent: seq<Message>) {
      exists trimmed, k ::
        Guarded(config, world, session, Offered(world, calls, offerTools), offerTools, Some(guarded), sent, trimmed, k)
    }

    /** Preflight, then the call with its retries, lead from a session to this one and to its reply. */
    ghost predicate Prompted(world: World, session: seq<Message>, calls: nat, offerTools: bool, to: Pass) {
      exists guarded, sent ::
        && Readied(world, session, calls, offerTools, guarded, sent)
        && RetryFrom(config, world, guarded, sent, calls, 0, offerTools) == Retried(Ok(to.reply), to.session, to.calls)
    }

    /** The session when the calls of a round have been answered and compaction has had its turn. */
    ghost function AfterResults(session: seq<Message>, round: Round): Option<seq<Message>>
      requires WellFormed(round)
    {
      CompactedIfUrgent(config, session + RoundMessages(round.(notes := [])))
    }

    /** How one pass of the loop leads from one state of the run to the next, monitor or not. */
    ghost predicate PassedThrough(exit: Option<Exit>, world: World, from: Pass, earlier: seq<Round>,
                                  rounds: seq<Round>, to: Pass) {
      if exit == Some(LimitAlreadyReached) then rounds == earlier && to == from
      else
        && rounds != [] && rounds[..|rounds| - 1] == earlier
        && var round := rounds[|rounds| - 1];
        && WellFormed(round) && round.draft == from.reply.content && round.requested == from.reply.toolCalls
        && AfterResults(from.session, round).Some?
        && var noted := AfterResults(from.session, round).value + NoteMessages(round.notes);
        if exit == None then Prompted(world, noted, from.calls, true, to)
        else if exit == Some(Synthesized) then Prompted(world, noted, from.calls, false, to)
        else to == Pass(noted, from.reply, from.calls)
    }

    ghost predicate Links(world: World, passes: seq<Pass>, rounds: seq<Round>, i: nat)
      requires i < |rounds| && |passes| == |rounds| + 1
    {
      PassedThrough(None, world, passes[i], rounds[..i], rounds[..i + 1], passes[i + 1])
    }

    ghost predicate Chained(world: World, passes: seq<Pass>, rounds: seq<Round>) {
      |passes| == |rounds| + 1 && forall i :: 0 <= i < |rounds| ==> Links(world, passes, rounds, i)
    }

    /** The whole run, pass by pass: from the first reply to the state in which the loop was left. */
    ghost predicate Story(exit: Exit, world: World, passes: seq<Pass>, rounds: seq<Round>, last: Pass) {
      && 0 < |passes| <= |rounds| + 1
      && var n := |passes| - 1;
      && Chained(world, passes, rounds[..n])
      && if exit == Answered || exit == IterationsExhausted then n == |rounds| && passes[n] == last
         else PassedThrough(Some(exit), world, passes[n], rounds[..n], rounds, last)
    }

    lemma StoryEnds(exit: Exit, world: World, passes: seq<Pass>, earlier: seq<Round>, rounds: seq<Round>, last: Pass)
      requires Chained(world, passes, earlier) && exit != Answered && exit != IterationsExhausted
      requires PassedThrough(Some(exit), world, passes[|earlier|], earlier, rounds, last)
      ensures Story(exit, world, passes, rounds, last)
    {
      assert rounds[..|earlier|] == earlier;
    }

    lemma StoryRunsOut(exit: Exit, world: World, passes: seq<Pass>, rounds: seq<Round>)
      requires Chained(world, passes, rounds) && (exit == Answered || exit == IterationsExhausted)
      ensures Story(exit, world, passes, rounds, passes[|rounds|])
    {
      assert rounds[..|rounds|] == rounds;
    }

    /** The run as a whole: the opening is made ready, the provider answers, and the story runs to its exit. */
    ghost predicate TellsAll(world: World, compacted: seq<Message>, passes: seq<Pass>, exit: Exit, trace: RunTrace,
                             session: seq<Message>, reply: Reply) {
      && passes != [] && Prompted(world, compacted, 0, true, passes[0])
      && Story(exit, world, passes, trace.rounds, Pass(session, reply, trace.providerCalls))
    }

    // ---- How a run fails ----

    /** The recovery that preflight asks for aborts. */
    ghost predicate NotReadied(world: World, session: seq<Message>, calls: nat, offerTools: bool) {
      exists sent, trimmed, k ::
        Guarded(config, world, session, Offered(world, calls, offerTools), offerTools, None, sent, trimmed, k)
    }

    /** Preflight aborts, or the request it sends and its retries end in this error, after so many calls in all. */
    ghost predicate Refused(world: World, session: seq<Message>, calls: nat, offerTools: bool, error: RunError,
                            calls': nat) {
      || (error == Aborted && calls' == calls && NotReadied(world, session, calls, offerTools))
      || exists guarded, sent ::
           && Readied(world, session, calls, offerTools, guarded, sent)
           && var retried := RetryFrom(config, world, guarded, sent, calls, 0, offerTools);
           retried.reply == Err(error) && retried.calls == calls'
    }

    /** How one pass fails: compaction aborts, or the next reply is refused. */
    ghost predicate PassFailed(error: RunError, world: World, from: Pass, earlier: seq<Round>, rounds: seq<Round>,
                               calls: nat) {
      && rounds != [] && rounds[..|rounds| - 1] == earlier
      && var round := rounds[|rounds| - 1];
      && WellFormed(round) && round.draft == from.reply.content && round.requested == from.reply.toolCalls
      && match AfterResults(from.session, round)
         case None => error == Aborted && calls == from.calls
         case Some(compacted) =>
           var offerTools := toolCallLimit.limit != Some(Executed(rounds));
           Refused(world, compacted + NoteMessages(round.notes), from.calls, offerTools, error, calls)
    }

    ghost predicate FailsIn(error: RunError, world: World, passes: seq<Pass>, rounds: seq<Round>, calls: nat) {
      && 0 < |passes| == |rounds|
      && Chained(world, passes, rounds[..|rounds| - 1])
      && PassFailed(error, world, passes[|passes| - 1], rounds[..|rounds| - 1], rounds, calls)
    }

    /** How a run fails on the way to its answer: before the first reply, or in the last of its passes. */
    ghost predicate RunFails(error: RunError, world: World, opening: seq<Message>, passes: seq<Pass>,
                             rounds: seq<Round>, calls: nat) {
      match CompactedIfUrgent(config, opening)
      case None => error == Aborted && passes == [] && rounds == [] && calls == 0
      case Some(compacted) =>
        if passes == [] then rounds == [] && Refused(world, compacted, 0, true, error, calls)
        else Prompted(world, compacted, 0, true, passes[0]) && FailsIn(error, world, passes, rounds, calls)
    }

    /** The provider's last call failed like this. */
    ghost predicate ProviderRefused(world: World, calls: nat, error: ProviderError) {
      && calls > 0
      && (ProviderFailedWith(world, calls - 1, true, error) || ProviderFailedWith(world, calls - 1, false, error))
    }

    /** What the errors of a run that fails on its way mean. */
    ghost predicate ErrorMeans(error: RunError, world: World, calls: nat) {
      match error
      case Aborted => config.monitor.Some?
      case ProviderFailed(e) => ProviderRefused(world, calls, e)
      case _ => false
    }

    lemma FailureEnds(error: RunError, world: World, passes: seq<Pass>, earlier: seq<Round>, rounds: seq<Round>,
                      calls: nat)
      requires Chained(world, passes, earlier)
      requires PassFailed(error, world, passes[|earlier|], earlier, rounds, calls)
      ensures FailsIn(error, world, passes, rounds, calls)
    {
    }

    lemma RefusalMeans(world: World, session: seq<Message>, calls: nat, offerTools: bool, error: RunError, calls': nat)
      requires Refused(world, session, calls, offerTools, error, calls')
      ensures ErrorMeans(error, world, calls')
    {
      hide TrimmedTo, Recover, Synced, EstimateFull, BuildResolvedMessages, RetryFrom;
      if error == Aborted && calls' == calls && NotReadied(world, session, calls, offerTools) {
        var sent, trimmed, k :|
          Guarded(config, world, session, Offered(world, calls, offerTools), offerTools, None, sent, trimmed, k);
      } else {
        var guarded, sent :|
          && Readied(world, session, calls, offerTools, guarded, sent)
          && RetryFrom(config, world, guarded, sent, calls, 0, offerTools).reply == Err(error)
          && RetryFrom(config, world, guarded, sent, calls, 0, offerTools).calls == calls';
        RetriesAreBounded(config, world, guarded, sent, calls, 0, offerTools);
        if error.ProviderFailed? { assert ProviderFailedWith(world, calls' - 1, offerTools, error.error); }
      }
    }

    lemma FailureMeans(error: RunError, world: World, opening: seq<Message>, passes: seq<Pass>, rounds: seq<Round>,
                       calls: nat)
      requires RunFails(error, world, opening, passes, rounds, calls)
      ensures ErrorMeans(error, world, calls)
    {
      hide Refused, Prompted, Chained, ErrorMeans, Recover, BuildResolvedMessages;
      match CompactedIfUrgent(config, opening) {
        case None => MonitorIsOn(opening, error, world, calls);
        case Some(compacted) =>
          if passes == [] {
            RefusalMeans(world, compacted, 0, true, error, calls);
          } else {
            var from, round := passes[|passes| - 1], rounds[|rounds| - 1];
            match AfterResults(from.session, round) {
              case None => MonitorIsOn(from.session + RoundMessages(round.(notes := [])), error, world, calls);
              case Some(after) =>
                var offerTools := toolCallLimit.limit != Some(Executed(rounds));
                RefusalMeans(world, after + NoteMessages(round.notes), from.calls, offerTools, error, calls);
            }
          }
      }
    }

    lemma MonitorIsOn(session: seq<Message>, error: RunError, world: World, calls: nat)
      requires CompactedIfUrgent(config, session).None? && error == Aborted
      ensures ErrorMeans(error, world, calls)
    {
    }

    // ---- Passes ----

    lemma ChainGrows(world: World, passes: seq<Pass>, earlier: seq<Round>, rounds: seq<Round>, to: Pass)
      requires Chained(world, passes, earlier)
      requires PassedThrough(None, world, passes[|earlier|], earlier, rounds, to)
      ensures Chained(world, passes + [to], rounds)
    {
      forall i | 0 <= i < |rounds| ensures Links(world, passes + [to], rounds, i) {
        if i < |earlier| {
          assert Links(world, passes, earlier, i);
          assert rounds[..i] == earlier[..i] && rounds[..i + 1] == earlier[..i + 1];
        } else {
          assert rounds[..i + 1] == rounds;
        }
      }
    }

    /** Truncates the batch to what the limit leaves, records the calls, runs them and records their results. */
    method PlayRound(world: World, index: nat, reply: Reply, session: seq<Message>)
      returns (executed: seq<ToolCall>, results: seq<Text>, pause: bool, longer: seq<Message>)
      requires reply.toolCalls != [] && !toolCallLimit.IsExceeded()
      ensures 0 < |executed| == |results| && executed <= reply.toolCalls
      ensures executed == reply.toolCalls || toolCallLimit.limit == Some(toolCallLimit.count + |executed|)
      ensures toolCallLimit.limit.Some? ==> toolCallLimit.count + |executed| <= toolCallLimit.limit.value
      ensures longer == session + [AssistantWithTools(reply.content, executed)] + ResultMessages(executed, results)
      ensures forall j :: 0 <= j < |results| ==> results[j] == world.runTool(index, j).result
      ensures pause <==> SomePause(world, index, |executed|)
    {
      executed := reply.toolCalls;
      var remaining := toolCallLimit.Remaining();
      if remaining.Some? && remaining.value < |executed| {
        executed := executed[..remaining.value];
      }
      longer := session + [AssistantWithTools(reply.content, executed)];
      results, pause := ExecuteBatch(world, index, executed);
      longer := AddResults(longer, executed, results);
    }

    /** Preflight, provider call and token accounting. */
    method NextReply(world: World, session: seq<Message>, calls: nat, offerTools: bool)
      returns (reply: Result<Reply, RunError>, session': seq<Message>, calls': nat)
      modifies tokenBudget
      ensures calls <= calls' <= calls + config.overflowRetries + 1
      ensures Abridges(session, session')
      ensures reply.Err? ==> Refused(world, session, calls, offerTools, reply.error, calls')
      ensures reply.Ok? ==> calls < calls' && ProviderAnswered(world, calls' - 1, offerTools, reply.value)
      ensures reply.Ok? ==> Prompted(world, session, calls, offerTools, Pass(session', reply.value, calls'))
      ensures var usage := if reply.Ok? then reply.value.usage else None;
        && tokenBudget.inputUsed == old(tokenBudget.inputUsed) + (if usage.Some? then usage.value.promptTokens else 0)
        && tokenBudget.outputUsed
           == old(tokenBudget.outputUsed) + if usage.Some? then usage.value.completionTokens else 0
      ensures config.monitor.None? ==>
        && session' == session && calls' == calls + 1
        && (reply.Ok? ==> RepliesNow(world, calls, session, offerTools, reply.value))
    {
      hide BuildResolvedMessages, TrimmedTo, Recover, Synced, EstimateFull, Abridges, Sends, PreflightLeaves;
      var tools := Offered(world, calls, offerTools);
      var guarded, sent, _, _ := PreflightSession(config, world, session, tools, offerTools);
      if guarded.None? {
        AbridgesItself(session);
        assert NotReadied(world, session, calls, offerTools);
        return Err(Aborted), session, calls;
      }
      assert Readied(world, session, calls, offerTools, guarded.value, sent);
      RetriesAreBounded(config, world, guarded.value, sent, calls, 0, offerTools);
      reply, session', calls' := CallProvider(config, world, guarded.value, sent, calls, offerTools);
      AbridgesCompose(session, guarded.value, session');
      if reply.Ok? && reply.value.usage.Some? {
        tokenBudget.Record(reply.value.usage.value.promptTokens, reply.value.usage.value.completionTokens);
      }
    }

    /** The guard's verdict on a round; what it notes goes into the transcript behind the results. */
    method Consult(guard: LoopGuard, world: World, executed: seq<ToolCall>, results: seq<Text>)
      returns (exit: Option<Exit>, notes: seq<Text>)
      requires |executed| == |results| && guard.config == config.guard && guard.Amortised()
      modifies guard
      ensures guard.Amortised()
      ensures (guard.State(), notes, exit) == GuardRound(config.guard, world, old(guard.State()), executed, results)
    {
      hide CheckStep, OutcomesFrom;
      exit, notes := None, [];
      if config.guard.enabled {
        var stop;
        stop, notes := CheckLoopGuard(guard, world, executed);
        if stop {
          return Some(GuardStopped), notes;
        }
        var more;
        stop, more := CheckLoopGuardOutcomes(guard, world, executed, results);
        notes := notes + more;
        if stop {
          exit := Some(OutcomesRepeated);
        }
      }
    }

    lemma RoundKeepsCaps(world: World, trace: RunTrace, round: Round)
      requires WithinCaps(world, trace) && trace.iterations == |trace.rounds| < config.maxIterations
      requires AllUninterrupted(world, trace.rounds, |trace.rounds|)
      requires toolCallLimit.limit.Some? ==> Executed(trace.rounds) + |round.executed| <= toolCallLimit.limit.value
      ensures WithinCaps(world, trace.(rounds := trace.rounds + [round], iterations := trace.iterations + 1))
    {
      hide Accounts, AllReported, CallAllowance;
      ExecutedAppended(trace.rounds, round);
      EarlierRoundsStand(world, trace.rounds, round);
      AllowanceGrows(trace.iterations);
    }

    /** A round that answers the current reply extends a sound run. */
    lemma RoundKeepsSound(world: World, opening: seq<Message>, session: seq<Message>, reply: Reply, trace: RunTrace,
                          round: Round, longer: seq<Message>)
      requires Continuing(world, opening, session, reply, trace) && trace.iterations < config.maxIterations
      requires WellFormed(round) && round.draft == reply.content && round.requested == reply.toolCalls
      requires forall j :: 0 <= j < |round.results| ==> round.results[j] == world.runTool(|trace.rounds|, j).result
      requires toolCallLimit.limit.Some? ==> Executed(trace.rounds) + |round.executed| <= toolCallLimit.limit.value
      requires config.monitor.None? ==> longer == session + RoundMessages(round)
      requires Abridges(session + RoundMessages(round), longer)
      ensures var rounds := trace.rounds + [round];
        && Sound(world, opening, longer, trace.(rounds := rounds, iterations := trace.iterations + 1))
        && Executed(rounds) == Executed(trace.rounds) + |round.executed|
    {
      hide BuildResolvedMessages, RoundMessages, Abridges, Accounts, AllReported, WithinCaps;
      var rounds := trace.rounds;
      RoundAppended(rounds, round);
      RoundKeepsCaps(world, trace, round);
      var told := opening + Transcript(rounds, |rounds|);
      AbridgesBefore(told, session, RoundMessages(round));
      AbridgesCompose(told + RoundMessages(round), session + RoundMessages(round), longer);
      assert told + RoundMessages(round) == opening + (Transcript(rounds, |rounds|) + RoundMessages(round));
      assert RanTools(world, rounds + [round]);
      if config.monitor.None? {
        TranscriptExtends(rounds, round, |rounds|);
        assert RepliesTo(world, opening, rounds + [round], |rounds|);
        StillConverses(world, opening, rounds, round);
        assert longer == opening + (Transcript(rounds, |rounds|) + RoundMessages(round));
      }
    }

    lemma WatchedIsHeeded(guard: LoopGuard, world: World, rounds: seq<Round>)
      requires Watched(guard, world, rounds)
      ensures HeedsGuard(world, rounds)
    {
    }

    /** The same for caps, transcript and guard together. */
    lemma RoundRecorded(guard: LoopGuard, world: World, opening: seq<Message>, session: seq<Message>, reply: Reply,
                        trace: RunTrace, round: Round, longer: seq<Message>)
      requires Continuing(world, opening, session, reply, trace) && trace.iterations < config.maxIterations
      requires WellFormed(round) && round.draft == reply.content && round.requested == reply.toolCalls
      requires forall j :: 0 <= j < |round.results| ==> round.results[j] == world.runTool(|trace.rounds|, j).result
      requires toolCallLimit.limit.Some? ==> Executed(trace.rounds) + |round.executed| <= toolCallLimit.limit.value
      requires config.monitor.None? ==> longer == session + RoundMessages(round)
      requires Abridges(session + RoundMessages(round), longer) && Watched(guard, world, trace.rounds)
      ensures var rounds := trace.rounds + [round];
        && Sound(world, opening, longer, trace.(rounds := rounds, iterations := trace.iterations + 1))
        && Executed(rounds) == Executed(trace.rounds) + |round.executed|
        && HeedsGuard(world, rounds)
    {
      hide BuildResolvedMessages, RoundMessages, Abridges, GuardRound, Judged;
      RoundKeepsSound(world, opening, session, reply, trace, round, longer);
      GuardAdvances(config.guard, world, trace.rounds, round);
    }

    /** The provider call that ends a pass through the loop; `offerTools` says whether tools are offered. */
    method CallOnce(world: World, ghost opening: seq<Message>, session: seq<Message>, calls: nat, offerTools: bool,
                    ghost trace: RunTrace)
      returns (r: Result<Reply, RunError>, session': seq<Message>, calls': nat, ghost trace': RunTrace)
      requires Sound(world, opening, session, trace) && calls == trace.providerCalls && !tokenBudget.IsExceeded()
      requires trace.iterations > 0 && calls <= CallAllowance(trace.iterations - 1)
      modifies tokenBudget
      ensures Sound(world, opening, session', trace') && calls' == trace'.providerCalls
      ensures r.Err? ==> Refused(world, session, calls, offerTools, r.error, calls')
      ensures r.Ok? ==> calls' > 0 && ProviderAnswered(world, calls' - 1, offerTools, r.value)
      ensures r.Ok? ==> Prompted(world, session, calls, offerTools, Pass(session', r.value, calls'))
      ensures trace'
        == trace.(providerCalls := calls',
                  answered := if r.Ok? then trace.answered + [r.value.usage] else trace.answered)
      ensures config.monitor.None? ==>
        && session' == session && calls' == calls + 1
        && (r.Ok? ==> RepliesNow(world, calls, session, offerTools, r.value))
    {
      hide BuildResolvedMessages, Transcript, CallAllowance, Converses, RanTools, Abridges, Prompted, Refused;
      hide Accounts, AllReported;
      AllowanceGrows(trace.iterations - 1);
      r, session', calls' := NextReply(world, session, calls, offerTools);
      AbridgesCompose(opening + Transcript(trace.rounds, |trace.rounds|), session, session');
      MoreCalls(world, trace.answered, calls, calls');
      trace' := trace.(providerCalls := calls',
                       answered := if r.Ok? then trace.answered + [r.value.usage] else trace.answered);
      if r.Ok? {
        OneMoreReported(world, trace.answered, calls', offerTools, r.value);
        OneMoreAccounted(tokenBudget.limit, old(tokenBudget.inputUsed), old(tokenBudget.outputUsed), trace.answered,
                         r.value.usage);
      }
    }

    /** Plays a round and compacts the session if it has become too full. */
    method RunRound(world: World, index: nat, reply: Reply, session: seq<Message>)
      returns (executed: seq<ToolCall>, results: seq<Text>, pause: bool, compacted: Option<seq<Message>>)
      requires reply.toolCalls != [] && !toolCallLimit.IsExceeded()
      ensures 0 < |executed| == |results| && executed <= reply.toolCalls
      ensures executed == reply.toolCalls || toolCallLimit.limit == Some(toolCallLimit.count + |executed|)
      ensures toolCallLimit.limit.Some? ==> toolCallLimit.count + |executed| <= toolCallLimit.limit.value
      ensures forall j :: 0 <= j < |results| ==> results[j] == world.runTool(index, j).result
      ensures pause <==> SomePause(world, index, |executed|)
      ensures var quiet := Round(reply.content, reply.toolCalls, executed, results, []);
        && compacted == AfterResults(session, quiet)
        && (compacted.Some? ==> CompactionLeaves(config.monitor, session + RoundMessages(quiet), compacted.value))
        && (compacted.Some? ==> Abridges(session + RoundMessages(quiet), compacted.value))
        && (config.monitor.None? ==> compacted == Some(session + RoundMessages(quiet)))
    {
      hide CompactedIfUrgent, Abridges, ResultMessages, CompactionLeaves;
      var longer;
      executed, results, pause, longer := PlayRound(world, index, reply, session);
      ghost var quiet := Round(reply.content, reply.toolCalls, executed, results, []);
      QuietRoundMessages(quiet);
      assert longer == session + RoundMessages(quiet) && quiet.(notes := []) == quiet;
      compacted := CompactIfUrgent(config, longer);
    }

    /** Compaction takes its turn before the guard adds its notes. */
    lemma NotesComeLater(session: seq<Message>, quiet: Round, notes: seq<Text>)
      requires WellFormed(quiet) && quiet.notes == []
      ensures AfterResults(session, quiet.(notes := notes)) == AfterResults(session, quiet)
    {
      assert quiet.(notes := notes).(notes := []) == quiet;
    }

    /** A limit that is exceeded at the head of the loop is a limit of zero, in the first pass. */
    lemma NothingIsAllowed(world: World, opening: seq<Message>, session: seq<Message>, reply: Reply, trace: RunTrace)
      requires Continuing(world, opening, session, reply, trace) && Counted(trace) && toolCallLimit.IsExceeded()
      ensures Explains(LimitAlreadyReached, world, session, reply, trace.(iterations := trace.iterations + 1))
    {
      hide Sound, RepliesNow;
      NothingExecuted();
    }

    lemma PauseExplained(world: World, session: seq<Message>, reply: Reply, trace: RunTrace)
      requires EndsQuietly(trace.rounds) && trace.rounds[|trace.rounds| - 1].draft == reply.content
      requires SomePause(world, |trace.rounds| - 1, |trace.rounds[|trace.rounds| - 1].executed|)
      ensures Explains(Paused, world, session, reply, trace)
    {
    }

    lemma NoPass(world: World, from: Pass, earlier: seq<Round>)
      ensures PassedThrough(Some(LimitAlreadyReached), world, from, earlier, earlier, from)
    {
    }

    /** A pass that ends before the guard is consulted. */
    lemma QuietPass(exit: Exit, world: World, from: Pass, earlier: seq<Round>, quiet: Round, compacted: seq<Message>,
                    to: Pass)
      requires WellFormed(quiet) && quiet.notes == []
      requires quiet.draft == from.reply.content && quiet.requested == from.reply.toolCalls
      requires AfterResults(from.session, quiet) == Some(compacted) && exit != LimitAlreadyReached
      requires if exit == Synthesized then Prompted(world, compacted, from.calls, false, to)
               else to == Pass(compacted, from.reply, from.calls)
      ensures PassedThrough(Some(exit), world, from, earlier, earlier + [quiet], to)
    {
      hide Prompted, AfterResults;
      assert compacted + NoteMessages([]) == compacted;
    }

    /** A pass that ends after the guard was consulted. */
    lemma NotedPass(exit: Option<Exit>, world: World, from: Pass, earlier: seq<Round>, round: Round,
                    compacted: seq<Message>, to: Pass)
      requires WellFormed(round) && exit != Some(LimitAlreadyReached) && exit != Some(Synthesized)
      requires round.draft == from.reply.content && round.requested == from.reply.toolCalls
      requires AfterResults(from.session, round) == Some(compacted)
      requires var noted := compacted + NoteMessages(round.notes);
        if exit == None then Prompted(world, noted, from.calls, true, to)
        else to == Pass(noted, from.reply, from.calls)
      ensures PassedThrough(exit, world, from, earlier, earlier + [round], to)
    {
      hide Prompted, AfterResults;
    }

    lemma NotedFailure(error: RunError, world: World, from: Pass, earlier: seq<Round>, round: Round,
                       compacted: seq<Message>, calls: nat)
      requires WellFormed(round)
      requires round.draft == from.reply.content && round.requested == from.reply.toolCalls
      requires AfterResults(from.session, round) == Some(compacted)
      requires toolCallLimit.limit != Some(Executed(earlier + [round]))
      requires Refused(world, compacted + NoteMessages(round.notes), from.calls, true, error, calls)
      ensures PassFailed(error, world, from, earlier, earlier + [round], calls)
    {
      hide Refused, AfterResults, Executed;
    }

    lemma QuietFailure(error: RunError, world: World, from: Pass, earlier: seq<Round>, quiet: Round, calls: nat)
      requires WellFormed(quiet) && quiet.notes == []
      requires quiet.draft == from.reply.content && quiet.requested == from.reply.toolCalls
      requires match AfterResults(from.session, quiet)
               case None => error == Aborted && calls == from.calls
               case Some(compacted) =>
                 && toolCallLimit.limit == Some(Executed(earlier + [quiet]))
                 && Refused(world, compacted, from.calls, false, error, calls)
      ensures PassFailed(error, world, from, earlier, earlier + [quiet], calls)
    {
      hide Refused, AfterResults, Executed;
      if AfterResults(from.session, quiet).Some? {
        var compacted := AfterResults(from.session, quiet).value;
        assert compacted + NoteMessages([]) == compacted;
      }
    }

    /** The limit is reached: one last call without tools, unless the token budget is spent as well. */
    method Synthesize(world: World, ghost opening: seq<Message>, session: seq<Message>, reply: Reply, calls: nat,
                      ghost trace: RunTrace)
      returns (r: Result<Step, RunError>, ghost final: seq<Message>, ghost trace': RunTrace)
      requires Sound(world, opening, session, trace) && calls == trace.providerCalls
      requires trace.iterations > 0 && calls <= CallAllowance(trace.iterations - 1)
      requires LimitEnds(world, trace.rounds) && trace.rounds[|trace.rounds| - 1].draft == reply.content
      requires config.monitor.None? ==> calls == |trace.rounds|
      modifies tokenBudget
      ensures Sound(world, opening, final, trace') && trace'.rounds == trace.rounds
      ensures r.Err? ==> Refused(world, session, calls, false, r.error, trace'.providerCalls)
      ensures trace'.answered == AnsweredAfter(trace.answered, r)
      ensures r.Ok? ==>
        && r.value.session == final && trace'.providerCalls == r.value.calls
        && (r.value == Step(session, reply, calls, Some(LimitAndBudgetSpent))
            || (r.value.exit == Some(Synthesized)
                && Prompted(world, session, calls, false, Pass(final, r.value.reply, r.value.calls))))
        && Explains(r.value.exit.value, world, final, r.value.reply, trace')
    {
      hide Sound, BuildResolvedMessages, Transcript, CallAllowance, Executed;
      hide Prompted, Refused, Abridges, SomePause, ProviderAnswered;
      if tokenBudget.IsExceeded() {
        return Ok(Step(session, reply, calls, Some(LimitAndBudgetSpent))), session, trace;
      }
      var last, session', calls';
      last, session', calls', trace' := CallOnce(world, opening, session, calls, false, trace);
      final := session';
      r := if last.Ok? then Ok(Step(session', last.value, calls', Some(Synthesized))) else Err(last.error);
    }

    /** The same as the end of a pass. */
    method EndAtLimit(world: World, ghost opening: seq<Message>, ghost session: seq<Message>, reply: Reply,
                      ghost quiet: Round, compacted: seq<Message>, calls: nat,
                      ghost earlier: seq<Round>,
                      ghost trace: RunTrace)
      returns (r: Result<Step, RunError>, ghost final: seq<Message>, ghost trace': RunTrace)
      requires Sound(world, opening, compacted, trace) && calls == trace.providerCalls
      requires trace.iterations > 0 && calls <= CallAllowance(trace.iterations - 1)
      requires WellFormed(quiet) && quiet.notes == [] && trace.rounds == earlier + [quiet]
      requires quiet.draft == reply.content && quiet.requested == reply.toolCalls
      requires AfterResults(session, quiet) == Some(compacted) && LimitEnds(world, trace.rounds)
      requires config.monitor.None? ==> calls == |trace.rounds|
      modifies tokenBudget
      ensures Sound(world, opening, final, trace') && trace'.rounds == trace.rounds
      ensures r.Err? ==>
        PassFailed(r.error, world, Pass(session, reply, calls), earlier, trace'.rounds, trace'.providerCalls)
      ensures trace'.answered == AnsweredAfter(trace.answered, r)
      ensures r.Ok? ==>
        && r.value.session == final && trace'.providerCalls == r.value.calls && r.value.exit.Some?
        && r.value.exit.value != Answered && r.value.exit.value != IterationsExhausted
        && PassedThrough(r.value.exit, world, Pass(session, reply, calls), earlier, trace'.rounds,
                         Pass(final, r.value.reply, r.value.calls))
        && Explains(r.value.exit.value, world, final, r.value.reply, trace')
    {
      hide Sound, CallAllowance, Executed, Prompted, Refused, AfterResults, PassedThrough, PassFailed, Explains;
      hide SomePause, RoundMessages;
      r, final, trace' := Synthesize(world, opening, compacted, reply, calls, trace);
      if r.Ok? {
        QuietPass(r.value.exit.value, world, Pass(session, reply, calls), earlier, quiet, compacted,
                  Pass(final, r.value.reply, r.value.calls));
      } else {
        QuietFailure(r.error, world, Pass(session, reply, calls), earlier, quiet, trace'.providerCalls);
      }
    }

    /** One pass through the tool loop; an exit means that the loop is left. */
    method Iterate(guard: LoopGuard, world: World, ghost opening: seq<Message>, session: seq<Message>, reply: Reply,
                   index: nat, calls: nat, ghost trace: RunTrace)
      returns (r: Result<Step, RunError>, ghost final: seq<Message>, ghost trace': RunTrace)
      requires Continuing(world, opening, session, reply, trace) && Counted(trace)
      requires reply.toolCalls != [] && index < config.maxIterations
      requires index == trace.iterations && calls == trace.providerCalls && Watched(guard, world, trace.rounds)
      modifies guard, toolCallLimit, tokenBudget
      ensures Sound(world, opening, final, trace') && HeedsGuard(world, trace'.rounds)
      ensures r.Err? ==> PassFailed(r.error, world, Pass(session, reply, calls), trace.rounds, trace'.rounds,
                                    trace'.providerCalls)
      ensures trace'.answered == AnsweredAfter(trace.answered, r)
      ensures r.Ok? ==> r.value.session == final && trace'.providerCalls == r.value.calls
      ensures r.Ok? ==>
        PassedThrough(r.value.exit, world, Pass(session, reply, calls), trace.rounds, trace'.rounds,
                      Pass(final, r.value.reply, r.value.calls))
      ensures r.Ok? && r.value.exit.Some? ==>
        && r.value.exit.value != Answered && r.value.exit.value != IterationsExhausted
        && Explains(r.value.exit.value, world, final, r.value.reply, trace')
      ensures r.Ok? && r.value.exit.None? ==>
        && Continuing(world, opening, final, r.value.reply, trace') && Counted(trace')
        && trace'.iterations == index + 1 && Watched(guard, world, trace'.rounds)
    {
      hide Sound, BuildResolvedMessages, RoundMessages, Transcript, CallAllowance;
      hide Executed, AfterResults, PassedThrough, Abridges;
      hide PassFailed, Refused, Explains, NoteMessages, Prompted, Watched, HeedsGuard;
      hide AllUninterrupted, OnlyLastInterrupts;
      hide RepliesNow, SomePause, ProviderAnswered, WentOnAfterAll, GuardEnds, WithinCaps, Accounts, AllReported;
      hide CompactionLeaves;
      final := session;
      if toolCallLimit.IsExceeded() {
        trace' := trace.(iterations := index + 1);
        SoundForLonger(world, opening, session, trace);
        WatchedIsHeeded(guard, world, trace.rounds);
        NothingIsAllowed(world, opening, session, reply, trace);
        NoPass(world, Pass(session, reply, calls), trace.rounds);
        return Ok(Step(session, reply, calls, Some(LimitAlreadyReached))), final, trace';
      }
      var executed, results, pause, compacted := RunRound(world, index, reply, session);
      ghost var quiet := Round(reply.content, reply.toolCalls, executed, results, []);
      final := if compacted.Some? then compacted.value else session + RoundMessages(quiet);
      AbridgesItself(session + RoundMessages(quiet));
      RoundRecorded(guard, world, opening, session, reply, trace, quiet, final);
      trace' := trace.(rounds := trace.rounds + [quiet], iterations := index + 1);
      if compacted.None? {
        QuietFailure(Aborted, world, Pass(session, reply, calls), trace.rounds, quiet, calls);
        return Err(Aborted), final, trace';
      }
      if pause {
        PauseExplained(world, final, reply, trace');
        QuietPass(Paused, world, Pass(session, reply, calls), trace.rounds, quiet, compacted.value,
                  Pass(compacted.value, reply, calls));
        return Ok(Step(compacted.value, reply, calls, Some(Paused))), final, trace';
      }
      toolCallLimit.Increment(|executed|);
      SoundMeansAllowance(world, opening, session, trace);
      if toolCallLimit.IsExceeded() {
        r, final, trace' := EndAtLimit(
          world, opening, session, reply, quiet, compacted.value, calls, trace.rounds, trace');
        return;
      }
      r, final, trace' := FinishRound(
        guard, world, opening, session, reply, quiet, executed, results, compacted.value, calls, trace);
    }

    /** Lets the guard judge a round and writes what it notes into the session. */
    method Note(guard: LoopGuard, world: World, ghost opening: seq<Message>, ghost session: seq<Message>, reply: Reply,
                ghost quiet: Round, executed: seq<ToolCall>, results: seq<Text>, longer: seq<Message>,
                ghost trace: RunTrace)
      returns (exit: Option<Exit>, notes: seq<Text>, session': seq<Message>)
      requires WellFormed(quiet) && quiet == Round(reply.content, reply.toolCalls, executed, results, [])
      requires Watched(guard, world, trace.rounds)
      requires config.monitor.None? ==> longer == session + RoundMessages(quiet)
      requires Abridges(session + RoundMessages(quiet), longer)
      modifies guard
      ensures session' == longer + NoteMessages(notes)
      ensures exit.Some? ==> exit.value == GuardStopped || exit.value == OutcomesRepeated
      ensures var round := quiet.(notes := notes);
        && Abridges(session + RoundMessages(round), session')
        && (config.monitor.None? ==> session' == session + RoundMessages(round))
        && HeedsGuard(world, trace.rounds + [round])
        && Judged(config.guard, world, trace.rounds + [round], |trace.rounds|, exit)
        && (exit.None? ==> Watched(guard, world, trace.rounds + [round]))
    {
      hide RoundMessages, CheckStep, OutcomesFrom, WentOn, GuardAfter, Judged, Abridges;
      exit, notes := Consult(guard, world, executed, results);
      ghost var noted := quiet.(notes := notes);
      GuardAdvances(config.guard, world, trace.rounds, noted);
      NotedRoundMessages(quiet, notes);
      session' := longer + NoteMessages(notes);
      AbridgesBefore(session + RoundMessages(quiet), longer, NoteMessages(notes));
      assert session + RoundMessages(noted) == session + RoundMessages(quiet) + NoteMessages(notes);
    }

    /** The second half of a pass: the guard's verdict, the token budget, and the next provider call. */
    method FinishRound(guard: LoopGuard, world: World, ghost opening: seq<Message>, ghost session: seq<Message>,
                       reply: Reply,
                       ghost quiet: Round, executed: seq<ToolCall>, results: seq<Text>, longer: seq<Message>,
                       calls: nat,
                       ghost trace: RunTrace)
      returns (r: Result<Step, RunError>, ghost final: seq<Message>, ghost trace': RunTrace)
      requires Continuing(world, opening, session, reply, trace) && trace.iterations < config.maxIterations
      requires WellFormed(quiet) && quiet == Round(reply.content, reply.toolCalls, executed, results, [])
      requires executed == reply.toolCalls && calls == trace.providerCalls && Watched(guard, world, trace.rounds)
      requires forall j :: 0 <= j < |results| ==> results[j] == world.runTool(|trace.rounds|, j).result
      requires toolCallLimit.limit.Some? ==> Executed(trace.rounds) + |executed| <= toolCallLimit.limit.value
      requires toolCallLimit.count == Executed(trace.rounds) + |executed| && !toolCallLimit.IsExceeded()
      requires !SomePause(world, |trace.rounds|, |executed|)
      requires config.monitor.None? ==> longer == session + RoundMessages(quiet)
      requires Abridges(session + RoundMessages(quiet), longer)
      requires AfterResults(session, quiet) == Some(longer)
      modifies guard, tokenBudget
      ensures Sound(world, opening, final, trace') && HeedsGuard(world, trace'.rounds)
      ensures r.Err? ==> PassFailed(r.error, world, Pass(session, reply, calls), trace.rounds, trace'.rounds,
                                    trace'.providerCalls)
      ensures trace'.answered == AnsweredAfter(trace.answered, r)
      ensures r.Ok? ==> r.value.session == final && trace'.providerCalls == r.value.calls
      ensures r.Ok? ==>
        PassedThrough(r.value.exit, world, Pass(session, reply, calls), trace.rounds, trace'.rounds,
                      Pass(final, r.value.reply, r.value.calls))
      ensures r.Ok? && r.value.exit.Some? ==>
        && r.value.exit.value != Answered && r.value.exit.value != IterationsExhausted
        && Explains(r.value.exit.value, world, final, r.value.reply, trace')
      ensures r.Ok? && r.value.exit.None? ==>
        && Continuing(world, opening, final, r.value.reply, trace') && Counted(trace')
        && trace'.iterations == trace.iterations + 1 && Watched(guard, world, trace'.rounds)
    {
      hide Sound, BuildResolvedMessages, RoundMessages, Transcript, CallAllowance;
      hide Executed, HeedsGuard, AfterResults, Prompted, Refused, Abridges;
      hide WentOn, GuardAfter, GuardRound, Judged, AllUninterrupted, OnlyLastInterrupts, ResultMessages;
      hide WithinCaps, Accounts, AllReported, NoteMessages, RepliesNow, ProviderAnswered;
      SoundMeansAllowance(world, opening, session, trace);
      var exit, notes, session';
      exit, notes, session' := Note(guard, world, opening, session, reply, quiet, executed, results, longer, trace);
      ghost var noted := quiet.(notes := notes);
      RoundKeepsSound(world, opening, session, reply, trace, noted, session');
      trace' := trace.(rounds := trace.rounds + [noted], iterations := trace.iterations + 1);
      final := session';
      RoundIsFinished(world, trace.rounds, noted);
      NotesComeLater(session, quiet, notes);
      hide PassedThrough, PassFailed;
      if exit.Some? {
        NotedPass(exit, world, Pass(session, reply, calls), trace.rounds, noted, longer, Pass(session', reply, calls));
        return Ok(Step(session', reply, calls, exit)), final, trace';
      }
      if tokenBudget.IsExceeded() {
        NotedPass(Some(BudgetSpent), world, Pass(session, reply, calls), trace.rounds, noted, longer,
                  Pass(session', reply, calls));
        return Ok(Step(session', reply, calls, Some(BudgetSpent))), final, trace';
      }
      var next, session'', calls';
      next, session'', calls', trace' := CallOnce(world, opening, session', calls, true, trace');
      final := session'';
      if next.Ok? {
        NotedPass(None, world, Pass(session, reply, calls), trace.rounds, noted, longer,
                  Pass(session'', next.value, calls'));
      } else {
        NotedFailure(next.error, world, Pass(session, reply, calls), trace.rounds, noted, longer, calls');
      }
      r := if next.Ok? then Ok(Step(session'', next.value, calls', None)) else Err(next.error);
    }

    lemma RoundIsFinished(world: World, rounds: seq<Round>, r: Round)
      requires AllUninterrupted(world, rounds, |rounds|)
      requires r.executed == r.requested && !SomePause(world, |rounds|, |r.executed|)
      ensures AllUninterrupted(world, rounds + [r], |rounds + [r]|)
    {
      EarlierRoundsStand(world, rounds, r);
    }

    lemma SoundForLonger(world: World, opening: seq<Message>, session: seq<Message>, trace: RunTrace)
      requires Sound(world, opening, session, trace) && trace.iterations < config.maxIterations
      ensures Sound(world, opening, session, trace.(iterations := trace.iterations + 1))
    {
      AllowanceGrows(trace.iterations);
    }

    lemma SoundMeansAllowance(world: World, opening: seq<Message>, session: seq<Message>, trace: RunTrace)
      requires Sound(world, opening, session, trace)
      ensures trace.providerCalls <= CallAllowance(trace.iterations) && |trace.rounds| <= trace.iterations
      ensures AllWellFormed(trace.rounds)
    {
    }

    function Loaded(key: Text): seq<Message>
      reads this
    {
      if key in store then store[key] else []
    }

    method Save(key: Text, session: seq<Message>, saveFails: bool) returns (ok: bool)
      requires Valid() && (config.monitor.None? ==> Paired(session))
      modifies `store
      ensures Valid() && store == old(store)[key := session]
      ensures ok == !saveFails
    {
      // The in-memory copy is updated before the file is written.
      store := store[key := session];
      ok := !saveFails;
    }

    /** The tool loop: passes until the provider answers without calls, the iterations run out, or a pass exits. */
    method RunLoop(world: World, ghost opening: seq<Message>, session: seq<Message>, reply: Reply, calls: nat,
                   ghost trace: RunTrace)
      returns (r: Result<Step, RunError>, ghost exit: Exit, ghost trace': RunTrace, ghost passes: seq<Pass>)
      requires Continuing(world, opening, session, reply, trace) && Counted(trace)
      requires trace.iterations == 0 && calls == trace.providerCalls && trace.answered == [reply.usage]
      modifies toolCallLimit, tokenBudget
      ensures AllWellFormed(trace'.rounds) && WithinCaps(world, trace') && RanTools(world, trace'.rounds)
      ensures HeedsGuard(world, trace'.rounds)
      ensures r.Err? ==> FailsIn(r.error, world, passes, trace'.rounds, trace'.providerCalls)
      ensures r.Ok? ==> Sound(world, opening, r.value.session, trace')
      ensures r.Ok? ==> Explains(exit, world, r.value.session, r.value.reply, trace')
      ensures r.Ok? ==> r.value.exit == Some(exit) && r.value.calls == trace'.providerCalls
      ensures |passes| > 0 && passes[0] == Pass(session, reply, calls)
      ensures trace'.answered == Usages(passes, exit, if r.Ok? then r.value.reply else reply)
      ensures r.Err? ==> exit == Answered
      ensures r.Ok? ==> Story(exit, world, passes, trace'.rounds, Pass(r.value.session, r.value.reply, r.value.calls))
    {
      hide BuildResolvedMessages, Transcript, CallAllowance, PassedThrough, Links, Story, Converses, RanTools, Abridges;
      hide RepliesNow, GuardRound, Judged, PassFailed, FailsIn, Accounts, AllReported, Usages;
      UsagesGrow([], Pass(session, reply, calls), reply);
      var guard := new LoopGuard(config.guard);
      var step := Step(session, reply, calls, None);
      var iteration := 0;
      trace', passes := trace, [Pass(session, reply, calls)];
      exit := Answered;
      while step.reply.toolCalls != [] && iteration < config.maxIterations
        invariant iteration == trace'.iterations <= config.maxIterations && step.calls == trace'.providerCalls
        invariant Watched(guard, world, trace'.rounds) && fresh(guard) && step.exit == None
        invariant Continuing(world, opening, step.session, step.reply, trace') && Counted(trace')
        invariant Chained(world, passes, trace'.rounds) && passes[0] == Pass(session, reply, calls)
        invariant passes[|passes| - 1] == Pass(step.session, step.reply, step.calls)
        invariant exit == Answered && trace'.answered == Usages(passes, Answered, reply)
        decreases config.maxIterations - iteration
      {
        ghost var final, earlier := [], trace'.rounds;
        r, final, trace' := Iterate(guard, world, opening, step.session, step.reply, iteration, step.calls, trace');
        if r.Err? {
          FailureEnds(r.error, world, passes, earlier, trace'.rounds, trace'.providerCalls);
          return;
        }
        if r.value.exit.Some? {
          exit := r.value.exit.value;
          UsagesEnd(passes, exit, r.value.reply, reply);
          StoryEnds(exit, world, passes, earlier, trace'.rounds, Pass(final, r.value.reply, r.value.calls));
          return;
        }
        ChainGrows(world, passes, earlier, trace'.rounds, Pass(final, r.value.reply, r.value.calls));
        UsagesGrow(passes, Pass(final, r.value.reply, r.value.calls), reply);
        passes := passes + [Pass(final, r.value.reply, r.value.calls)];
        step := r.value;
        iteration := iteration + 1;
      }
      exit := if step.reply.toolCalls == [] then Answered else IterationsExhausted;
      UsagesEnd(passes, exit, step.reply, reply);
      StoryRunsOut(exit, world, passes, trace'.rounds);
      r := Ok(step.(exit := Some(if step.reply.toolCalls == [] then Answered else IterationsExhausted)));
    }

    // ---- What a run leaves behind ----

    /**
     * A completed run ends on its answer: the last reply, or the notice that replaced it. What it saves is
     * the outcome of its passes, one by one, and abridges its own story: nothing is invented or reordered.
     * With the monitor off, it is the whole story.
     */
    ghost predicate Completed(world: World, before: seq<Message>, user: Message, saved: seq<Message>, trace: RunTrace,
                              exit: Exit, reply: Reply, passes: seq<Pass>)
      reads tokenBudget
    {
      var compacted, content := CompactedIfUrgent(config, before + [user]), ExitContent(exit, reply);
      && AllWellFormed(trace.rounds) && compacted.Some?
      && saved != [] && saved[|saved| - 1] == AssistantMessage(content)
      && TellsAll(world, compacted.value, passes, exit, trace, saved[..|saved| - 1], reply)
      && Explains(exit, world, saved[..|saved| - 1], reply, trace)
      && Abridges(SavedTranscript(before, user, trace.rounds, content), saved)
      && (config.monitor.None? ==>
            && Converses(world, before + [user], trace.rounds)
            && saved == SavedTranscript(before, user, trace.rounds, content))
    }

    /** A run with a cached answer saves it behind the session that was made ready for the provider. */
    ghost predicate CompletedFromCache(world: World, before: seq<Message>, user: Message, saved: seq<Message>) {
      var compacted := CompactedIfUrgent(config, before + [user]);
      && world.cached.Some? && compacted.Some?
      && saved != [] && saved[|saved| - 1] == AssistantMessage(world.cached.value)
      && MadeReady(world, compacted.value, saved[..|saved| - 1])
      && Abridges(before + [user, AssistantMessage(world.cached.value)], saved)
      && (config.monitor.None? ==> saved == before + [user, AssistantMessage(world.cached.value)])
    }

    /** A run that fails on its way to the answer. */
    ghost predicate FailedOnTheWay(error: RunError, world: World, opening: seq<Message>, passes: seq<Pass>,
                                   trace: RunTrace) {
      && RunFails(error, world, opening, passes, trace.rounds, trace.providerCalls)
      && ErrorMeans(error, world, trace.providerCalls)
      && (world.cached.Some? ==> trace.providerCalls == 0)
    }

    ghost predicate MadeReady(world: World, session: seq<Message>, guarded: seq<Message>) {
      exists sent :: Readied(world, session, 0, true, guarded, sent)
    }

    /** One run on one inbound message. */
    method ProcessMessage(world: World, key: Text, user: Message)
      returns (r: Result<Text, RunError>, ghost trace: RunTrace, ghost exit: Exit, ghost reply: Reply,
               ghost passes: seq<Pass>, flushed: bool)
      requires Valid() && Plain(user)
      modifies `store, toolCallLimit, tokenBudget
      ensures Valid()
      // When it fails: refused before it starts, failed on its way to the answer, or not saved at the end.
      ensures r == Err(InjectionBlocked) <==> world.injectionBlocked
      ensures r == Err(NoProvider) <==> !world.injectionBlocked && !world.providerConfigured
      ensures r == Err(LoadFailed) <==>
        !world.injectionBlocked && world.providerConfigured && key !in old(store) && world.loadFails
      ensures r != Err(BudgetExceeded)
      ensures r.Err? && (r.error == Aborted || r.error.ProviderFailed?) ==>
        FailedOnTheWay(r.error, world, old(Loaded(key)) + [user], passes, trace)
      ensures r.Ok? ==> !world.saveFails
      ensures r == Err(SaveFailed) ==> world.saveFails
      // No other session is touched, and a run that fails before saving leaves its own transcript alone.
      ensures forall k :: k != key ==> (k in store <==> k in old(store)) && (k in store ==> store[k] == old(store)[k])
      ensures r.Err? && r.error != SaveFailed ==> Loaded(key) == old(Loaded(key))
      // What a run has left behind that completes, whether or not the file is written.
      ensures (r.Ok? || r.error == SaveFailed) && world.cached.None? ==>
        Completed(world, old(Loaded(key)), user, Loaded(key), trace, exit, reply, passes)
      ensures (r.Ok? || r.error == SaveFailed) && world.cached.Some? ==>
        trace.rounds == [] && CompletedFromCache(world, old(Loaded(key)), user, Loaded(key))
      ensures r.Ok? && world.cached.Some? ==> r.value == world.cached.value
      ensures r.Ok? && world.cached.None? ==> SaysWhatHappened(exit, reply, r.value)
      // The caps hold whichever way the run ends; the memory flush may add one provider call.
      ensures flushed ==> FlushesMemory(world, old(Loaded(key)) + [user])
      ensures r.Ok? || r.error == SaveFailed ==> (flushed <==> FlushesMemory(world, old(Loaded(key)) + [user]))
      ensures trace.providerCalls + (if flushed then 1 else 0) <= CallAllowance(trace.iterations) + 1
      ensures trace.answered == Usages(passes, exit, reply)
      ensures AllWellFormed(trace.rounds) && WithinCaps(world, trace) && RanTools(world, trace.rounds)
      ensures HeedsGuard(world, trace.rounds)
    {
      hide CallAllowance, ExitContent, RanTools, FlushesMemory, CompactedIfUrgent, Readied, Abridges, Paired;
      hide Completed, CompletedFromCache, FailedOnTheWay, NotReadied, WithinCaps, HeedsGuard, Usages;
      hide SaysWhatHappened;
      NoUsages(Answered, Reply([], [], None));
      toolCallLimit.Reset();
      tokenBudget.Reset();
      trace, exit, reply := RunTrace([], 0, 0, []), Answered, Reply([], [], None);
      passes, flushed := [], false;
      AbridgesItself([]);
      NothingAccounted(world, tokenBudget.limit, 0);
      BeginsSound(world, [], [], trace);
      if world.injectionBlocked {
        return Err(InjectionBlocked), trace, exit, reply, passes, flushed;
      }
      if !world.providerConfigured {
        return Err(NoProvider), trace, exit, reply, passes, flushed;
      }
      if key !in store {
        if world.loadFails {
          return Err(LoadFailed), trace, exit, reply, passes, flushed;
        }
        NothingIsPaired();
        store := store[key := []];
      }
      ghost var before := store[key];
      var prepared, sent;
      ghost var compacted;
      prepared, sent, flushed, compacted := Prepare(world, store[key] + [user]);
      if prepared.None? {
        NotPrepared(world, before + [user], trace);
        return Err(Aborted), trace, exit, reply, passes, flushed;
      }
      if tokenBudget.IsExceeded() {
        return Err(BudgetExceeded), trace, exit, reply, passes, flushed;
      }
      if world.cached.Some? {
        r := AnswerFromCache(world, key, before, user, prepared.value, sent);
        return;
      }
      r, trace, exit, reply, passes := AnswerAndSave(world, key, before, user, compacted.value, prepared.value, sent);
    }

    /** The run from its first provider call on. */
    method AnswerAndSave(world: World, key: Text, ghost before: seq<Message>, ghost user: Message,
                         ghost compacted: seq<Message>, session: seq<Message>, sent: seq<Message>)
      returns (r: Result<Text, RunError>, ghost trace: RunTrace, ghost exit: Exit, ghost reply: Reply,
               ghost passes: seq<Pass>)
      requires Valid() && Plain(user) && world.cached.None?
      requires CompactedIfUrgent(config, before + [user]) == Some(compacted)
      requires Readied(world, compacted, 0, true, session, sent) && Abridges(before + [user], session)
      requires config.monitor.None? ==>
        && Paired(before) && session == before + [user]
        && sent == BuildResolvedMessages(world.system, session, world.inline)
      requires tokenBudget.TotalUsed() == 0 && toolCallLimit.count == 0
      modifies `store, toolCallLimit, tokenBudget
      ensures Valid()
      ensures AllWellFormed(trace.rounds) && WithinCaps(world, trace) && RanTools(world, trace.rounds)
      ensures HeedsGuard(world, trace.rounds) && trace.providerCalls <= CallAllowance(trace.iterations)
      ensures trace.answered == Usages(passes, exit, reply)
      ensures r.Err? && r.error != SaveFailed ==>
        && store == old(store) && (r.error == Aborted || r.error.ProviderFailed?)
        && FailedOnTheWay(r.error, world, before + [user], passes, trace)
      ensures r.Ok? || r.error == SaveFailed ==>
        && key in store && store == old(store)[key := store[key]]
        && Completed(world, before, user, store[key], trace, exit, reply, passes)
      ensures r.Ok? ==> !world.saveFails && SaysWhatHappened(exit, reply, r.value)
      ensures r == Err(SaveFailed) ==> world.saveFails
    {
      hide BuildResolvedMessages, CallAllowance, ExitContent, RanTools, Abridges, Sound, TellsAll, Explains, Converses;
      hide SavedTranscript, CompactedIfUrgent, Readied, Refused, FailsIn, Prompted, ErrorMeans, RunFails, WithinCaps;
      hide Usages, SaysWhatHappened;
      hide Paired, HeedsGuard;
      var done;
      done, exit, trace, passes := Answer(world, before + [user], compacted, session, sent);
      if done.Err? {
        reply := Reply([], [], None);
        NotAnswered(done.error, world, before + [user], passes, trace.rounds, trace.providerCalls);
        FailureMeans(done.error, world, before + [user], passes, trace.rounds, trace.providerCalls);
        LoopErrors(done.error, world, trace.providerCalls);
        return Err(done.error), trace, exit, reply, passes;
      }
      reply := done.value.reply;
      var content := ExitContent(done.value.exit.value, done.value.reply);
      ExitIsExplained(done.value.exit.value, done.value.reply);
      r := SaveAnswer(world, key, before, user, done.value.session, trace, content);
      assert store[key][..|store[key]| - 1] == done.value.session;
    }

    method SaveAnswer(world: World, key: Text, ghost before: seq<Message>, ghost user: Message, session: seq<Message>,
                      ghost trace: RunTrace, content: Text)
      returns (r: Result<Text, RunError>)
      requires Valid() && Plain(user) && Sound(world, before + [user], session, trace)
      requires config.monitor.None? ==> Paired(before)
      modifies `store
      ensures Valid() && store == old(store)[key := session + [AssistantMessage(content)]]
      ensures AllWellFormed(trace.rounds) && Abridges(SavedTranscript(before, user, trace.rounds, content), store[key])
      ensures config.monitor.None? ==>
        && store[key] == SavedTranscript(before, user, trace.rounds, content)
        && Converses(world, before + [user], trace.rounds)
      ensures r == if world.saveFails then Err(SaveFailed) else Ok(content)
    {
      hide Abridges, SavedTranscript, Sound, Converses;
      SoundRunIsSaved(world, before, user, session, trace, content);
      var saved := Save(key, session + [AssistantMessage(content)], world.saveFails);
      r := if saved then Ok(content) else Err(SaveFailed);
    }

    lemma NothingIsPaired()
      ensures Paired([])
    {
    }

    lemma NotPrepared(world: World, opening: seq<Message>, trace: RunTrace)
      requires var compacted := CompactedIfUrgent(config, opening);
        compacted.Some? ==> NotReadied(world, compacted.value, 0, true)
      requires trace.rounds == [] && trace.providerCalls == 0
      ensures FailedOnTheWay(Aborted, world, opening, [], trace)
    {
      hide CompactedIfUrgent, NotReadied, ErrorMeans;
      assert RunFails(Aborted, world, opening, [], [], 0);
      FailureMeans(Aborted, world, opening, [], [], 0);
    }

    lemma NotAnswered(error: RunError, world: World, opening: seq<Message>, passes: seq<Pass>, rounds: seq<Round>,
                      calls: nat)
      requires var compacted := CompactedIfUrgent(config, opening);
        && compacted.Some?
        && if passes == [] then rounds == [] && Refused(world, compacted.value, 0, true, error, calls)
           else Prompted(world, compacted.value, 0, true, passes[0]) && FailsIn(error, world, passes, rounds, calls)
      ensures RunFails(error, world, opening, passes, rounds, calls)
    {
      hide CompactedIfUrgent, Refused, Prompted, FailsIn;
    }

    lemma LoopErrors(error: RunError, world: World, calls: nat)
      requires ErrorMeans(error, world, calls)
      ensures error == Aborted || error.ProviderFailed?
    {
    }

    /** What a sound run saves. */
    lemma SoundRunIsSaved(world: World, before: seq<Message>, user: Message, session: seq<Message>, trace: RunTrace,
                          content: Text)
      requires Sound(world, before + [user], session, trace) && Plain(user)
      requires config.monitor.None? ==> Paired(before)
      ensures AllWellFormed(trace.rounds)
      ensures var told := SavedTranscript(before, user, trace.rounds, content);
        && Abridges(told, session + [AssistantMessage(content)])
        && (config.monitor.None? ==>
              && session + [AssistantMessage(content)] == told
              && Paired(told) && Converses(world, before + [user], trace.rounds))
    {
      hide Abridges, Transcript;
      AbridgesBefore(before + [user] + Transcript(trace.rounds, |trace.rounds|), session, [AssistantMessage(content)]);
      if config.monitor.None? { SavedTranscriptIsPaired(before, user, trace.rounds, content); }
    }

    /** A cached reply is recorded like any other, without calling the provider. */
    method AnswerFromCache(world: World, key: Text, ghost before: seq<Message>, user: Message, session: seq<Message>,
                           ghost sent: seq<Message>)
      returns (r: Result<Text, RunError>)
      requires Valid() && world.cached.Some? && Plain(user) && Abridges(before + [user], session)
      requires var compacted := CompactedIfUrgent(config, before + [user]);
        compacted.Some? && Readied(world, compacted.value, 0, true, session, sent)
      requires config.monitor.None? ==> Paired(before) && session == before + [user]
      modifies `store
      ensures Valid() && store == old(store)[key := session + [AssistantMessage(world.cached.value)]]
      ensures CompletedFromCache(world, before, user, store[key])
      ensures r == if world.saveFails then Err(SaveFailed) else Ok(world.cached.value)
    {
      hide Abridges, CompactedIfUrgent, Readied;
      var answer := AssistantMessage(world.cached.value);
      AbridgesBefore(before + [user], session, [answer]);
      assert before + [user, answer] == before + [user] + [answer];
      if config.monitor.None? {
        AppendPlain(before, user);
        AppendPlain(before + [user], answer);
      }
      var saved := Save(key, session + [answer], world.saveFails);
      assert store[key][..|store[key]| - 1] == session;
      r := if saved then Ok(world.cached.value) else Err(SaveFailed);
    }

    /** Before a compaction that is not urgent, one extra provider call lets the model save what it will forget. */
    predicate FlushesMemory(world: World, session: seq<Message>) {
      world.remembers && config.monitor.Some? && config.monitor.value.UrgencyOf(session) == Some(Normal)
    }

    /** Memory flush, compaction and preflight before the first provider call. */
    method Prepare(world: World, session: seq<Message>)
      returns (r: Option<seq<Message>>, sent: seq<Message>, flushed: bool, ghost compacted: Option<seq<Message>>)
      ensures flushed <==>
        world.remembers && config.monitor.Some? && config.monitor.value.UrgencyOf(session) == Some(Normal)
      ensures flushed <==> FlushesMemory(world, session)
      ensures compacted == CompactedIfUrgent(config, session)
      ensures compacted.Some? ==> CompactionLeaves(config.monitor, session, compacted.value)
      ensures r.Some? ==> Sends(world.system, r.value, sent, world.inline)
      ensures r.None? ==> compacted.Some? ==> NotReadied(world, compacted.value, 0, true)
      ensures r.Some? ==> compacted.Some? && Readied(world, compacted.value, 0, true, r.value, sent)
      ensures r.Some? ==> Abridges(session, r.value)
      ensures config.monitor.None? ==>
        r == Some(session) && sent == BuildResolvedMessages(world.system, session, world.inline)
    {
      hide Abridges, BuildResolvedMessages, Recover, TrimmedTo, Synced, EstimateFull;
      hide Sends, CompactionLeaves, PreflightLeaves;
      sent := [];
      // Whatever the flush call answers, the session is not touched.
      flushed := FlushesMemory(world, session);
      r := CompactIfUrgent(config, session);
      compacted := r;
      if r.Some? {
        var guarded, request, _, _ := PreflightSession(config, world, r.value, Offered(world, 0, true), true);
        if guarded.Some? { AbridgesCompose(session, r.value, guarded.value); }
        r, sent := guarded, request;
      }
    }

    /** The first provider call and the tool loop. */
    method Answer(world: World, ghost opening: seq<Message>, ghost compacted: seq<Message>, session: seq<Message>,
                  sent: seq<Message>)
      returns (r: Result<Step, RunError>, ghost exit: Exit, ghost trace: RunTrace, ghost passes: seq<Pass>)
      requires Readied(world, compacted, 0, true, session, sent)
      requires Abridges(opening, session)
      requires config.monitor.None? ==>
        session == opening && sent == BuildResolvedMessages(world.system, session, world.inline)
      requires tokenBudget.TotalUsed() == 0 && toolCallLimit.count == 0
      modifies toolCallLimit, tokenBudget
      ensures AllWellFormed(trace.rounds) && WithinCaps(world, trace) && RanTools(world, trace.rounds)
      ensures HeedsGuard(world, trace.rounds) && trace.providerCalls <= CallAllowance(trace.iterations)
      ensures r.Err? ==>
        if passes == [] then trace.rounds == [] && Refused(world, compacted, 0, true, r.error, trace.providerCalls)
        else
          && Prompted(world, compacted, 0, true, passes[0])
          && FailsIn(r.error, world, passes, trace.rounds, trace.providerCalls)
      ensures r.Ok? ==> Sound(world, opening, r.value.session, trace)
      ensures r.Ok? ==> Explains(exit, world, r.value.session, r.value.reply, trace) && r.value.exit == Some(exit)
      ensures r.Ok? ==> TellsAll(world, compacted, passes, exit, trace, r.value.session, r.value.reply)
      ensures trace.answered == Usages(passes, exit, if r.Ok? then r.value.reply else Reply([], [], None))
    {
      hide BuildResolvedMessages, CallAllowance, Explains, Abridges, Readied, Story, FailsIn, Accounts, AllReported;
      hide Usages, Sound, Prompted, Refused, RepliesNow, WithinCaps, ProviderAnswered, HeedsGuard;
      var first, session', calls := CallFirst(world, opening, compacted, session, sent);
      exit, passes := Answered, [];
      var nothing := Reply([], [], None);
      NoUsages(exit, nothing);
      trace := RunTrace([], 0, calls, if first.Ok? then [first.value.usage] else []);
      BeginsSound(world, opening, session', trace);
      if first.Err? {
        return Err(first.error), exit, trace, passes;
      }
      r, exit, trace, passes := RunLoop(world, opening, session', first.value, calls, trace);
      if r.Err? { UsagesEnd(passes, exit, nothing, first.value); }
      CapsMeanAllowance(world, trace);
    }

    /** The first request, its retries, and what they used. */
    method CallFirst(world: World, ghost opening: seq<Message>, ghost compacted: seq<Message>, session: seq<Message>,
                     sent: seq<Message>)
      returns (reply: Result<Reply, RunError>, session': seq<Message>, calls: nat)
      requires Readied(world, compacted, 0, true, session, sent) && Abridges(opening, session)
      requires config.monitor.None? ==>
        session == opening && sent == BuildResolvedMessages(world.system, session, world.inline)
      requires tokenBudget.TotalUsed() == 0
      modifies tokenBudget
      ensures calls <= config.overflowRetries + 1 && Abridges(opening, session')
      ensures config.monitor.None? ==>
        && session' == opening && calls == 1 && (reply.Ok? ==> RepliesNow(world, 0, session', true, reply.value))
      ensures reply.Err? ==> Refused(world, compacted, 0, true, reply.error, calls)
      ensures reply.Ok? ==> Prompted(world, compacted, 0, true, Pass(session', reply.value, calls))
      ensures AllReported(world, if reply.Ok? then [reply.value.usage] else [], calls)
      ensures Accounted(if reply.Ok? then [reply.value.usage] else [])
    {
      hide BuildResolvedMessages, Abridges, Readied, Accounts, AllReported, RetryFrom;
      RetriesAreBounded(config, world, session, sent, 0, 0, true);
      AbridgesCompose(opening, session, RetryFrom(config, world, session, sent, 0, 0, true).session);
      reply, session', calls := CallProvider(config, world, session, sent, 0, true);
      NothingAccounted(world, tokenBudget.limit, calls);
      if reply.Ok? {
        if reply.value.usage.Some? {
          tokenBudget.Record(reply.value.usage.value.promptTokens, reply.value.usage.value.completionTokens);
        }
        OneMoreAccounted(tokenBudget.limit, 0, 0, [], reply.value.usage);
        OneMoreReported(world, [], calls, true, reply.value);
        assert [] + [reply.value.usage] == [reply.value.usage];
      }
    }

    lemma CapsMeanAllowance(world: World, trace: RunTrace)
      requires WithinCaps(world, trace)
      ensures trace.providerCalls <= CallAllowance(trace.iterations)
    {
    }

    lemma BeginsSound(world: World, opening: seq<Message>, session: seq<Message>, trace: RunTrace)
      requires trace.rounds == [] && trace.iterations == 0 && trace.providerCalls <= config.overflowRetries + 1
      requires Abridges(opening, session) && (config.monitor.None? ==> session == opening)
      requires Accounted(trace.answered) && AllReported(world, trace.answered, trace.providerCalls)
      ensures Sound(world, opening, session, trace) && WithinCaps(world, trace) && HeedsGuard(world, [])
      ensures trace.providerCalls <= CallAllowance(0)
    {
      hide Accounts, AllReported, Abridges;
      assert opening + Transcript([], 0) == opening;
    }
  }

  datatype Inbound = Inbound(world: World, key: Text, user: Message)

  /** Any number of runs, with any outcomes: no saved transcript ever has an unanswered call or a stray result. */
  method ServeAll(agent: AgentLoop, inbox: seq<Inbound>)
    requires agent.Valid() && agent.config.monitor.None?
    requires forall i :: 0 <= i < |inbox| ==> Plain(inbox[i].user)
    modifies agent`store, agent.toolCallLimit, agent.tokenBudget
    ensures agent.Valid()
    ensures forall key :: key in agent.store ==> EveryCallAnswered(agent.store[key])
  {
    for i := 0 to |inbox|
      invariant agent.Valid()
    {
      var _, _, _, _, _, _ := agent.ProcessMessage(inbox[i].world, inbox[i].key, inbox[i].user);
    }
    forall key | key in agent.store ensures EveryCallAnswered(agent.store[key]) { PairedMeaning(agent.store[key]); }
  }
}
