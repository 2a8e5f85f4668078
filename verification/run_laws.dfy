/** What a whole run sends to the provider and what compaction leaves of its conversation, request by request. */
module RunLaws {
  import opened Bytes
  import opened Messages
  import opened TokenEstimates
  import opened Compaction
  import opened RecoveryLadder
  import opened RecoveryLaws
  import opened Requests
  import opened ResultSync
  import opened ToolLoop
  import opened AgentLoops

  // ---- One compaction ----

  /** Twelve messages that fill 96% of a small context are cut to the last six. */
  lemma TwelveMessagesBecomeSix(config: AgentConfig, text: Text, ms: seq<Message>)
    requires config.monitor == Some(Monitor(1000, 0.70, 0.90, 0.95, 0.75, 0.50, 1.0))
    requires |text| == 304 && |ms| == 12 && forall i :: 0 <= i < 12 ==> ms[i] == UserMessage(text)
    ensures CompactedIfUrgent(config, ms) == Some(ms[6..])
  {
    hide RawTokens;
    SameMessagesWeigh(text, ms);
    assert Estimate(ms, 1.0) == 960;
    assert TruncateMessages(ms, 6) == ms[6..];
  }

  // ---- One call with its retries ----

  /** One session and one request for each attempt, and what the provider answered. */
  datatype Attempts = Attempts(sessions: seq<seq<Message>>, requests: seq<seq<Message>>)

  function Answer(world: World, n: nat, request: seq<Message>, offerTools: bool): Result<Reply, ProviderError> {
    world.chat(n, request, if offerTools then world.definitions(n) else [])
  }

  /** Retries grow severe: the first compacts as usual, the second is an emergency, all others are critical. */
  function RetryIsAs(attempt: nat): Urgency {
    if attempt == 0 then Normal else if attempt == 1 then Emergency else Critical
  }

  /** Attempt i overflows, and compaction of its session leads to the next one. */
  ghost predicate Overflows(config: AgentConfig, world: World, calls: nat, first: nat, offerTools: bool, t: Attempts,
                            i: nat)
    requires i + 1 < |t.sessions| == |t.requests|
  {
    && Answer(world, calls + i, t.requests[i], offerTools) == Err(ContextOverflow)
    && config.monitor.Some?
    && Leaves(config.monitor.value.contextLimit, config.monitor.value.safetyMargin, RetryIsAs(first + i),
              if offerTools then 8 else 5, t.sessions[i], t.sessions[i + 1])
  }

  /** Every attempt sends its whole session; there are at most as many as retries are allowed, and one. */
  ghost predicate Attempted(config: AgentConfig, world: World, calls: nat, first: nat, offerTools: bool, t: Attempts) {
    && 0 < |t.sessions| == |t.requests| && first + |t.sessions| <= config.overflowRetries + 1
    && (forall i :: 0 <= i < |t.sessions| ==> Sends(world.system, t.sessions[i], t.requests[i], world.inline))
    && forall i :: 0 <= i < |t.sessions| - 1 ==> Overflows(config, world, calls, first, offerTools, t, i)
  }

  lemma OneAttempt(config: AgentConfig, world: World, session: seq<Message>, sent: seq<Message>, calls: nat,
                   first: nat, offerTools: bool)
    requires first <= config.overflowRetries && Sends(world.system, session, sent, world.inline)
    ensures Attempted(config, world, calls, first, offerTools, Attempts([session], [sent]))
  {
    hide Sends;
  }

  lemma OneAttemptMore(config: AgentConfig, world: World, session: seq<Message>, sent: seq<Message>, calls: nat,
                       first: nat, offerTools: bool, rest: Attempts)
    requires Attempted(config, world, calls + 1, first + 1, offerTools, rest)
    requires Sends(world.system, session, sent, world.inline) && config.monitor.Some?
    requires Answer(world, calls, sent, offerTools) == Err(ContextOverflow)
    requires Leaves(config.monitor.value.contextLimit, config.monitor.value.safetyMargin, RetryIsAs(first),
                    if offerTools then 8 else 5, session, rest.sessions[0])
    ensures Attempted(config, world, calls, first, offerTools,
                      Attempts([session] + rest.sessions, [sent] + rest.requests))
  {
    hide Sends, Leaves, RetryIsAs;
    var t := Attempts([session] + rest.sessions, [sent] + rest.requests);
    forall i | 0 <= i < |t.sessions| - 1 ensures Overflows(config, world, calls, first, offerTools, t, i) {
      if i > 0 { assert Overflows(config, world, calls + 1, first + 1, offerTools, rest, i - 1); }
    }
  }

  /** What the retries lead to is the answer to the last attempt; an abort leaves an overflow unanswered. */
  lemma {:induction false} RetriesAreTold(config: AgentConfig, world: World, session: seq<Message>,
                                          sent: seq<Message>,
                                          calls: nat, first: nat, offerTools: bool)
    returns (t: Attempts)
    requires first <= config.overflowRetries && Sends(world.system, session, sent, world.inline)
    ensures Attempted(config, world, calls, first, offerTools, t) && t.sessions[0] == session && t.requests[0] == sent
    ensures var r, n := RetryFrom(config, world, session, sent, calls, first, offerTools), |t.sessions|;
      var last := Answer(world, calls + n - 1, t.requests[n - 1], offerTools);
      && r.calls == calls + n && r.session == t.sessions[n - 1]
      && match r.reply
         case Ok(reply) => last == Ok(reply)
         case Err(ProviderFailed(error)) => last == Err(error)
         case Err(_) => last == Err(ContextOverflow)
    decreases config.overflowRetries - first
  {
    hide Sends, Leaves, Recover, BuildResolvedMessages;
    t := Attempts([session], [sent]);
    OneAttempt(config, world, session, sent, calls, first, offerTools);
    if Answer(world, calls, sent, offerTools) == Err(ContextOverflow) && first < config.overflowRetries
       && config.monitor.Some?
    {
      var m := config.monitor.value;
      var recovered := CompactedForRetry(config, m, session, first, offerTools);
      if recovered.Some? {
        var after := recovered.value.messages;
        var request := BuildResolvedMessages(world.system, after, world.inline);
        BuiltIsSent(world.system, after, world.inline);
        var rest := RetriesAreTold(config, world, after, request, calls + 1, first + 1, offerTools);
        RecoveryLeaves(session, m.contextLimit, OverflowRetryUrgency(first), RetryKeep(offerTools),
                       config.toolResultCap, m.safetyMargin);
        OneAttemptMore(config, world, session, sent, calls, first, offerTools, rest);
        t := Attempts([session] + rest.sessions, [sent] + rest.requests);
      }
    }
  }

  // ---- One reply ----

  /** Preflight makes the session ready, and the reply answers the last of the attempts to send it. */
  ghost predicate RepliesTo(config: AgentConfig, world: World, session: seq<Message>, calls: nat, offerTools: bool,
                            to: Pass, t: Attempts)
  {
    && Attempted(config, world, calls, 0, offerTools, t)
    && PreflightLeaves(config.monitor, world.system, if offerTools then world.definitions(calls) else [], offerTools,
                       session, t.sessions[0], t.requests[0])
    && var n := |t.sessions|;
    && to.calls == calls + n && to.session == t.sessions[n - 1]
    && Answer(world, to.calls - 1, t.requests[n - 1], offerTools) == Ok(to.reply)
  }

  ghost predicate Replies(config: AgentConfig, world: World, session: seq<Message>, calls: nat, offerTools: bool,
                          to: Pass)
  {
    exists t :: RepliesTo(config, world, session, calls, offerTools, to, t)
  }

  lemma PromptIsTold(agent: AgentLoop, world: World, session: seq<Message>, calls: nat, offerTools: bool, to: Pass)
    requires agent.Prompted(world, session, calls, offerTools, to)
    ensures Replies(agent.config, world, session, calls, offerTools, to)
  {
    hide Guarded, Sends, PreflightLeaves, RetryFrom, Attempted;
    var tools := if offerTools then world.definitions(calls) else [];
    var guarded, sent :|
      && agent.Readied(world, session, calls, offerTools, guarded, sent)
      && RetryFrom(agent.config, world, guarded, sent, calls, 0, offerTools)
         == Retried(Ok(to.reply), to.session, to.calls);
    var trimmed, k :| Guarded(agent.config, world, session, tools, offerTools, Some(guarded), sent, trimmed, k);
    GuardedIsTold(agent.config, world, session, tools, offerTools, guarded, sent, trimmed, k);
    var t := RetriesAreTold(agent.config, world, guarded, sent, calls, 0, offerTools);
    assert RepliesTo(agent.config, world, session, calls, offerTools, to, t);
  }

  // ---- The whole run ----

  /** The calls of a round and their results join the session, compaction leaves this of it, and the notes follow. */
  ghost predicate Grows(config: AgentConfig, session: seq<Message>, reply: Reply, round: Round, after: seq<Message>) {
    && WellFormed(round) && round.draft == reply.content && round.requested == reply.toolCalls
    && var longer := session + [AssistantWithTools(reply.content, round.executed)]
                     + ResultMessages(round.executed, round.results);
    exists left :: CompactionLeaves(config.monitor, longer, left) && after == left + NoteMessages(round.notes)
  }

  /** A round, and the reply to the session behind it. */
  ghost predicate Continues(config: AgentConfig, world: World, from: Pass, round: Round, offerTools: bool, to: Pass) {
    exists after :: Grows(config, from.session, from.reply, round, after)
      && Replies(config, world, after, from.calls, offerTools, to)
  }

  lemma PassIsTold(agent: AgentLoop, exit: Option<Exit>, world: World, from: Pass, earlier: seq<Round>,
                   rounds: seq<Round>, to: Pass)
    requires agent.PassedThrough(exit, world, from, earlier, rounds, to) && exit != Some(LimitAlreadyReached)
    ensures var round := rounds[|rounds| - 1];
      if exit == None || exit == Some(Synthesized) then Continues(agent.config, world, from, round, exit == None, to)
      else Grows(agent.config, from.session, from.reply, round, to.session)
  {
    hide agent.Prompted, CompactionLeaves, Replies, CompactedIfUrgent;
    var round := rounds[|rounds| - 1];
    var left := agent.AfterResults(from.session, round).value;
    var longer := from.session + [AssistantWithTools(from.reply.content, round.executed)]
      + ResultMessages(round.executed, round.results);
    QuietRoundMessages(round.(notes := []));
    assert longer == from.session + RoundMessages(round.(notes := []));
    CompactedIsTold(agent.config, longer);
    var after := left + NoteMessages(round.notes);
    assert Grows(agent.config, from.session, from.reply, round, after);
    if exit == None || exit == Some(Synthesized) {
      PromptIsTold(agent, world, after, from.calls, exit == None, to);
    }
  }

  /** The opening is compacted and answered, and round i leads from pass i to the next. */
  ghost predicate PassesAreTold(config: AgentConfig, world: World, opening: seq<Message>, passes: seq<Pass>,
                                rounds: seq<Round>)
  {
    && 0 < |passes| <= |rounds| + 1
    && (exists after :: CompactionLeaves(config.monitor, opening, after)
          && Replies(config, world, after, 0, true, passes[0]))
    && forall i :: 0 <= i < |passes| - 1 ==> Continues(config, world, passes[i], rounds[i], true, passes[i + 1])
  }

  /** How the tool loop is left from its last pass. */
  ghost predicate IsLeftBy(config: AgentConfig, world: World, from: Pass, rounds: seq<Round>, exit: Exit, last: Pass) {
    match exit
    case Answered => last == from
    case IterationsExhausted => last == from
    case LimitAlreadyReached => last == from
    case Synthesized => rounds != [] && Continues(config, world, from, rounds[|rounds| - 1], false, last)
    case _ =>
      && rounds != [] && Grows(config, from.session, from.reply, rounds[|rounds| - 1], last.session)
      && last.reply == from.reply
  }

  lemma ChainIsTold(agent: AgentLoop, world: World, passes: seq<Pass>, rounds: seq<Round>, i: nat)
    requires agent.Chained(world, passes, rounds) && i < |rounds|
    ensures Continues(agent.config, world, passes[i], rounds[i], true, passes[i + 1])
  {
    hide agent.PassedThrough, Continues;
    assert agent.Links(world, passes, rounds, i);
    PassIsTold(agent, None, world, passes[i], rounds[..i], rounds[..i + 1], passes[i + 1]);
    assert rounds[..i + 1][i] == rounds[i];
  }

  lemma LastPassIsTold(agent: AgentLoop, exit: Exit, world: World, passes: seq<Pass>, rounds: seq<Round>, last: Pass)
    requires agent.Story(exit, world, passes, rounds, last)
    ensures IsLeftBy(agent.config, world, passes[|passes| - 1], rounds, exit, last)
  {
    hide agent.Prompted, agent.Chained, Continues, Grows, agent.AfterResults;
    var n := |passes| - 1;
    if exit != Answered && exit != IterationsExhausted && exit != LimitAlreadyReached {
      PassIsTold(agent, Some(exit), world, passes[n], rounds[..n], rounds, last);
    }
  }

  lemma ChainsAreTold(agent: AgentLoop, world: World, opening: seq<Message>, passes: seq<Pass>, rounds: seq<Round>)
    requires CompactedIfUrgent(agent.config, opening).Some?
    requires 0 < |passes| <= |rounds| + 1 && agent.Chained(world, passes, rounds[..|passes| - 1])
    requires agent.Prompted(world, CompactedIfUrgent(agent.config, opening).value, 0, true, passes[0])
    ensures PassesAreTold(agent.config, world, opening, passes, rounds)
  {
    hide agent.Prompted, agent.Chained, CompactionLeaves, CompactedIfUrgent, Continues, Replies;
    CompactedIsTold(agent.config, opening);
    PromptIsTold(agent, world, CompactedIfUrgent(agent.config, opening).value, 0, true, passes[0]);
    forall i | 0 <= i < |passes| - 1
      ensures Continues(agent.config, world, passes[i], rounds[i], true, passes[i + 1])
    {
      ChainIsTold(agent, world, passes, rounds[..|passes| - 1], i);
    }
  }

  /** Every completed run, with a monitor or without. */
  lemma CompletedRunIsTold(agent: AgentLoop, world: World, before: seq<Message>, user: Message, saved: seq<Message>,
                           trace: RunTrace, exit: Exit, reply: Reply, passes: seq<Pass>)
    requires agent.Completed(world, before, user, saved, trace, exit, reply, passes)
    ensures PassesAreTold(agent.config, world, before + [user], passes, trace.rounds)
    ensures IsLeftBy(agent.config, world, passes[|passes| - 1], trace.rounds, exit,
                     Pass(saved[..|saved| - 1], reply, trace.providerCalls))
    ensures saved[|saved| - 1].role == Assistant && SaysWhatHappened(exit, reply, saved[|saved| - 1].content)
  {
    hide agent.Prompted, agent.PassedThrough, agent.Chained, agent.Explains, CompactedIfUrgent;
    hide PassesAreTold, IsLeftBy;
    ExitIsExplained(exit, reply);
    ChainsAreTold(agent, world, before + [user], passes, trace.rounds);
    LastPassIsTold(agent, exit, world, passes, trace.rounds, Pass(saved[..|saved| - 1], reply, trace.providerCalls));
  }

  /** And every run that fails after its first reply, up to its last pass. */
  lemma FailedRunIsTold(agent: AgentLoop, error: RunError, world: World, opening: seq<Message>, passes: seq<Pass>,
                        trace: RunTrace)
    requires agent.FailedOnTheWay(error, world, opening, passes, trace) && passes != []
    ensures PassesAreTold(agent.config, world, opening, passes, trace.rounds)
  {
    hide agent.Prompted, agent.PassFailed, agent.Chained, agent.ErrorMeans, CompactedIfUrgent, PassesAreTold;
    ChainsAreTold(agent, world, opening, passes, trace.rounds);
  }

  /** A run with a cached answer saves it behind the session that compaction and preflight leave. */
  lemma CachedRunIsTold(agent: AgentLoop, world: World, before: seq<Message>, user: Message, saved: seq<Message>)
    returns (after: seq<Message>, sent: seq<Message>)
    requires agent.CompletedFromCache(world, before, user, saved)
    ensures saved[|saved| - 1] == AssistantMessage(world.cached.value)
    ensures CompactionLeaves(agent.config.monitor, before + [user], after)
    ensures PreflightLeaves(agent.config.monitor, world.system, world.definitions(0), true, after,
                            saved[..|saved| - 1], sent)
  {
    hide Guarded, CompactionLeaves, PreflightLeaves, CompactedIfUrgent, Sends;
    after := CompactedIfUrgent(agent.config, before + [user]).value;
    var left := saved[..|saved| - 1];
    CompactedIsTold(agent.config, before + [user]);
    sent :| agent.Readied(world, after, 0, true, left, sent);
    var trimmed, k :| Guarded(agent.config, world, after, world.definitions(0), true, Some(left), sent, trimmed, k);
    GuardedIsTold(agent.config, world, after, world.definitions(0), true, left, sent, trimmed, k);
  }
}
