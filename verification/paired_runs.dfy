/** With the monitor on: a run whose recoveries never cut in front of a tool result saves a paired transcript. */
module PairedRuns {
  import opened Bytes
  import opened Messages
  import opened Transcripts
  import opened TokenEstimates
  import opened Compaction
  import opened RecoveryLadder
  import opened RecoveryPairing
  import opened Preflight
  import opened ResultSync
  import opened ToolLoop
  import opened AgentLoops
  import opened Abridgements

  /** Every call is answered, and no System message has to do with calls. */
  ghost predicate InOrder(ms: seq<Message>) { Paired(ms) && PlainSystems(ms) }

  // ---- Clean recoveries ----

  ghost predicate CleanCompaction(config: AgentConfig, session: seq<Message>) {
    config.monitor.Some? ==>
      var m := config.monitor.value;
      m.UrgencyOf(session).Some? ==>
        CutsClean(session, m.contextLimit, m.UrgencyOf(session).value, 8, config.toolResultCap, m.safetyMargin)
  }

  /** The recovery that preflight asks for, when what it trimmed does not fit. */
  ghost predicate CleanPreflight(config: AgentConfig, world: World, session: seq<Message>, tools: seq<ToolDefinition>) {
    config.monitor.Some? ==>
      var m := config.monitor.value;
      forall trimmed, k ::
        && TrimmedTo(m, BuildResolvedMessages(world.system, session, world.inline), trimmed, k)
        && EstimateFull(trimmed, tools, m.safetyMargin) > CompactionLimit(m) ==>
        CutsClean(session, m.contextLimit, Emergency, 5, config.toolResultCap, m.safetyMargin)
  }

  /** The recoveries between the retries of a request. */
  ghost predicate CleanRetries(config: AgentConfig, world: World, session: seq<Message>, sent: seq<Message>,
                               calls: nat, attempt: nat, offerTools: bool)
    requires attempt <= config.overflowRetries
    decreases config.overflowRetries - attempt
  {
    var result := world.chat(calls, sent, Offered(world, calls, offerTools));
    if result != Err(ContextOverflow) || attempt == config.overflowRetries || config.monitor.None? then true
    else
      var m := config.monitor.value;
      var recovered := CompactedForRetry(config, m, session, attempt, offerTools);
      && CutsClean(session, m.contextLimit, OverflowRetryUrgency(attempt), RetryKeep(offerTools), config.toolResultCap,
                   m.safetyMargin)
      && (recovered.Some? ==>
            var after := recovered.value.messages;
            CleanRetries(config, world, after, BuildResolvedMessages(world.system, after, world.inline),
                         calls + 1, attempt + 1, offerTools))
  }

  ghost predicate CleanPrompt(agent: AgentLoop, world: World, session: seq<Message>, calls: nat, offerTools: bool) {
    && CleanPreflight(agent.config, world, session, Offered(world, calls, offerTools))
    && forall guarded, sent :: agent.Readied(world, session, calls, offerTools, guarded, sent) ==>
         CleanRetries(agent.config, world, guarded, sent, calls, 0, offerTools)
  }

  ghost predicate CleanPass(agent: AgentLoop, world: World, from: Pass, round: Round, exit: Option<Exit>)
    requires WellFormed(round)
  {
    var after := agent.AfterResults(from.session, round);
    && CleanCompaction(agent.config, from.session + RoundMessages(round.(notes := [])))
    && (after.Some? ==>
          var noted := after.value + NoteMessages(round.notes);
          && (exit == None ==> CleanPrompt(agent, world, noted, from.calls, true))
          && (exit == Some(Synthesized) ==> CleanPrompt(agent, world, noted, from.calls, false)))
  }

  /** No recovery of the run cuts in front of a tool result. */
  ghost predicate CleanRun(agent: AgentLoop, world: World, opening: seq<Message>, passes: seq<Pass>, exit: Exit,
                           rounds: seq<Round>)
  {
    var compacted := CompactedIfUrgent(agent.config, opening);
    && AllWellFormed(rounds) && 0 < |passes| <= |rounds| + 1
    && CleanCompaction(agent.config, opening)
    && (compacted.Some? ==> CleanPrompt(agent, world, compacted.value, 0, true))
    && (forall i :: 0 <= i < |passes| - 1 ==> CleanPass(agent, world, passes[i], rounds[i], None))
    && (|passes| == |rounds| ==>
          CleanPass(agent, world, passes[|passes| - 1], rounds[|rounds| - 1], Some(exit)))
  }

  // ---- What each stage keeps ----

  lemma AppendInOrder(a: seq<Message>, b: seq<Message>)
    requires InOrder(a) && InOrder(b)
    ensures InOrder(a + b)
  {
    AppendPaired(a, b);
  }

  lemma RoundInOrder(r: Round)
    requires WellFormed(r)
    ensures InOrder(RoundMessages(r.(notes := []))) && InOrder(NoteMessages(r.notes))
  {
    RoundIsPaired(r.(notes := []));
    NotesArePaired(r.notes, 0);
    QuietRoundMessages(r.(notes := []));
  }

  lemma CompactionInOrder(config: AgentConfig, session: seq<Message>)
    requires InOrder(session) && CleanCompaction(config, session) && CompactedIfUrgent(config, session).Some?
    ensures InOrder(CompactedIfUrgent(config, session).value)
  {
    hide Recover, Paired, PlainSystems, CutsClean;
    if config.monitor.Some? {
      var m := config.monitor.value;
      var urgency := m.UrgencyOf(session);
      if urgency.Some? {
        RecoveryKeepsPairingIff(session, m.contextLimit, urgency.value, 8, config.toolResultCap, m.safetyMargin);
      }
    }
  }

  lemma SyncInOrder(session: seq<Message>, resolved: seq<Message>)
    requires InOrder(session)
    ensures InOrder(Synced(session, resolved))
  {
    var result := Synced(session, resolved);
    SyncExact(session, resolved, |resolved|);
    forall i | 0 <= i < |session| ensures SameSlot(session[i], result[i]) {
      assert SyncedSlot(session, resolved, result, i, |resolved|);
    }
    SlotsPairing(session, result, 0);
  }

  lemma PreflightInOrder(config: AgentConfig, world: World, session: seq<Message>, tools: seq<ToolDefinition>,
                         writeBack: bool, guarded: seq<Message>, sent: seq<Message>, trimmed: seq<Message>, k: nat)
    requires Guarded(config, world, session, tools, writeBack, Some(guarded), sent, trimmed, k)
    requires InOrder(session) && CleanPreflight(config, world, session, tools)
    ensures InOrder(guarded)
  {
    hide Recover, TrimmedTo, Synced, EstimateFull, CompactionLimit, AnyOversized, BuildResolvedMessages, CutsClean;
    SyncInOrder(session, trimmed);
    if config.monitor.Some? {
      var m := config.monitor.value;
      hide Paired, PlainSystems;
      if EstimateFull(trimmed, tools, m.safetyMargin) > CompactionLimit(m) {
        RecoveryKeepsPairingIff(session, m.contextLimit, Emergency, 5, config.toolResultCap, m.safetyMargin);
      }
    }
  }

  lemma {:induction false} RetriesInOrder(config: AgentConfig, world: World, session: seq<Message>, sent: seq<Message>,
                                          calls: nat, attempt: nat, offerTools: bool)
    requires attempt <= config.overflowRetries && InOrder(session)
    requires CleanRetries(config, world, session, sent, calls, attempt, offerTools)
    ensures InOrder(RetryFrom(config, world, session, sent, calls, attempt, offerTools).session)
    decreases config.overflowRetries - attempt
  {
    hide BuildResolvedMessages, Recover, Paired, PlainSystems, CutsClean;
    var result := world.chat(calls, sent, Offered(world, calls, offerTools));
    if result == Err(ContextOverflow) && attempt < config.overflowRetries && config.monitor.Some? {
      var m := config.monitor.value;
      var recovered := CompactedForRetry(config, m, session, attempt, offerTools);
      if recovered.Some? {
        RecoveryKeepsPairingIff(
          session, m.contextLimit, OverflowRetryUrgency(attempt), RetryKeep(offerTools),
          config.toolResultCap, m.safetyMargin);
        var after := recovered.value.messages;
        var request := BuildResolvedMessages(world.system, after, world.inline);
        RetriesInOrder(config, world, after, request, calls + 1, attempt + 1, offerTools);
      }
    }
  }

  lemma PromptInOrder(agent: AgentLoop, world: World, session: seq<Message>, calls: nat, offerTools: bool, to: Pass)
    requires agent.Prompted(world, session, calls, offerTools, to)
    requires InOrder(session) && CleanPrompt(agent, world, session, calls, offerTools)
    ensures InOrder(to.session)
  {
    hide RetryFrom, InOrder, CleanPreflight, CleanRetries, Guarded;
    var tools := Offered(world, calls, offerTools);
    var guarded, sent :|
      && agent.Readied(world, session, calls, offerTools, guarded, sent)
      && RetryFrom(agent.config, world, guarded, sent, calls, 0, offerTools)
         == Retried(Ok(to.reply), to.session, to.calls);
    var trimmed, k :| Guarded(agent.config, world, session, tools, offerTools, Some(guarded), sent, trimmed, k);
    PreflightInOrder(agent.config, world, session, tools, offerTools, guarded, sent, trimmed, k);
    RetriesInOrder(agent.config, world, guarded, sent, calls, 0, offerTools);
  }

  lemma PassInOrder(agent: AgentLoop, exit: Option<Exit>, world: World, from: Pass, earlier: seq<Round>,
                    rounds: seq<Round>, to: Pass)
    requires agent.PassedThrough(exit, world, from, earlier, rounds, to) && InOrder(from.session)
    requires exit != Some(LimitAlreadyReached) ==>
      rounds != [] && WellFormed(rounds[|rounds| - 1]) && CleanPass(agent, world, from, rounds[|rounds| - 1], exit)
    ensures InOrder(to.session)
  {
    hide InOrder, CleanCompaction, CleanPrompt, CompactedIfUrgent, agent.Prompted, RoundMessages, NoteMessages;
    if exit != Some(LimitAlreadyReached) {
      var round := rounds[|rounds| - 1];
      RoundInOrder(round);
      AppendInOrder(from.session, RoundMessages(round.(notes := [])));
      CompactionInOrder(agent.config, from.session + RoundMessages(round.(notes := [])));
      AppendInOrder(agent.AfterResults(from.session, round).value, NoteMessages(round.notes));
      var noted := agent.AfterResults(from.session, round).value + NoteMessages(round.notes);
      if exit == None {
        PromptInOrder(agent, world, noted, from.calls, true, to);
      } else if exit == Some(Synthesized) {
        PromptInOrder(agent, world, noted, from.calls, false, to);
      }
    }
  }

  lemma {:induction false} ChainInOrder(agent: AgentLoop, world: World, passes: seq<Pass>, rounds: seq<Round>, n: nat)
    requires agent.Chained(world, passes, rounds) && n <= |rounds| && AllWellFormed(rounds)
    requires InOrder(passes[0].session)
    requires forall i :: 0 <= i < |rounds| ==> CleanPass(agent, world, passes[i], rounds[i], None)
    ensures InOrder(passes[n].session)
  {
    hide agent.PassedThrough, InOrder, CleanPass;
    if n > 0 {
      ChainInOrder(agent, world, passes, rounds, n - 1);
      assert agent.Links(world, passes, rounds, n - 1);
      assert rounds[..n][|rounds[..n]| - 1] == rounds[n - 1];
      PassInOrder(agent, None, world, passes[n - 1], rounds[..n - 1], rounds[..n], passes[n]);
    }
  }

  /** A run whose recoveries cut cleanly keeps calls and results together, with any monitor. */
  lemma CleanRunStaysInOrder(agent: AgentLoop, world: World, opening: seq<Message>, passes: seq<Pass>, exit: Exit,
                             trace: RunTrace, session: seq<Message>, reply: Reply)
    requires InOrder(opening) && CompactedIfUrgent(agent.config, opening).Some?
    requires agent.TellsAll(world, CompactedIfUrgent(agent.config, opening).value, passes, exit, trace, session, reply)
    requires CleanRun(agent, world, opening, passes, exit, trace.rounds)
    ensures InOrder(session)
  {
    hide CompactedIfUrgent, agent.Prompted, agent.Chained, agent.PassedThrough, InOrder, CleanCompaction, CleanPrompt;
    hide CleanPass;
    var n, rounds := |passes| - 1, trace.rounds;
    CompactionInOrder(agent.config, opening);
    PromptInOrder(agent, world, CompactedIfUrgent(agent.config, opening).value, 0, true, passes[0]);
    ChainInOrder(agent, world, passes, rounds[..n], n);
    if exit != Answered && exit != IterationsExhausted {
      var last := Pass(session, reply, trace.providerCalls);
      if exit != LimitAlreadyReached { OneRoundMore(agent, exit, world, passes[n], rounds[..n], rounds, last); }
      PassInOrder(agent, Some(exit), world, passes[n], rounds[..n], rounds, last);
    }
  }

  lemma OneRoundMore(agent: AgentLoop, exit: Exit, world: World, from: Pass, earlier: seq<Round>, rounds: seq<Round>,
                     to: Pass)
    requires agent.PassedThrough(Some(exit), world, from, earlier, rounds, to) && exit != LimitAlreadyReached
    ensures |rounds| == |earlier| + 1
  {
  }

  /** So what such a run saves, its answer included, is paired. */
  lemma CleanRunSavesPaired(agent: AgentLoop, world: World, before: seq<Message>, user: Message, saved: seq<Message>,
                            trace: RunTrace, exit: Exit, reply: Reply, passes: seq<Pass>)
    requires InOrder(before) && Plain(user)
    requires agent.Completed(world, before, user, saved, trace, exit, reply, passes)
    requires CleanRun(agent, world, before + [user], passes, exit, trace.rounds)
    ensures InOrder(saved) && EveryCallAnswered(saved)
  {
    hide CompactedIfUrgent, agent.TellsAll, agent.Explains, Abridges, CleanRun, PlainSystems, PairedFrom;
    var session, answer := saved[..|saved| - 1], saved[|saved| - 1];
    PlainInOrder(user);
    AppendInOrder(before, [user]);
    CleanRunStaysInOrder(agent, world, before + [user], passes, exit, trace, session, reply);
    PlainInOrder(answer);
    AppendInOrder(session, [answer]);
    assert saved == session + [answer];
    PairedMeaning(saved);
  }

  lemma PlainInOrder(m: Message)
    requires Plain(m)
    ensures InOrder([m])
  {
    AppendPlain([], m);
    assert [] + [m] == [m];
  }
}
