# ZeptoClaw agent runtime: a verified model

This Dafny project models the bookkeeping of the ZeptoClaw agent runtime: what a conversation looks
like after a run, when the tool loop has to stop, what context compaction may do to a transcript,
whether the audit log can be trusted, and whether the busy-session queue can lose a message. The
provider, the tools, the clock and every hash function are arbitrary parameters, so each result
holds for every provider, every tool and every interleaving.

`dafny verify dfyconfig.toml` checks the whole project.

## The components

| module | file | what it covers |
|---|---|---|
| Bytes | `bytes.dfy` | bytes, byte strings, decimal numbers, result types |
| Utf8 | `utf8.dfy` | UTF-8 as defined in section 4 of RFC 3629, character boundaries, boundary-seeking cuts |
| AuditPayload, AuditChain | `audit_payload.dfy`, `audit_chain.dfy` | the hashed payload and the bounded hash chain |
| Periodicity, GuardWindow, LoopGuards, GuardRuns, GuardAlternation, GuardRotation | `periodicity.dfy`, `guard_window.dfy`, `loop_guard.dfy`, `guard_runs.dfy`, `guard_alternation.dfy`, `guard_rotation.dfy` | the loop guard: oscillation test, sliding windows, the guard object, whole runs of it, and runs of two or three batches that take turns |
| Messages, Transcripts | `messages.dfy` | messages, and what it means for every tool call to be answered |
| TokenEstimates, Compaction, RecoveryLadder, RecoveryLaws, RecoveryPairing | `token_estimates.dfy`, `compaction.dfy`, `recovery.dfy`, `recovery_laws.dfy`, `recovery_pairing.dfy` | estimates and urgency, truncation and shrinking, the three-tier recovery, what it leaves behind, and when its result is paired |
| Preflight, ResultSync, Requests, Abridgements | `preflight.dfy`, `result_sync.dfy`, `requests.dfy`, `abridgement.dfy` | the guard before each provider call, the write-back into the session, what a request holds, and what all of context management can do to a conversation |
| Limits | `limits.dfy` | tool-call limit and token budget |
| ToolLoop, GuardedRounds, AgentLoops | `tool_loop.dfy`, `guarded_rounds.dfy`, `agent_loop.dfy` | one run on one message, round by round, and the agent object that performs it |
| RunLaws, RunAborts, PairedRuns | `run_laws.dfy`, `run_aborts.dfy`, `paired_runs.dfy` | what a run sends and what compaction leaves of its conversation, which runs abort, and which runs with a monitor save paired transcripts |
| MessageQueue, QueueOrder, QueueProgress | `message_queue.dfy`, `queue_order.dfy`, `queue_progress.dfy` | the busy-session queue as an interleaved protocol, the order it keeps, and how it always can finish |
| A2uiScanner | `a2ui_scanner.dfy` | extraction of fenced A2UI blocks |
| Facade | `facade.dfy` | the library facade with cancellation and repair |

Code that updates state in place is a class or a method over arrays, proved against a function of
the old state; the properties are then lemmas about that function. `AgentLoop.ProcessMessage` is
the run itself. Its contract names a ghost trace of rounds and says when the run fails and how, what
the saved transcript is, what every cap guarantees, and what each of the nine ways to leave the loop
means.

## Where the code falls short of its promise

Every "if and only if" below is proved for every input. A lemma named as a failing input shows one on
which the code misses its promise.

* A batch that is repeated for ever is stopped **if and only if** the guard is enabled, the batch is
  not empty, and the window is unbounded or the warning threshold is at most one more than the window
  (`GuardRuns.RepeatedBatchIsStoppedIff`, failing input `SmallWindowNeverStops`). A prune keeps half
  the window and counts the newest hash twice, so the count peaks at the window size plus one. With
  an enabled guard repeated outcomes obey the same law with their block threshold
  (`GuardRuns.RepeatedOutcomeIsStoppedIff`, failing input `SmallWindowNeverBlocksOutcomes`).
* Two batches that alternate for ever are stopped if and only if the guard is enabled and the window
  is unbounded, or holds twice the repeats of the oscillation test, or the warning threshold is at
  most half the window plus one, or plus two when the window is 3 modulo 4
  (`GuardAlternation.AlternationIsStoppedIff`, failing input `SmallWindowMissesAlternation`). Three
  batches that take turns obey the same law with their own peak and oscillation test
  (`GuardRotation.RotationIsStoppedIff`).
* The suggested delay follows 2^n seconds capped at 30 if and only if n < 64 or n mod 64 >= 5,
  because the shift wraps (`LoopGuards.BackoffMatchesSchedule`, failing input
  `GuardRuns.DelayWrapsSomewhere`).
* Which of the two oscillation tests comes first matters if and only if one repeat is enough
  (`Periodicity.TestOrderMattersOnlyForOneRepeat`).
* Truncating twice equals truncating once to the smaller number if and only if the first message is
  System, or no message is (`Compaction.TruncationsComposeIff`).
* Truncation cuts by position: it leaves calls and results paired if and only if the cut does not
  fall in front of a tool result (`Compaction.TruncationKeepsPairingIff`, failing input
  `KeepingOneBreaksPairing`), and so does a whole recovery
  (`RecoveryPairing.RecoveryKeepsPairingIff`, failing input `SixMessagesBreakPairing` with default
  settings). With the monitor off every saved transcript is paired. With the monitor on it is an
  abridgement of the run's own story, and paired when none of the run's recoveries makes such a cut
  (`PairedRuns.CleanRunSavesPaired`).
* Shrinking calls `String::truncate`, which panics off a character boundary; the loop that follows
  it and looks for a boundary never runs. Recovery aborts if and only if the urgency is not Critical,
  the context is too full before and after truncation and some tool result that was kept is over its
  budget and has no boundary there (`RecoveryLadder.RecoveryAbortsIff`). With default settings a run
  aborts before its first provider call on a long question behind one full result of three-byte
  characters (`RunAborts.RunOnLongQuestion`); runs whose tools answer in ASCII never abort
  (`RunAborts.ServeAscii`).
* A shrunk result is shorter if and only if it was over its budget by more than the note that is
  added (`Compaction.ShrinkReducesIff`, failing input `OneByteOverGrows`).
* With the monitor's own urgency, recovery enters its tiers if and only if the estimate lies between
  95% of the limit and the critical threshold (`RecoveryLadder.MonitorEntersTiersIff`). With a
  critical threshold of at most 0.95 the first two tiers are therefore out of use
  (`MonitorUrgencySkipsMiddleTiers`); `TwelveMessagesEndInFirstTier` reaches the first one with a
  threshold of 1.0.
* `needs_compaction` and `urgency` agree if and only if the limit is not zero or the estimate is not
  empty; there the ratio is not a number (`TokenEstimates.NeedsCompactionIffUrgent`).
* The busy check and the push of a queued message are separate steps. A step strands a message if
  and only if it pushes it when no worker is left that will drain its session
  (`MessageQueue.StrandsIff`), and some run ends with a stranded message if and only if there are at
  least two workers (`MessageQueue.StrandsSomewhereIff`, failing run `LatePushStrandsMessage`).
* `repair_history` restores a history with one dangling call if and only if nothing has followed it
  (`Facade.RepairRestoresIff`). Over whole scripts of chats, repairs and clears, every call is
  answered in the end if and only if each chat that was cut short was followed by a clear, or by a
  repair before the next chat (`Facade.HistoryIsPairedIff`, failing input `LateRepairFails`).

The doc comment of `suggest_strategy` lists fixed percentages; the code decides by urgency and
truncates to five when it is Emergency, and the model follows the code. A tool result, for
compaction, is a message with role Tool that has a tool-call id, as `Message::is_tool_result` defines
it; the preflight guard and the write-back look at the role alone, and so does the model.

## Model

| member | source | states |
|---|---|---|
| AgentLoops.AgentLoop.ProcessMessage | src/agent/loop.rs:1852-2879 | One run in full. It is refused for a blocked prompt, a missing provider or a failed load exactly when there is one, in this order, and never for the token budget; it aborts or passes a provider error on only when its passes lead there, and fails to save only when the file does. The caps on rounds, provider calls (the memory flush included), executed tool calls and tokens hold however it ends; no other session changes and a run that fails before saving leaves its transcript alone. In every configuration the saved session is the outcome of its passes one by one, ends on the answer, and abridges the run's own story; with the monitor off it is exactly that story, every round answers the conversation before it, and the last reply answers the transcript as saved. Each exit (answer, iterations, limit, pause, synthesis, guard, outcomes, budget) is explained; the text returned is the last reply's, or the fixed notice of the exits that have one; and the tokens used are, input and output, the sums over the replies of all passes and of the synthesis |
| AgentLoops.AgentLoop.FailureMeans | src/agent/loop.rs:2064-2120 | A run that fails on its way aborted, which takes a monitor, or its last provider call returned the very error that is passed on |
| AgentLoops.AgentLoop.Prepare | src/agent/loop.rs:1933-2007 | Memory flush, compaction and preflight, in this order, lead from the session with the user message to the first request. The flush takes a normal urgency and the memory tools; what compaction leaves fits or is short (`CompactionLeaves`), and the request tells all of the session that is left (`Sends`) |
| AgentLoops.AgentLoop.RunLoop | src/agent/loop.rs:2170-2858 | The tool loop: whichever exit is taken, the trace is within the caps, the guard's verdicts were heeded after all rounds but the last, only the last round was truncated or paused, and the exit is explained, or the last pass is shown to fail with the error |
| AgentLoops.AgentLoop.Iterate | src/agent/loop.rs:2170-2858 | One pass: a limit already reached adds no message; otherwise one well-formed round is added, and the pass exits exactly where pause, limit, guard or budget end the run, or fails because compaction aborts or the next reply is refused |
| AgentLoops.AgentLoop.FinishRound | src/agent/loop.rs:2690-2858 | After a round within the limit: the guard's notes and verdict, then the budget, then the next request; from here the run either stops or continues with a reply to the session as it stands |
| AgentLoops.AgentLoop.Synthesize | src/agent/loop.rs:2597-2688 | At the limit one last call without tools is made, or none if the token budget is spent too |
| AgentLoops.AgentLoop.NextReply | src/agent/loop.rs:2733-2858 | Preflight, provider call with retries and token accounting: at most overflow_retries + 1 calls, the tokens of an answered call are counted once, and nothing is invented or reordered |
| AgentLoops.AgentLoop.ChainGrows | src/agent/loop.rs:2170-2858 | A pass appended to a chain of passes, each leading from one state of the run to the next, gives a chain |
| AgentLoops.AgentLoop.PlayRound | src/agent/loop.rs:2177-2215 | The batch is a nonempty prefix of the request, cut only to use up the limit exactly; the assistant message and one result per executed call are appended in order; the round pauses if and only if some call does |
| AgentLoops.AgentLoop.Consult | src/agent/loop.rs:2690-2716 | State, notes and verdict are those of the guard on calls and then on outcomes, and nothing happens when it is disabled |
| AgentLoops.CheckLoopGuard | src/agent/loop.rs:973-1016 | The guard advances by one check; the loop stops exactly on Block and CircuitBreak, and every response but Allow leaves one note |
| AgentLoops.CheckLoopGuardOutcomes | src/agent/loop.rs:1021-1073 | State, notes and verdict are those of `OutcomesFrom`: outcomes in order, each against the last call with its id, until the first that stops; `GuardedRounds.GuardSeesOutcomes` and `RepeatedRoundIsJudged` say what that records and notes |
| AgentLoops.ExecuteBatch | src/agent/loop.rs:2546-2569 | One result per call, in order; pause if and only if some call asks for it |
| AgentLoops.CompactIfUrgent | src/agent/loop.rs:2571-2593 | Without urgency, or within 95% of the limit, the session is unchanged; a critical urgency leaves exactly the last six messages behind the System message in front; any other leaves what fits, from the last eight (five in an emergency), or the last three (`CompactionLeaves`); an abridgement in any case |
| AgentLoops.PreflightSession | src/agent/loop.rs:1977-2007 | What is sent is the trimmed request, which fits, or the one rebuilt after emergency recovery; the session is synced exactly when something was trimmed. The request holds the system prompt and every message of the session that is left, in order, except user messages with neither text nor image (`Sends`); the session keeps all messages, with the tool texts that are sent where write-back is asked for, and what is sent is within both limits, or the session is what an emergency recovery leaves |
| AgentLoops.GuardedIsTold | src/agent/loop.rs:1977-2007 | The two laws of the previous row, for whatever the guard makes of session and request |
| Requests.RequestPlaces | src/agent/loop.rs:3985-4013 | A request holds, at strictly increasing places of prompt and session, each message with its files inlined; a place is missing if and only if a user message there has no text and, inlined, no image |
| Requests.TrimmedIsSent | src/agent/loop.rs:1977-1985 | The same up to tool texts when the request was trimmed |
| Requests.SyncedIsSent | src/agent/loop.rs:1099-1120 | The same after the trimmed texts were written back into the session |
| Requests.SyncWritesBack | src/agent/loop.rs:1977-1985 | With distinct ids every tool message of the session ends with the text that is sent for it |
| Requests.PromptComesFirst | src/agent/loop.rs:3985-4013 | The first message of a request is the system prompt |
| Requests.MessageIsSent | src/agent/loop.rs:3985-4013 | Every message of the session that is not blank is in the request, with the same role, calls and id |
| AgentLoops.CallProvider | src/agent/loop.rs:2064-2120 | The retry loop computes `RetryFrom`: overflow, compaction with rising urgency, and a rebuilt request, until an answer, another error or the last attempt |
| AgentLoops.RetriesAreBounded | src/agent/loop.rs:2064-2120 | At most overflow_retries more calls, each after an overflow; the reply answers the request as given or the compacted session; an overflow is passed on only when retries are used up or there is no monitor |
| RunLaws.RetriesAreTold | src/agent/loop.rs:2064-2120 | Call by call: each attempt sends its whole session, all but the last overflow, the first compaction between two attempts is a normal one, the second an emergency and any other critical, keeping eight messages (five without tools), and the last attempt has the answer or error that is passed on |
| RunLaws.PromptIsTold | src/agent/loop.rs:1977-2120 | A reply in a run answers the last such attempt on the session that preflight left |
| RunLaws.CompletedRunIsTold | src/agent/loop.rs:1933-2858 | Every completed run, with a monitor or without: the opening and the session after the results of each round are compacted as urgency asks, each next reply answers a request that tells the session behind them with the tools on offer (none for the synthesis), the other exits leave that session as it is, and the saved answer is the reply or the notice |
| RunLaws.FailedRunIsTold | src/agent/loop.rs:1933-2858 | The same for the passes of a run that fails after its first reply |
| RunLaws.CachedRunIsTold | src/agent/loop.rs:1933-2063 | A run with a cached answer saves it behind the session that compaction and preflight leave |
| RunLaws.TwelveMessagesBecomeSix | src/agent/loop.rs:1933-1959 | A critical compaction of twelve messages leaves the last six |
| AgentLoops.AgentLoop.RoundKeepsSound | src/agent/loop.rs:2203-2215 | Adding a round that answers the current reply keeps session, trace and caps in step |
| AgentLoops.AgentLoop.SoundRunIsSaved | src/agent/loop.rs:2873-2879 | What a sound run saves abridges its story, and with the monitor off equals it and is paired |
| AgentLoops.ServeAll | src/agent/loop.rs:1852-2879 | After any number of runs with any outcomes, with the monitor off, every saved tool call is immediately followed by its result |
| ToolLoop.SavedTranscriptIsPaired | src/agent/loop.rs:2203-2215 | Whatever the rounds were, appending user message, rounds and answer to a paired transcript leaves it paired |
| ToolLoop.StillConverses | src/agent/loop.rs:2733-2740 | A round that answers the conversation so far extends a run in which every round does |
| ToolLoop.RoundLayout | src/agent/loop.rs:2203-2215 | A round in the transcript, position by position: the calls, one result for each with its id, then the notes of the guard |
| ToolLoop.OneMoreAccounted | src/agent/budget.rs:63-75 | Recording an answered call keeps the counters equal to the sums of prompt and completion tokens, and every call was made with the budget not used up |
| GuardedRounds.GuardAdvances | src/agent/loop.rs:2690-2716 | Earlier verdicts stand when a round is added, and its own notes and verdict are the guard's |
| GuardedRounds.GuardSeesCalls | src/agent/loop_guard.rs:121-131 | The guard's call window during a run is exactly that of the batches executed so far |
| GuardedRounds.RepeatingRunIsShort | src/agent/loop.rs:2690-2696 | A run whose rounds all execute one batch has at most as many rounds as the larger of the two thresholds, if the window reaches that far |
| GuardedRounds.OutcomesAreOfLastCalls | src/agent/loop.rs:1027-1035 | The call an outcome is recorded for is the last one with the id of the result |
| GuardedRounds.GuardSeesOutcomes | src/agent/loop.rs:1021-1073 | While the run goes on the outcome window is exactly that of one digest per result: of that call and the first thousand bytes of the result |
| GuardedRounds.RepeatedOutcomeRunIsShort | src/agent/loop.rs:2696-2716 | A run whose rounds have one same call and result has at most as many rounds as the outcome block threshold, if the window reaches that far |
| GuardedRounds.RepeatedRoundIsJudged | src/agent/loop.rs:2690-2716 | In such a run, short of the breaker, round n is noted and ended exactly as the thresholds say for n calls and n outcomes, the call first |
| GuardedRounds.DefaultRepeatedRun | src/agent/loop.rs:2690-2716 | With the default settings such a run is warned after its second round and ends with the third because of its outcome |
| GuardedRounds.RoundsAreOneRun | src/agent/loop.rs:2690-2716 | For any rounds: while the run goes on, the guard is in the state after one check per round and one outcome per result, and each round carries one note for each of its verdicts but Allow, in order; what is proved of runs of the guard thus holds for runs of the agent |
| Transcripts.PairedMeaning | src/agent/facade.rs:279-285 | The scanning definition of a paired transcript says exactly: every call is followed at once by its result in order, and there is no stray result |
| Transcripts.PairedSuffixIff | src/agent/compaction.rs:78-82 | A suffix of a paired transcript is paired if and only if it does not start with a tool result |
| Limits.ToolCallLimitTracker.Remaining | src/agent/tool_call_limit.rs:73-75 | Used plus remaining is the limit until the limit is passed; unlimited stays unlimited |
| Limits.ToolCallLimitTracker.IsExceeded | src/agent/tool_call_limit.rs:43-48 | Exceeded if and only if nothing remains |
| Limits.TokenBudget.Remaining | src/agent/budget.rs:87-95 | Used plus remaining is the limit until it is passed; zero means no limit |
| Limits.TokenBudget.IsExceeded | src/agent/budget.rs:102-107 | Exceeded if and only if there is a limit and nothing remains |
| AuditChain.TamperEvidence | src/audit.rs:187-236 | Two windows that pass verification and share a tip either agree entry by entry from the end, with the same base hash there, or yield two different texts with the same digest, for any digest |
| AuditChain.TraceBack | src/audit.rs:189-227 | The reduction step by step: agreement reaches back k entries, or at some place both windows hold different payloads with the same hash |
| AuditChain.ChangedWindowFails | src/audit.rs:187-236 | A window with as many entries and the tip of a verified one passes if and only if entries, base hash and (where there are entries) next sequence number are unchanged, unless two payloads at the same place collide; any digest |
| AuditChain.WindowOfLogIsIntact | src/audit.rs:147-236 | The window of every log that was recorded entry by entry is intact, at any length, across eviction and saturation |
| AuditChain.WindowOfAppend | src/audit.rs:171-183 | Recording appends to the window and evicts the oldest entry into the base hash when it is full |
| AuditChain.LogIsNumbered | src/audit.rs:155-177 | Entries are numbered from one, strictly increasing until they saturate at the largest 64-bit number, and the window names the next number |
| AuditChain.IntactIsNumbered | src/audit.rs:187-236 | Whatever passes verification is numbered without a gap from its first entry on |
| AuditChain.AuditHashChain.Record | src/audit.rs:147-185 | The chain refines an unbounded log: one entry is appended whose payload has the number of records so far plus one (up to the largest 64-bit number), the sanitised texts and the previous hash |
| AuditChain.AuditHashChain.VerifyIntegrity | src/audit.rs:187-236 | Succeeds if and only if the window is intact; an error names the first fault |
| AuditChain.AuditHashChain.Recent | src/audit.rs:238-245 | The last n entries of the log, as far as the window reaches |
| AuditChain.AuditHashChain.TipHash | src/audit.rs:247-250 | The hash of the last record, or the genesis hash |
| AuditChain.ComputeEntryHash | src/audit.rs:258-276 | Feeding the hasher piece by piece hashes exactly the encoded payload |
| AuditChain.RecordAllThenVerify | src/audit.rs:459-475 | After any number of records verification succeeds and the log has only grown |
| AuditPayload.PayloadRoundTrip | src/audit.rs:267-281 | Decoding undoes encoding for every entry |
| AuditPayload.DecodedPayloadIsEncoding | src/audit.rs:267-281 | Whatever decodes is the encoding of what it decodes to: nothing else is accepted |
| AuditPayload.EncodingIsInjective | src/audit.rs:478-499 | Encodings are equal if and only if the payloads are |
| AuditPayload.FieldOrder | src/audit.rs:258-281 | The hashed bytes are the little-endian number and the six fields in this order |
| AuditPayload.EncodingOfSample | src/audit.rs:258-281 | The hashed bytes of one record, byte by byte |
| Periodicity.HasPeriodicPattern | src/agent/loop_guard.rs:354-384 | True if and only if the last period * repeats hashes have that period and are not all equal |
| Periodicity.NeverBothPeriods | src/agent/loop_guard.rs:292-346 | With two or more repeats no sequence oscillates with both periods 2 and 3 |
| Periodicity.TestOrderMattersOnlyForOneRepeat | src/agent/loop_guard.rs:292-346 | Testing 3 before 2 would report the same on every sequence if and only if repeats is not 1 |
| GuardWindow.WindowExact | src/agent/loop_guard.rs:124-136 | After any pushes the window holds exactly the latest ones, at most the limit, and the counts are those of the window plus at most one phantom occurrence, none before the first prune |
| GuardWindow.LengthClosedForm | src/agent/loop_guard.rs:265-276 | Length and last prune in closed form |
| GuardWindow.RebuildIsAmortised | src/agent/loop_guard.rs:265-289 | Total rebuild work plus current length never exceeds the number of pushes |
| GuardWindow.RebuildWorkClosedForm | src/agent/loop_guard.rs:265-289 | The rebuild work in closed form: half a window for the first prune and for each full period since |
| GuardWindow.RebuildCounts | src/agent/loop_guard.rs:269-275 | The rebuild loop counts every occurrence of every hash in the window, in one step per hash |
| GuardRuns.RunGuard | src/agent/loop_guard.rs:114-289 | The guard object, driven through any checks and outcomes, goes through the specified states and verdicts; the steps its rebuild loops have taken plus what both windows hold are at most the number of operations |
| LoopGuards.LoopGuard.Check | src/agent/loop_guard.rs:114-192 | New state and response are those of `CheckStep` |
| LoopGuards.LoopGuard.RecordOutcome | src/agent/loop_guard.rs:198-253 | New state and response are those of `OutcomeStep` |
| LoopGuards.LoopGuard.CheckPingPong | src/agent/loop_guard.rs:292-346 | Reports period 2 first, then 3, counts the repetition, and changes nothing otherwise |
| LoopGuards.BackoffMatchesSchedule | src/agent/loop_guard.rs:456-460 | The delay is min(2^(count - warn), 30) seconds if and only if the shift does not wrap below 2^5 |
| GuardRuns.DelayWraps | src/agent/loop_guard.rs:174-188 | Sixty-four checks past the warning threshold a poll is told to wait one second, for every configuration that gets there |
| GuardRuns.DelayWrapsSomewhere | src/agent/loop_guard.rs:174-188 | A configuration that gets there |
| GuardRuns.ReachableWindowsDriftByAtMostOne | src/agent/loop_guard.rs:114-253 | In every reachable state, for calls and for outcomes, window size and counts drift by at most one occurrence |
| GuardRuns.BreakerAccounting | src/agent/loop_guard.rs:152-239 | Over any run, total_repetitions is the number of counted responses, all but the first breaker - 1 of them are CircuitBreak, and the statistics agree |
| GuardRuns.BreakerIsFinal | src/agent/loop_guard.rs:152-192 | Once the breaker is reached a check answers only Allow or CircuitBreak |
| GuardRuns.StatisticsAgree | src/agent/loop_guard.rs:114-253 | Until the breaker is in reach, each of the other statistics is the number of answers of its kind |
| GuardRuns.RepeatedBatchVerdict | src/agent/loop_guard.rs:114-192 | The n-th check of one repeated batch, in closed form for every n, thresholds and window |
| GuardRuns.RepeatedBatchIsStoppedIff | src/agent/loop_guard.rs:114-192 | Some verdict on a run of one repeated batch stops the loop if and only if the guard is enabled, the batch is not empty, and the window is 0 or the warning threshold is at most window + 1 |
| GuardRuns.RepeatedRunFollowsSchedule | src/agent/loop_guard.rs:114-192 | If the window reaches that far, the verdicts on a repeated batch are Allow exactly below the warning threshold and stop for the first time at a given check |
| GuardRuns.RepeatedBatchSchedule | src/agent/loop_guard.rs:114-192 | That check comes at the block threshold at the latest, and poll delays follow the schedule |
| GuardRuns.DefaultSchedule | src/agent/loop_guard.rs:484-512 | With the default settings: warned from the third check on, blocked at the fifth; polls are warned from the ninth on with delays of 1, 16 and 30 seconds and blocked at the fifteenth |
| GuardRuns.SmallWindowNeverStops | src/agent/loop_guard.rs:124-172 | With a window of one and the default thresholds a repeated batch is allowed for ever |
| GuardRuns.RepeatedOutcomeVerdict | src/agent/loop_guard.rs:198-253 | The n-th recording of one repeated outcome, in closed form for every n |
| GuardRuns.RepeatedOutcomeIsStoppedIff | src/agent/loop_guard.rs:198-253 | Some verdict on a run of one repeated outcome stops the loop if and only if the guard is enabled and the window is 0 or the block threshold is at most window + 1 |
| GuardRuns.SmallWindowNeverBlocksOutcomes | src/agent/loop_guard.rs:210-249 | With a window of one and the default thresholds a repeated outcome is never blocked |
| GuardRuns.DefaultOutcomeSchedule | src/agent/loop_guard.rs:612-640 | With the default settings the second equal outcome is warned about and the third is blocked |
| GuardAlternation.AlternatingVerdict | src/agent/loop_guard.rs:114-192 | The n-th check of two alternating batches, in closed form for every n |
| GuardAlternation.AlternationIsStoppedIff | src/agent/loop_guard.rs:114-192 | Some verdict on a run of two alternating batches stops the loop if and only if the guard is enabled and the window is 0, or holds enough repeats for the oscillation test, or the warning threshold is at most the peak of their counts |
| GuardAlternation.AlternationIsReportedIff | src/agent/loop_guard.rs:292-346 | In a window that reaches that far, check n reports period 2 if and only if 2 * repeats checks have been made |
| GuardAlternation.SmallWindowMissesAlternation | src/agent/loop_guard.rs:114-192 | With a window of two and the default settings two alternating batches are allowed for ever |
| GuardRotation.RotatingVerdict | src/agent/loop_guard.rs:114-192 | The n-th check of three batches that take turns, in closed form for every n |
| GuardRotation.RotationIsReportedIff | src/agent/loop_guard.rs:292-346 | In a window that reaches that far, check n reports period 3 if and only if 3 * repeats checks have been made |
| GuardRotation.WheelIsReported | src/agent/loop_guard.rs:292-346 | One repeat mistakes any two different batches for an oscillation; otherwise a rotation has period 3, once three times the repeats are in the window |
| GuardRotation.RotationIsStoppedIff | src/agent/loop_guard.rs:114-192 | Some verdict on such a run stops the loop if and only if the guard is enabled and the window is 0, or holds enough for the oscillation test, or the warning threshold is at most the peak of their counts |
| TokenEstimates.AppendingNeverLowersEstimate | src/agent/context_monitor.rs:151-200 | Appending messages never lowers the estimate |
| TokenEstimates.AppendingNeverRelaxes | src/agent/context_monitor.rs:236-273 | For ordered thresholds appending never lowers urgency and never raises keep_recent |
| TokenEstimates.NeedsCompactionIffUrgent | src/agent/context_monitor.rs:230-248 | The two tests agree except for a zero limit with an empty estimate |
| TokenEstimates.RepeatedTextIsCountedOnce | src/agent/context_monitor.rs:157-200 | For every message whose parts hold its content, in one piece or several, the text is counted once, besides the images |
| TokenEstimates.MessageWeighs | src/agent/context_monitor.rs:157-200 | The weight of such a message: two bytes a token for tool text and call arguments, four for other text and names, 2000 tokens an image, four tokens of framing |
| TokenEstimates.DefinitionsWeigh | src/agent/context_monitor.rs:205-223 | Tool definitions weigh four bytes a token for names and descriptions and two for schemas |
| TokenEstimates.UrgencyByThresholds | src/agent/context_monitor.rs:236-255 | Each urgency holds if and only if the estimate lies between the shares of the limit that the thresholds name |
| TokenEstimates.StrategyByThresholds | src/agent/context_monitor.rs:257-273 | The strategy for each urgency, with 85% of the limit dividing the normal one |
| Compaction.TruncationsComposeIff | src/agent/compaction.rs:46-83 | Truncating to a and then to b is truncating to min(a, b), for all a and b, if and only if the first message is System or no message is |
| Compaction.TruncationNeverRaisesEstimate | src/agent/compaction.rs:46-83 | Truncation never raises the token estimate, for any history |
| Compaction.TruncationKeepsPairingIff | src/agent/compaction.rs:46-83 | A paired history stays paired if and only if the cut is not in front of a tool result |
| Compaction.KeepingOneBreaksPairing | src/agent/compaction.rs:78-82 | A paired history that truncation breaks |
| Compaction.SummaryIsTruncationPlusOne | src/agent/compaction.rs:116-166 | A summary is the truncation with images stripped and one message inserted behind the System prefix |
| Compaction.StripImagesFromMessages | src/agent/compaction.rs:454-461 | No image is left and nothing but image parts is removed |
| Compaction.StrippingKeepsText | src/agent/compaction.rs:454-461 | Every message keeps all its text and everything else but its images |
| Compaction.ShrinkToolResultsProgressive | src/agent/compaction.rs:254-303 | The newest results get the full budget and older ones a quarter; the loop completes if and only if every cut is at a character boundary |
| Compaction.ShrinkReducesIff | src/agent/compaction.rs:273-303 | A shrunk result is shorter if and only if the excess is more than the 28 bytes and two numbers of the note |
| Compaction.OneByteOverGrows | src/agent/compaction.rs:283-293 | A result that shrinking makes 35 bytes longer |
| Compaction.ShrinkingKeepsValidText | src/agent/compaction.rs:273-303 | Shrunk text is valid UTF-8 |
| RecoveryLadder.TryRecoverContextWithUrgency | src/agent/compaction.rs:350-410 | The ladder computes `Recover`, tier by tier |
| RecoveryLadder.RecoveryFits | src/agent/compaction.rs:350-410 | Tiers 0, 1 and 2 end within 0.95 of the limit; tier 3 leaves at most 3 messages, 6 when critical, and a System prefix |
| RecoveryLaws.RecoveryLeaves | src/agent/compaction.rs:350-410 | What any recovery leaves: all of it if it fits, exactly the last six messages when critical, otherwise what fits from the last messages it may keep, or the last three, each time behind the System message in front |
| RecoveryLaws.RecoveryTakesTheFirstThatFits | src/agent/compaction.rs:374-410 | Truncation alone if that fits, then the shrunk texts, with the full budget for the last three results (half of it for the last two in an emergency), and the third tier only if neither fits |
| RecoveryLaws.ShrinkingObeysBudgets | src/agent/compaction.rs:254-303 | The newest results are cut to the budget and older ones to a quarter; what was kept stands in front of the note, and nothing else changes |
| RecoveryLaws.WhatIsLeftIsSmall | src/agent/loop.rs:2571-2593 | After an urgent compaction the session is within 95% of the limit or has at most three messages (six when critical) and a System message |
| RecoveryLadder.RecoveryOnlyCuts | src/agent/compaction.rs:350-410 | The result is a suffix of the input, optionally behind one of its System messages, with only tool texts altered |
| RecoveryLadder.RecoveryAbortsIff | src/agent/compaction.rs:350-410 | Recovery aborts if and only if the context is too full before and after truncation and some kept tool result is over its budget and has no character boundary there |
| RunAborts.LongQuestionAborts | src/agent/loop.rs:1933-2007 | With default settings, no request gets ready on a long question behind one full result of three-byte characters, a paired session of valid UTF-8 that compaction leaves alone |
| RunAborts.RunOnLongQuestion | src/agent/loop.rs:1852-2007 | The run on that question aborts, whatever the provider and the tools do |
| RunAborts.AsciiRunNeverAborts | src/agent/loop.rs:1933-2858 | A run on ASCII tool messages whose tools answer in ASCII may fail, but not by aborting, in any configuration |
| RunAborts.ServeAscii | src/agent/loop.rs:1852-2879 | No run in any sequence of such runs aborts, and the store keeps its tool messages ASCII |
| PairedRuns.CleanRunSavesPaired | src/agent/loop.rs:1933-2879 | With any monitor, a run none of whose recoveries cuts in front of a tool result saves a transcript in which every call is answered at once |
| RecoveryLadder.AsciiNeverAborts | src/agent/compaction.rs:350-410 | A history whose tool messages are ASCII never aborts recovery |
| RecoveryPairing.RecoveryKeepsPairingIff | src/agent/compaction.rs:350-410 | The recovery of a paired history is paired if and only if the first message it keeps behind the System message is not a tool result; where that is follows from the tests made on the way |
| RecoveryPairing.SixMessagesBreakPairing | src/agent/compaction.rs:369-373 | With the default limit, a paired history that a critical recovery breaks |
| RecoveryPairing.RecoveredSelection | src/agent/compaction.rs:350-410 | Which messages each tier keeps, the double cut of tier 3 included |
| RecoveryLadder.MonitorEntersTiersIff | src/agent/loop.rs:1933-1959 | With the monitor's own urgency the tiers are entered if and only if the estimate lies between 95% of the limit and the critical threshold; anywhere else there is nothing to do or six messages are kept |
| RecoveryLadder.MonitorUrgencySkipsMiddleTiers | src/agent/loop.rs:1933-1959 | With the monitor's own urgency and a critical threshold of at most 0.95 the tier is 0, or 3 with six messages kept |
| RecoveryLadder.TwelveMessagesEndInFirstTier | src/agent/compaction.rs:374-380 | A monitor with a critical threshold of 1.0 and a history that ends in the first tier |
| Abridgements.AbridgesMeaning | src/agent/compaction.rs:350-410 | An abridgement has a strictly increasing place in the original for each of its messages, which differs from it at most in tool text |
| Abridgements.AbridgesCompose | src/agent/loop.rs:1933-2007 | Abridging an abridgement abridges the original, so stages can be chained |
| Abridgements.RecoveryAbridges | src/agent/compaction.rs:350-410 | Every recovery is an abridgement |
| Abridgements.SyncAbridges | src/agent/loop.rs:1099-1120 | So is every write-back |
| Preflight.CapOversized | src/agent/context_monitor.rs:291-311 | Exactly the oversized tool results are capped, with structured parts in step |
| Preflight.HeadAndTailAreDisjoint | src/agent/context_monitor.rs:293-303 | Head, dropped bytes and tail make up the text, and the note reports exactly the dropped number |
| Preflight.CappingKeepsValidText | src/agent/context_monitor.rs:293-303 | Capped text is valid UTF-8 |
| Preflight.CappedShares | src/agent/context_monitor.rs:293-303 | A capped text keeps seven tenths of the cap from the front and three tenths from the end, up to three bytes less each, around a note with the number of bytes between |
| Preflight.CapIsTwoBytesPerToken | src/agent/context_monitor.rs:285-288 | The cap is two bytes for each token of a result's share: 180000 bytes with the default settings |
| Preflight.DefaultLimits | src/agent/context_monitor.rs:225-228 | With the default settings both limits are 135000 tokens |
| Preflight.TrimmedShape | src/agent/context_monitor.rs:279-341 | What is sent of each message: up to a cutoff tool texts are the marker, behind it they are capped or unchanged; the cutoff is 0 if capping is enough, and if the result does not fit no tool text is left |
| Preflight.CompactUntilFits | src/agent/context_monitor.rs:313-341 | Pass 2 replaces a shortest oldest-first prefix of the remaining results: every shorter one leaves the estimate over budget, and this one fits or is all of them |
| Preflight.ShortestFittingPrefixIsUnique | src/agent/context_monitor.rs:313-341 | There is only one such prefix |
| Preflight.PreflightCheck | src/agent/context_monitor.rs:279-357 | NeedsCompaction if and only if the full estimate exceeds min(budget, emergency limit); otherwise Trimmed if and only if something was capped or replaced |
| Preflight.PreflightOnlyRewritesToolText | src/agent/context_monitor.rs:285-341 | Roles, order, calls, ids and all messages but tool messages are unchanged |
| ResultSync.SyncTrimmedToolResults | src/agent/loop.rs:1099-1120 | The in-place loops compute `Synced` |
| ResultSync.SyncExact | src/agent/loop.rs:1099-1120 | For each id the last session tool message ends with the content of the last resolved one with that id; everything else is unchanged |
| ResultSync.DistinctIdsSync | src/agent/loop.rs:1099-1120 | With distinct ids every matched tool message ends with its counterpart's content |
| ResultSync.SyncKeepsPartsInStep | src/agent/loop.rs:1099-1120 | Structured parts stay in step with the text of tool messages |
| ResultSync.PreflightThenSync | src/agent/loop.rs:1977-1985 | Building the request, trimming it and syncing back gives each session tool message the content its trimmed counterpart is sent with |
| Utf8.SafeTruncate | src/agent/context_monitor.rs:361-370 | The index loop finds the cut of `Truncated` |
| Utf8.TruncationKeepsLongestPrefix | src/agent/context_monitor.rs:361-370 | The longest valid prefix within the budget, at most 3 bytes short of it |
| Utf8.SafeTruncateTail | src/agent/context_monitor.rs:373-382 | The index loop finds the cut of `TruncatedTail` |
| Utf8.TruncationKeepsLongestSuffix | src/agent/context_monitor.rs:373-382 | The longest valid suffix within the budget, at most 3 bytes short of it |
| Utf8.ValidPrefixIffBoundary | src/agent/loop_guard.rs:393-402 | A prefix of valid text is valid if and only if it ends at a character boundary |
| MessageQueue.NothingLostOrDuplicated | src/agent/loop.rs:4058-4097 | After any interleaving of any number of workers, in both modes: accepted inputs = processed + on the bus + pending + in the workers' hands, as multisets; their order is the subject of QueueOrder |
| MessageQueue.OneHolderPerSession | src/agent/loop.rs:4015-4021 | No two workers ever process one session at the same time |
| MessageQueue.StrandsIff | src/agent/loop.rs:4390-4410 | A step leaves queued messages without a worker to drain them if and only if it queues one where no such worker is left |
| MessageQueue.AttendedRunsDrain | src/agent/loop.rs:4058-4097 | Without such a step nothing is still queued when the runtime comes to rest |
| MessageQueue.LatePushStrandsMessage | src/agent/loop.rs:4390-4410 | For any two or more workers, a concrete interleaving leaves everything idle with one message queued |
| MessageQueue.StrandsSomewhereIff | src/agent/loop.rs:4390-4410 | Some run comes to rest with a message queued if and only if there are at least two workers |
| MessageQueue.SingleConsumerNeverQueues | src/agent/loop.rs:4443-4533 | The runtime's single consumer never finds a session busy and never queues |
| QueueOrder.QueueIsFifo | src/agent/loop.rs:4390-4410 | In Followup mode, for every session and interleaving: the batches taken so far, joined, and what is pending are the messages queued, in the order they were queued |
| QueueOrder.InputsAreFifo | src/agent/loop.rs:4058-4097 | The same in both modes for the inputs that the messages carry |
| QueueOrder.PublishingKeepsOrder | src/agent/loop.rs:4066-4097 | Each worker publishes what it has drained in the order of the batch; a collected batch carries its inputs in that order |
| QueueOrder.BusIsFifo | src/agent/loop.rs:4443-4533 | Messages are consumed in the order in which they arrived or were published |
| QueueProgress.CanAlwaysFinish | src/agent/loop.rs:4058-4097 | From every reachable state in which whatever is queued, or about to be, has a worker to drain it, the workers can come to rest without a timeout, with every accepted input processed |
| A2uiScanner.ExtractA2uiMessages | src/agent/loop.rs:694-733 | The scan keeps exactly the text of all segments but the blocks that parse, and returns the messages of those, in order |
| A2uiScanner.SegmentsCoverContent | src/agent/loop.rs:699-733 | The segments joined are the content |
| A2uiScanner.BytesAreConserved | src/agent/loop.rs:699-733 | Bytes kept plus bytes removed are the bytes of the response |
| A2uiScanner.SegmentsAreWellCut | src/agent/loop.rs:699-733 | Plain text holds no opening fence; a block is a header up to and including its first newline, then its body, then the first closing fence behind the header; an unclosed block has none |
| A2uiScanner.SegmentsIff | src/agent/loop.rs:699-733 | A list of segments is the scanner's if and only if it has that shape, its segments are well cut and they join to the content: there is no other way to cut |
| A2uiScanner.OneBlockResponse | src/agent/loop.rs:699-733 | A response with one block keeps the text around it; the block goes, and its messages are returned, if and only if it parses |
| A2uiScanner.UnclosedResponse | src/agent/loop.rs:699-733 | A response with an unclosed block is kept as it is, without messages |
| A2uiScanner.ResponsesJoin | src/agent/loop.rs:699-733 | For any number of blocks text and messages follow the order of the segments |
| Facade.ZeptoAgent.ChatWithCallback | src/agent/facade.rs:129-271 | Each turn answers the system prompt and the history before it; the new history is the old one, the user message, the turns and the ending; from a paired history only a cancellation during a tool run leaves an unpaired one, which is a paired one with one dangling message |
| Facade.HistoryLayout | src/agent/facade.rs:129-271 | What a chat leaves in the history, position by position |
| Facade.RepairIsIdentityOnPaired | src/agent/facade.rs:286-300 | Repair changes nothing in a paired history |
| Facade.RepairRemovesDangling | src/agent/facade.rs:286-300 | Repair after a cancellation removes exactly the dangling message |
| Facade.LateRepairFails | src/agent/facade.rs:286-300 | Once another user message has followed, repair no longer restores pairing |
| Facade.RepairRestoresIff | src/agent/facade.rs:286-300 | Repair restores a history with one dangling call if and only if nothing has followed the call |
| Facade.HistoryIsPairedIff | src/agent/facade.rs:123-300 | For every script of chats, repairs and clears: every call is answered in the end if and only if each chat that was cut short was followed by a clear, or by a repair before the next chat |
| Facade.Host | src/agent/facade.rs:123-300 | A host that runs any script goes through the specified histories and ends with the condition above |
| Facade.CarefulHost | src/agent/facade.rs:123-300 | Under any sequence of chats, errors, clears and cancellations each followed by a repair, every tool call in the history is answered at once |

## Left out

- AgentLoops.AgentLoop.ProcessMessage: with the context monitor on, pairing of the saved transcript is stated only for runs whose recoveries cut cleanly, because truncation cuts by position.
- AgentLoops.AgentLoop.ProcessMessage: the tool-call limit and the token budget are fields shared by concurrent runs and reset by each of them, so the caps are stated for one run at a time.
- AgentLoops.AgentLoop.Prepare: of the memory flush only whether it calls the provider is modelled; its reply, its timeout and the memory tools it runs are not, and the tokens it costs are not counted, as in the source.
- GuardAlternation.AlternationIsStoppedIff: the two batches are both polls or both not.
- GuardRotation.RotationIsStoppedIff: the three batches are all polls or all not.
- GuardRuns.StatisticsAgree: once the breaker trips, the code counts a tripping oscillation also as a warning and a tripping outcome also as a block; those later numbers are not stated.
- MessageQueue.AttendedRunsDrain: the queue is modelled on values as interleaved steps; the busy check is one step, messages rejected by the pairing check, runs started outside the queue, bus closure and shutdown are not part of it, and a run that ends in an error or a timeout counts as processed.
- TokenEstimates.AppendingNeverLowersEstimate: `f64` is modelled by `real`, so rounding is not captured; only the not-a-number and infinite ratios at a limit of zero are.
- AuditChain.AuditHashChain.Record: SHA-256 with hex encoding and `sanitize_text` are arbitrary functions and timestamps are inputs; the mutex and its poisoning are not modelled.
- LoopGuards.LoopGuard.Check: batches are opaque hashes with a poll flag, so argument normalisation and poll detection are not modelled, and `u32` overflow of counters and thresholds is not either.
- A2uiScanner.ExtractA2uiMessages: the final trim, the mermaid chart fallback and JSON parsing are not modelled; the parser is an arbitrary function.
- Facade.ZeptoAgent.ChatWithCallback: step callbacks, approvals and tool timeouts only show as the text of a tool result.
- The streaming variant of the run, which repeats the same loop with channel plumbing.
- Hooks, approvals, safety scanning, dry runs and parallel execution of tools: any tool outcome is possible for each call, and results are taken in call order, as the runtime collects them.
- The response cache is an optional cached answer; its key and eviction are not modelled.
- Loading sessions from disk, and its repair step; a session starts from the stored transcript.
- The simple `shrink_tool_results` and `try_recover_context` variants, and `build_summary_prompt`.
- User interface events, usage metrics, tracing and prompt text.
