/**
 * One run of the agent on one inbound message: provider calls with bounded retries, tool rounds,
 * the limits, the loop guard, and the transcript that is saved. The provider, the tools and the
 * rest of the outside world are an arbitrary `World`.
 */
module ToolLoop {
  import opened Bytes
  import opened Messages
  import opened Transcripts
  import opened TokenEstimates
  import opened Preflight
  import opened ResultSync
  import opened RecoveryLadder
  import opened LoopGuards
  import opened Limits
  import opened Periodicity

  datatype ProviderError = ContextOverflow | OtherFailure

  datatype Usage = Usage(promptTokens: nat, completionTokens: nat)

  datatype Reply = Reply(content: Text, toolCalls: seq<ToolCall>, usage: Option<Usage>)

  datatype ToolOutcome = ToolOutcome(result: Text, pause: bool)

  datatype World = World(
    chat: (nat, seq<Message>, seq<ToolDefinition>) -> Result<Reply, ProviderError>,
     // the n-th provider call of the run
    runTool: (nat, nat) -> ToolOutcome,      // the j-th call of the i-th round
    definitions: nat -> seq<ToolDefinition>, // the tools on offer at the n-th provider call
    inline: seq<ContentPart> -> seq<ContentPart>,
    hashBatch: seq<ToolCall> -> Hash,
    looksLikePoll: seq<ToolCall> -> bool,
    outcomeHash: (Text, Text, Text) -> Hash,
    describe: GuardAction -> Text,
    system: Message,
    remembers: bool,                         // a default provider and the long-term memory tool are there
    injectionBlocked: bool,
    providerConfigured: bool,
    loadFails: bool,
    saveFails: bool,
    cached: Option<Text>)

  datatype RunError =
    | InjectionBlocked | NoProvider | LoadFailed | BudgetExceeded | SaveFailed
    | ProviderFailed(error: ProviderError)
    | Aborted  // a tool result was cut inside a character

  datatype AgentConfig = AgentConfig(
    maxIterations: nat, overflowRetries: nat, toolResultCap: nat, monitor: Option<Monitor>, guard: GuardConfig)

  // ---- What a run leaves behind ----

  /** One round of the tool loop: what the provider asked for, what was executed, and what the guard noted. */
  datatype Round = Round(
    draft: Text, requested: seq<ToolCall>, executed: seq<ToolCall>, results: seq<Text>, notes: seq<Text>)

  function ResultMessages(calls: seq<ToolCall>, results: seq<Text>): seq<Message>
    requires |calls| == |results|
  {
    seq(|calls|, j requires 0 <= j < |calls| => ToolResult(calls[j].id, results[j]))
  }

  function NoteMessages(notes: seq<Text>): seq<Message> {
    seq(|notes|, j requires 0 <= j < |notes| => SystemMessage(notes[j]))
  }

  predicate WellFormed(r: Round) { 0 < |r.executed| == |r.results| && r.executed <= r.requested }

  predicate AllWellFormed(rounds: seq<Round>) { forall i :: 0 <= i < |rounds| ==> WellFormed(rounds[i]) }

  function RoundMessages(r: Round): seq<Message>
    requires WellFormed(r)
  {
    [AssistantWithTools(r.draft, r.executed)] + ResultMessages(r.executed, r.results) + NoteMessages(r.notes)
  }

  lemma QuietRoundMessages(r: Round)
    requires WellFormed(r) && r.notes == []
    ensures RoundMessages(r) == [AssistantWithTools(r.draft, r.executed)] + ResultMessages(r.executed, r.results)
  {
  }

  /** The calls, then one result for each with its id, then the notes. */
  lemma RoundLayout(r: Round)
    requires WellFormed(r)
    ensures var ms, n := RoundMessages(r), |r.executed|;
      && |ms| == 1 + n + |r.notes|
      && ms[0].role == Assistant && ms[0].content == r.draft && ms[0].toolCalls == Some(r.executed)
      && (forall j :: 0 <= j < n ==>
            && ms[1 + j].role == Tool && ms[1 + j].toolCallId == Some(r.executed[j].id)
            && ms[1 + j].content == r.results[j])
      && forall j :: 0 <= j < |r.notes| ==> ms[1 + n + j].role == System && ms[1 + n + j].content == r.notes[j]
  {
    var ms, n := RoundMessages(r), |r.executed|;
    forall j | 0 <= j < n ensures ms[1 + j] == ToolResult(r.executed[j].id, r.results[j]) {}
    forall j | 0 <= j < |r.notes| ensures ms[1 + n + j] == SystemMessage(r.notes[j]) {}
  }

  lemma NotedRoundMessages(r: Round, notes: seq<Text>)
    requires WellFormed(r) && r.notes == []
    ensures RoundMessages(r.(notes := notes)) == RoundMessages(r) + NoteMessages(notes)
  {
  }

  /** The messages of the first n rounds. */
  function Transcript(rounds: seq<Round>, n: nat): seq<Message>
    requires n <= |rounds| && AllWellFormed(rounds)
  {
    if n == 0 then [] else Transcript(rounds, n - 1) + RoundMessages(rounds[n - 1])
  }

  function Executed(rounds: seq<Round>): nat {
    if rounds == [] then 0 else Executed(rounds[..|rounds| - 1]) + |rounds[|rounds| - 1].executed|
  }

  lemma NothingExecuted()
    ensures Executed([]) == 0
  {
  }

  datatype RunTrace = RunTrace(
    rounds: seq<Round>,
    iterations: nat,
    providerCalls: nat,
    answered: seq<Option<Usage>>)  // what each answered provider call reports to have used

  /** Why the tool loop ended. */
  datatype Exit =
    | Answered | IterationsExhausted | LimitAlreadyReached | Paused | Synthesized | LimitAndBudgetSpent
    | GuardStopped | OutcomesRepeated | BudgetSpent

  const REPEATED_PATTERN: Text := Ascii("Stopped tool loop due to repeated tool-call pattern.")
  const REPEATED_OUTCOMES: Text := Ascii("Stopped tool loop due to repeated identical outcomes.")
  const BUDGET_EXCEEDED: Text := Ascii("Tool call limit reached. Token budget exceeded.")

  function ExitContent(exit: Exit, reply: Reply): Text {
    match exit
    case GuardStopped => REPEATED_PATTERN
    case OutcomesRepeated => REPEATED_OUTCOMES
    case LimitAndBudgetSpent => BUDGET_EXCEEDED
    case _ => reply.content
  }

  lemma ExitIsExplained(exit: Exit, reply: Reply)
    ensures SaysWhatHappened(exit, reply, ExitContent(exit, reply))
  {
  }

  /** The reply, but for the three exits that answer with a notice. */
  predicate SaysWhatHappened(exit: Exit, reply: Reply, text: Text) {
    && (exit == GuardStopped ==> text == REPEATED_PATTERN)
    && (exit == OutcomesRepeated ==> text == REPEATED_OUTCOMES)
    && (exit == LimitAndBudgetSpent ==> text == BUDGET_EXCEEDED)
    && (exit != GuardStopped && exit != OutcomesRepeated && exit != LimitAndBudgetSpent ==> text == reply.content)
  }

  function PromptTokens(answered: seq<Option<Usage>>): nat {
    if answered == [] then 0
    else
      var n := |answered| - 1;
      PromptTokens(answered[..n]) + if answered[n].Some? then answered[n].value.promptTokens else 0
  }

  function CompletionTokens(answered: seq<Option<Usage>>): nat {
    if answered == [] then 0
    else
      var n := |answered| - 1;
      CompletionTokens(answered[..n]) + if answered[n].Some? then answered[n].value.completionTokens else 0
  }

  lemma TokensAddUp(answered: seq<Option<Usage>>, usage: Option<Usage>)
    ensures PromptTokens([]) == 0 && CompletionTokens([]) == 0
    ensures PromptTokens(answered + [usage])
      == PromptTokens(answered) + if usage.Some? then usage.value.promptTokens else 0
    ensures CompletionTokens(answered + [usage])
      == CompletionTokens(answered) + if usage.Some? then usage.value.completionTokens else 0
  {
    assert (answered + [usage])[..|answered|] == answered;
  }

  /** These are the tokens of all answered calls, and none of the calls was made with the budget used up. */
  predicate Accounts(limit: nat, inputUsed: nat, outputUsed: nat, answered: seq<Option<Usage>>) {
    && inputUsed == PromptTokens(answered) && outputUsed == CompletionTokens(answered)
    && (limit > 0 && answered != [] ==>
          var before := answered[..|answered| - 1];
          PromptTokens(before) + CompletionTokens(before) < limit)
  }

  lemma NothingAccounted(world: World, limit: nat, calls: nat)
    ensures Accounts(limit, 0, 0, []) && AllReported(world, [], calls)
  {
  }

  lemma OneMoreAccounted(limit: nat, inputUsed: nat, outputUsed: nat, answered: seq<Option<Usage>>,
                         usage: Option<Usage>)
    requires Accounts(limit, inputUsed, outputUsed, answered) && (limit > 0 ==> inputUsed + outputUsed < limit)
    ensures Accounts(limit, inputUsed + if usage.Some? then usage.value.promptTokens else 0,
                     outputUsed + if usage.Some? then usage.value.completionTokens else 0, answered + [usage])
  {
    TokensAddUp(answered, usage);
    assert (answered + [usage])[..|answered|] == answered;
  }

  /** One of the first n provider calls reported this usage. */
  ghost predicate ReportedBy(world: World, usage: Option<Usage>, calls: nat) {
    exists n: nat, offerTools, reply ::
      n < calls && ProviderAnswered(world, n, offerTools, reply) && usage == reply.usage
  }

  ghost predicate AllReported(world: World, answered: seq<Option<Usage>>, calls: nat) {
    forall i :: 0 <= i < |answered| ==> ReportedBy(world, answered[i], calls)
  }

  lemma MoreCalls(world: World, answered: seq<Option<Usage>>, calls: nat, more: nat)
    requires AllReported(world, answered, calls) && calls <= more
    ensures AllReported(world, answered, more)
  {
    forall i | 0 <= i < |answered| ensures ReportedBy(world, answered[i], more) {
      assert ReportedBy(world, answered[i], calls);
    }
  }

  lemma OneMoreReported(world: World, answered: seq<Option<Usage>>, calls: nat, offerTools: bool, reply: Reply)
    requires calls > 0 && AllReported(world, answered, calls) && ProviderAnswered(world, calls - 1, offerTools, reply)
    ensures AllReported(world, answered + [reply.usage], calls)
  {
    assert ReportedBy(world, reply.usage, calls);
  }

  predicate Pauses(world: World, round: nat, j: nat) { world.runTool(round, j).pause }

  /** One of the first n calls of a round asks for the user's input. */
  ghost predicate SomePause(world: World, round: nat, n: nat) { exists j: nat :: j < n && Pauses(world, round, j) }

  /** The final synthesis call offers no tools. */
  function Offered(world: World, n: nat, offerTools: bool): seq<ToolDefinition> {
    if offerTools then world.definitions(n) else []
  }

  /** The n-th provider call, whatever it was sent, returned this reply. */
  ghost predicate ProviderAnswered(world: World, n: nat, offerTools: bool, reply: Reply) {
    exists sent :: world.chat(n, sent, Offered(world, n, offerTools)) == Ok(reply)
  }

  /** And failed with this error. */
  ghost predicate ProviderFailedWith(world: World, n: nat, offerTools: bool, error: ProviderError) {
    exists sent :: world.chat(n, sent, Offered(world, n, offerTools)) == Err(error)
  }

  /** Every round's results are what the tools returned, call by call. */
  ghost predicate RanTools(world: World, rounds: seq<Round>) {
    forall i, j :: 0 <= i < |rounds| && 0 <= j < |rounds[i].results| ==>
      rounds[i].results[j] == world.runTool(i, j).result
  }

  /** Each round answers the provider's reply to exactly the conversation before it. */
  ghost predicate Converses(world: World, opening: seq<Message>, rounds: seq<Round>)
    requires AllWellFormed(rounds)
  {
    forall i :: 0 <= i < |rounds| ==> RepliesTo(world, opening, rounds, i)
  }

  ghost predicate RepliesTo(world: World, opening: seq<Message>, rounds: seq<Round>, i: nat)
    requires i < |rounds| && AllWellFormed(rounds)
  {
    var sent := BuildResolvedMessages(world.system, opening + Transcript(rounds, i), world.inline);
    var reply := world.chat(i, sent, Offered(world, i, true));
    reply.Ok? && reply.value.content == rounds[i].draft && reply.value.toolCalls == rounds[i].requested
  }

  /** The round executed all that was requested, and no call asked for the user's input. */
  ghost predicate Uninterrupted(world: World, rounds: seq<Round>, i: nat)
    requires i < |rounds|
  {
    rounds[i].executed == rounds[i].requested && !SomePause(world, i, |rounds[i].executed|)
  }

  ghost predicate AllUninterrupted(world: World, rounds: seq<Round>, n: nat)
    requires n <= |rounds|
  {
    forall i :: 0 <= i < n ==> Uninterrupted(world, rounds, i)
  }

  /** Only the last round of a run may be cut short by the limit or ask for input. */
  ghost predicate OnlyLastInterrupts(world: World, rounds: seq<Round>) {
    rounds != [] ==> AllUninterrupted(world, rounds, |rounds| - 1)
  }

  lemma EarlierRoundsStand(world: World, rounds: seq<Round>, r: Round)
    requires AllUninterrupted(world, rounds, |rounds|)
    ensures AllUninterrupted(world, rounds + [r], |rounds|) && OnlyLastInterrupts(world, rounds + [r])
  {
    forall i | 0 <= i < |rounds| ensures Uninterrupted(world, rounds + [r], i) {
      assert Uninterrupted(world, rounds, i);
    }
  }

  // ---- Pairing ----

  lemma {:induction false} NotesArePaired(notes: seq<Text>, n: nat)
    requires n <= |notes|
    ensures PairedFrom(NoteMessages(notes), n)
    decreases |notes| - n
  {
    if n < |notes| { NotesArePaired(notes, n + 1); }
  }

  lemma RoundIsPaired(r: Round)
    requires WellFormed(r)
    ensures Paired(RoundMessages(r))
  {
    BlockIsPaired(AssistantWithTools(r.draft, r.executed), ResultMessages(r.executed, r.results));
    NotesArePaired(r.notes, 0);
    AppendPaired([AssistantWithTools(r.draft, r.executed)] + ResultMessages(r.executed, r.results),
      NoteMessages(r.notes));
  }

  lemma {:induction false} TranscriptIsPaired(rounds: seq<Round>, n: nat)
    requires n <= |rounds| && AllWellFormed(rounds)
    ensures Paired(Transcript(rounds, n))
  {
    if n > 0 {
      TranscriptIsPaired(rounds, n - 1);
      RoundIsPaired(rounds[n - 1]);
      AppendPaired(Transcript(rounds, n - 1), RoundMessages(rounds[n - 1]));
    }
  }

  function SavedTranscript(before: seq<Message>, user: Message, rounds: seq<Round>, content: Text): seq<Message>
    requires AllWellFormed(rounds)
  {
    before + [user] + Transcript(rounds, |rounds|) + [AssistantMessage(content)]
  }

  /** Whatever the rounds were, what a run appends to a paired transcript leaves it paired. */
  lemma SavedTranscriptIsPaired(before: seq<Message>, user: Message, rounds: seq<Round>, content: Text)
    requires Paired(before) && Plain(user) && AllWellFormed(rounds)
    ensures Paired(SavedTranscript(before, user, rounds, content))
  {
    AppendPlain(before, user);
    TranscriptIsPaired(rounds, |rounds|);
    AppendPaired(before + [user], Transcript(rounds, |rounds|));
    AppendPlain(before + [user] + Transcript(rounds, |rounds|), AssistantMessage(content));
  }

  lemma {:induction false} TranscriptExtends(rounds: seq<Round>, r: Round, n: nat)
    requires n <= |rounds| && AllWellFormed(rounds) && WellFormed(r)
    ensures AllWellFormed(rounds + [r])
    ensures Transcript(rounds + [r], n) == Transcript(rounds, n)
  {
    hide RoundMessages;
    if n > 0 { TranscriptExtends(rounds, r, n - 1); }
  }

  /** Appending a round to the trace appends its messages and its executed calls. */
  lemma RoundAppended(rounds: seq<Round>, r: Round)
    requires AllWellFormed(rounds) && WellFormed(r)
    ensures AllWellFormed(rounds + [r])
    ensures Transcript(rounds + [r], |rounds| + 1) == Transcript(rounds, |rounds|) + RoundMessages(r)
    ensures Executed(rounds + [r]) == Executed(rounds) + |r.executed|
  {
    hide RoundMessages;
    TranscriptExtends(rounds, r, |rounds|);
    ExecutedAppended(rounds, r);
  }

  lemma ExecutedAppended(rounds: seq<Round>, r: Round)
    ensures Executed(rounds + [r]) == Executed(rounds) + |r.executed|
  {
  }

  lemma StillConverses(world: World, opening: seq<Message>, rounds: seq<Round>, r: Round)
    requires AllWellFormed(rounds) && WellFormed(r) && Converses(world, opening, rounds)
    requires AllWellFormed(rounds + [r]) && RepliesTo(world, opening, rounds + [r], |rounds|)
    ensures Converses(world, opening, rounds + [r])
  {
    forall i | 0 <= i < |rounds|
      ensures RepliesTo(world, opening, rounds + [r], i)
    {
      assert RepliesTo(world, opening, rounds, i);
      TranscriptExtends(rounds, r, i);
    }
  }
}
