/**
 * The embedding facade: a persistent conversation history, a chat loop that can be dropped at any
 * await point, and the repair that follows a cancellation.
 */
module Facade {
  import opened Bytes
  import opened Messages
  import opened Transcripts

  datatype Reply = Reply(content: Text, toolCalls: seq<ToolCall>)

  /** What becomes of an awaited operation: it answers, it fails, or the whole chat is dropped while it runs. */
  datatype Fate<T> = Answers(value: T) | Fails | Dropped

  // The i-th provider call of a chat, and the tool run of the i-th iteration. A tool always yields
  // some text: its errors, panics, timeouts and denials are reported as text too.
  datatype ChatWorld = ChatWorld(provider: (nat, seq<Message>) -> Fate<Reply>, tool: nat -> Option<Text>)

  datatype ChatResult = Said(text: Text) | ProviderError | Cancelled(duringTool: bool)

  /** One tool iteration: the draft, the first call of the reply, and its result. */
  datatype Turn = Turn(draft: Text, call: ToolCall, result: Text)

  function TurnMessages(t: Turn): seq<Message> {
    [AssistantWithTools(t.draft, [t.call]), ToolResult(t.call.id, t.result)]
  }

  function TurnsMessages(turns: seq<Turn>, n: nat): seq<Message>
    requires n <= |turns|
  {
    if n == 0 then [] else TurnsMessages(turns, n - 1) + TurnMessages(turns[n - 1])
  }

  const CAP_MESSAGE: Text := Ascii("I've completed the requested actions.")

  // ---- Pairing ----

  /** A dangling call: asked for, and not answered. */
  predicate Dangling(m: Message) { m.role == Assistant && m.HasToolCalls() }

  lemma TurnIsPaired(t: Turn)
    ensures Paired(TurnMessages(t))
  {
  }

  lemma {:induction false} TurnsArePaired(turns: seq<Turn>, n: nat)
    requires n <= |turns|
    ensures Paired(TurnsMessages(turns, n))
  {
    if n > 0 {
      TurnsArePaired(turns, n - 1);
      TurnIsPaired(turns[n - 1]);
      AppendPaired(TurnsMessages(turns, n - 1), TurnMessages(turns[n - 1]));
    }
  }

  lemma {:induction false} TurnsExtend(turns: seq<Turn>, t: Turn, n: nat)
    requires n <= |turns|
    ensures TurnsMessages(turns + [t], n) == TurnsMessages(turns, n)
  {
    if n > 0 { TurnsExtend(turns, t, n - 1); }
  }

  lemma AnswerFollows(ms: seq<Message>, i: nat)
    requires Paired(ms) && i < |ms| && Dangling(ms[i])
    ensures i + 1 < |ms| && ms[i + 1].role == Tool
  {
    PairedMeaning(ms);
    var calls := ms[i].toolCalls.value;
    assert BlockAt(ms, i);
    assert AnswersCall(calls[0], ms[i + 1..i + 1 + |calls|][0]);
  }

  /** A dangling call at the end, or one followed by anything but a tool result, is never paired. */
  lemma DanglingIsUnpaired(ms: seq<Message>, i: nat)
    requires i < |ms| && Dangling(ms[i])
    requires i + 1 == |ms| || ms[i + 1].role != Tool
    ensures !Paired(ms)
  {
    if Paired(ms) { AnswerFollows(ms, i); }
  }

  // ---- Repair ----

  /** The history without the dangling messages at its end. */
  function Repaired(history: seq<Message>): seq<Message> {
    if history != [] && Dangling(history[|history| - 1]) then Repaired(history[..|history| - 1]) else history
  }

  lemma RepairIsIdentityOnPaired(history: seq<Message>)
    requires Paired(history)
    ensures Repaired(history) == history
  {
    if history != [] && Dangling(history[|history| - 1]) { DanglingIsUnpaired(history, |history| - 1); }
  }

  /** After a cancellation the repair takes away exactly the one dangling message. */
  lemma RepairRemovesDangling(history: seq<Message>, m: Message)
    requires Paired(history) && Dangling(m)
    ensures Repaired(history + [m]) == history
  {
    assert (history + [m])[..|history|] == history;
    RepairIsIdentityOnPaired(history);
  }

  lemma {:induction false} RepairStopsAt(history: seq<Message>, i: nat)
    requires i < |history| && !Dangling(history[i])
    ensures |Repaired(history)| > i && Repaired(history) <= history
  {
    if Dangling(history[|history| - 1]) { RepairStopsAt(history[..|history| - 1], i); }
  }

  /** Repairing after the next chat is too late: once a user message follows the dangling call, it cannot be removed. */
  lemma LateRepairFails(history: seq<Message>, m: Message, user: Message, more: seq<Message>)
    requires Dangling(m) && user.role == User
    ensures !Paired(Repaired(history + [m] + [user] + more))
  {
    var all := history + [m] + [user] + more;
    assert all[|history|] == m && all[|history| + 1] == user;
    RepairStopsAt(all, |history| + 1);
    DanglingIsUnpaired(Repaired(all), |history|);
  }

  /** Repairing restores a history with one dangling call exactly when nothing has followed it yet. */
  lemma RepairRestoresIff(history: seq<Message>, m: Message, rest: seq<Message>)
    requires Paired(history) && Dangling(m) && (rest != [] ==> rest[0].role == User)
    ensures Paired(Repaired(history + [m] + rest)) <==> rest == []
  {
    if rest == [] {
      assert history + [m] + rest == history + [m];
      RepairRemovesDangling(history, m);
    } else {
      assert history + [m] + rest == history + [m] + [rest[0]] + rest[1..];
      LateRepairFails(history, m, rest[0], rest[1..]);
    }
  }

  // ---- The agent ----

  /** The history a chat leaves behind. */
  function HistoryAfter(before: seq<Message>, userText: Text, turns: seq<Turn>, last: seq<Message>): seq<Message> {
    before + [UserMessage(userText)] + TurnsMessages(turns, |turns|) + last
  }

  lemma {:induction false} TurnsLayout(turns: seq<Turn>, n: nat, i: nat)
    requires i < n <= |turns|
    ensures |TurnsMessages(turns, n)| == 2 * n
    ensures var ask, answer := TurnsMessages(turns, n)[2 * i], TurnsMessages(turns, n)[2 * i + 1];
      && ask.role == Assistant && ask.content == turns[i].draft && ask.toolCalls == Some([turns[i].call])
      && answer.role == Tool && answer.content == turns[i].result && answer.toolCallId == Some(turns[i].call.id)
  {
    if n == 1 {
      assert TurnsMessages(turns, 0) == [];
    } else {
      TurnsLayout(turns, n - 1, if i < n - 1 then i else 0);
    }
  }

  /** What a chat leaves behind, by position: earlier history, the user's text, a call and its result per turn. */
  lemma HistoryLayout(before: seq<Message>, userText: Text, turns: seq<Turn>, last: seq<Message>, i: nat)
    requires i < |turns|
    ensures var h, at := HistoryAfter(before, userText, turns, last), |before| + 1 + 2 * i;
      && |h| == |before| + 1 + 2 * |turns| + |last|
      && before <= h && h[|before|].role == User && h[|before|].content == userText
      && h[at].role == Assistant && h[at].content == turns[i].draft && h[at].toolCalls == Some([turns[i].call])
      && h[at + 1].role == Tool && h[at + 1].content == turns[i].result
      && h[at + 1].toolCallId == Some(turns[i].call.id)
      && h[|h| - |last|..] == last
  {
    hide TurnsMessages;
    TurnsLayout(turns, |turns|, i);
    var h, at := HistoryAfter(before, userText, turns, last), |before| + 1 + 2 * i;
    assert h[at] == TurnsMessages(turns, |turns|)[2 * i] && h[at + 1] == TurnsMessages(turns, |turns|)[2 * i + 1];
  }

  /** The i-th turn answers the provider's reply to the system prompt and the history up to then. */
  ghost predicate TurnFollows(world: ChatWorld, system: Text, opening: seq<Message>, turns: seq<Turn>, i: nat)
    requires i < |turns|
  {
    var fate := world.provider(i, [SystemMessage(system)] + (opening + TurnsMessages(turns, i)));
    && fate.Answers? && fate.value.toolCalls != []
    && turns[i].draft == fate.value.content && turns[i].call == fate.value.toolCalls[0]
    && world.tool(i) == Some(turns[i].result)
  }

  /** What is pushed last, for each way a chat can end. */
  ghost predicate EndsWith(world: ChatWorld, system: Text, maxIterations: nat, opening: seq<Message>, turns: seq<Turn>,
                           r: ChatResult, last: seq<Message>)
  {
    var sent := [SystemMessage(system)] + (opening + TurnsMessages(turns, |turns|));
    var fate := world.provider(|turns|, sent);
    if |turns| == maxIterations then r == Said(CAP_MESSAGE) && last == [AssistantMessage(CAP_MESSAGE)]
    else
      match fate
      case Fails => r == ProviderError && last == []
      case Dropped => r == Cancelled(false) && last == []
      case Answers(reply) =>
        if reply.toolCalls == [] then r == Said(reply.content) && last == [AssistantMessage(reply.content)]
        else
          && world.tool(|turns|).None?
          && r == Cancelled(true) && last == [AssistantWithTools(reply.content, [reply.toolCalls[0]])]
  }

  class ZeptoAgent {
    const systemPrompt: Text
    const maxIterations: nat
    var history: seq<Message>

    constructor (systemPrompt: Text, maxIterations: nat, history: seq<Message>)
      ensures this.systemPrompt == systemPrompt && this.maxIterations == maxIterations && this.history == history
    {
      this.systemPrompt, this.maxIterations, this.history := systemPrompt, maxIterations, history;
    }

    method ChatWithCallback(world: ChatWorld, userText: Text)
      returns (r: ChatResult, ghost turns: seq<Turn>, ghost last: seq<Message>)
      modifies this
      ensures |turns| <= maxIterations
      ensures forall i :: 0 <= i < |turns| ==>
        TurnFollows(world, systemPrompt, old(history) + [UserMessage(userText)], turns, i)
      ensures EndsWith(world, systemPrompt, maxIterations, old(history) + [UserMessage(userText)], turns, r, last)
      ensures history == HistoryAfter(old(history), userText, turns, last)
      // From a paired history, only a cancellation during a tool run leaves an unpaired one.
      ensures Paired(old(history)) ==> (Paired(history) <==> r != Cancelled(true))
      ensures Paired(old(history)) && r == Cancelled(true) ==>
        exists paired, m :: history == paired + [m] && Paired(paired) && Dangling(m)
    {
      hide PairedFrom, TurnsMessages, TurnFollows;
      ghost var before := history;
      NoTurns();
      history := history + [UserMessage(userText)];
      ghost var opening := history;
      var messages := [SystemMessage(systemPrompt)] + history;
      turns, last := [], [];
      for iteration := 0 to maxIterations
        invariant iteration == |turns|
        invariant messages == [SystemMessage(systemPrompt)] + history
        invariant history == opening + TurnsMessages(turns, |turns|)
        invariant forall i :: 0 <= i < |turns| ==> TurnFollows(world, systemPrompt, opening, turns, i)
      {
        PairedBeforeLast(before, userText, turns);
        var fate := world.provider(iteration, messages);
        match fate {
          case Fails => return ProviderError, turns, last;
          case Dropped => return Cancelled(false), turns, last;
          case Answers(reply) =>
            if reply.toolCalls == [] {
              history := history + [AssistantMessage(reply.content)];
              last := [AssistantMessage(reply.content)];
              SaidIsPaired(before, userText, turns, reply.content);
              return Said(reply.content), turns, last;
            }
            // Only the first call of a reply is executed.
            var call := reply.toolCalls[0];
            var asked := AssistantWithTools(reply.content, [call]);
            messages := messages + [asked];
            history := history + [asked];
            var result := world.tool(iteration);
            if result.None? {
              last := [asked];
              DanglingIsUnpaired(history, |history| - 1);
              return Cancelled(true), turns, last;
            }
            var answer := ToolResult(call.id, result.value);
            messages := messages + [answer];
            history := history + [answer];
            ghost var turn := Turn(reply.content, call, result.value);
            TurnAppended(world, systemPrompt, opening, turns, turn);
            turns := turns + [turn];
        }
      }
      PairedBeforeLast(before, userText, turns);
      SaidIsPaired(before, userText, turns, CAP_MESSAGE);
      history := history + [AssistantMessage(CAP_MESSAGE)];
      last := [AssistantMessage(CAP_MESSAGE)];
      r := Said(CAP_MESSAGE);
    }

    method ClearHistory()
      modifies this
      ensures history == []
    {
      history := [];
    }

    method RepairHistory()
      modifies this
      ensures history == Repaired(old(history))
    {
      while history != [] && Dangling(history[|history| - 1])
        invariant Repaired(history) == Repaired(old(history))
        decreases |history|
      {
        history := history[..|history| - 1];
      }
    }
  }

  lemma NoTurns()
    ensures TurnsMessages([], 0) == []
  {
  }

  lemma PairedBeforeLast(before: seq<Message>, userText: Text, turns: seq<Turn>)
    ensures Paired(before) ==> Paired(HistoryAfter(before, userText, turns, []))
    ensures HistoryAfter(before, userText, turns, [])
      == before + [UserMessage(userText)] + TurnsMessages(turns, |turns|)
  {
    TurnsArePaired(turns, |turns|);
    var h := before + [UserMessage(userText)];
    assert h + TurnsMessages(turns, |turns|) + [] == h + TurnsMessages(turns, |turns|);
    if Paired(before) {
      AppendPlain(before, UserMessage(userText));
      AppendPaired(h, TurnsMessages(turns, |turns|));
    }
  }

  lemma SaidIsPaired(before: seq<Message>, userText: Text, turns: seq<Turn>, text: Text)
    ensures Paired(before) ==> Paired(HistoryAfter(before, userText, turns, [AssistantMessage(text)]))
  {
    PairedBeforeLast(before, userText, turns);
    if Paired(before) { AppendPlain(HistoryAfter(before, userText, turns, []), AssistantMessage(text)); }
  }

  lemma TurnAppended(world: ChatWorld, system: Text, opening: seq<Message>, turns: seq<Turn>, turn: Turn)
    requires forall i :: 0 <= i < |turns| ==> TurnFollows(world, system, opening, turns, i)
    requires var fate := world.provider(|turns|, [SystemMessage(system)] + (opening + TurnsMessages(turns, |turns|)));
      && fate.Answers? && fate.value.toolCalls != []
      && turn.draft == fate.value.content && turn.call == fate.value.toolCalls[0]
    requires world.tool(|turns|) == Some(turn.result)
    ensures forall i :: 0 <= i < |turns| + 1 ==> TurnFollows(world, system, opening, turns + [turn], i)
    ensures TurnsMessages(turns + [turn], |turns| + 1) == TurnsMessages(turns, |turns|) + TurnMessages(turn)
  {
    TurnsExtend(turns, turn, |turns|);
    forall i | 0 <= i < |turns| + 1 ensures TurnFollows(world, system, opening, turns + [turn], i) {
      if i < |turns| {
        assert TurnFollows(world, system, opening, turns, i);
        TurnsExtend(turns, turn, i);
      }
    }
  }

  // ---- Any host script ----

  datatype HostAction = Chat(world: ChatWorld, userText: Text) | Repair | Clear

  /** One chat, from the history before it to the history after it. */
  ghost predicate ChatRuns(world: ChatWorld, system: Text, maxIterations: nat, before: seq<Message>, userText: Text,
                           turns: seq<Turn>, r: ChatResult, last: seq<Message>, after: seq<Message>)
  {
    var opening := before + [UserMessage(userText)];
    && |turns| <= maxIterations
    && (forall i :: 0 <= i < |turns| ==> TurnFollows(world, system, opening, turns, i))
    && EndsWith(world, system, maxIterations, opening, turns, r, last)
    && after == HistoryAfter(before, userText, turns, last)
  }

  /** What one action makes of the history, and what a chat returned. */
  ghost predicate StepsTo(system: Text, maxIterations: nat, before: seq<Message>, action: HostAction,
                          r: Option<ChatResult>,
                          after: seq<Message>)
  {
    match action
    case Clear => after == []
    case Repair => after == Repaired(before)
    case Chat(world, userText) =>
      && r.Some?
      && exists turns, last :: ChatRuns(world, system, maxIterations, before, userText, turns, r.value, last, after)
  }

  ghost predicate StepsAt(system: Text, maxIterations: nat, actions: seq<HostAction>, results: seq<Option<ChatResult>>,
                          histories: seq<seq<Message>>, i: nat)
    requires i < |actions| <= |results| && |actions| < |histories|
  {
    StepsTo(system, maxIterations, histories[i], actions[i], results[i], histories[i + 1])
  }

  /** The chat at position i was cancelled while its tool ran. */
  predicate CutShort(actions: seq<HostAction>, results: seq<Option<ChatResult>>, i: nat)
    requires i < |actions| <= |results|
  {
    actions[i].Chat? && results[i] == Some(Cancelled(true))
  }

  /** The action at j puts right what happened at i: it clears, or it repairs before the next chat. */
  predicate Rights(actions: seq<HostAction>, i: nat, j: nat)
    requires i < j < |actions|
  {
    actions[j].Clear? || (actions[j].Repair? && forall k :: i < k < j ==> !actions[k].Chat?)
  }

  predicate RightedBy(actions: seq<HostAction>, i: nat, n: nat)
    requires n <= |actions|
  {
    exists j :: i < j < n && Rights(actions, i, j)
  }

  /** Every chat that was cut short during the first n actions was put right by one of them. */
  predicate AllRighted(actions: seq<HostAction>, results: seq<Option<ChatResult>>, n: nat)
    requires n <= |actions| <= |results|
  {
    forall i :: 0 <= i < n && CutShort(actions, results, i) ==> RightedBy(actions, i, n)
  }

  datatype Health = Sound | Open | Lost

  function HealthAfter(actions: seq<HostAction>, results: seq<Option<ChatResult>>, n: nat): Health
    requires n <= |actions| <= |results|
  {
    if n == 0 then Sound
    else
      var before := HealthAfter(actions, results, n - 1);
      match actions[n - 1]
      case Clear => Sound
      case Repair => if before == Open then Sound else before
      case Chat(_, _) =>
        if before != Sound then Lost else if CutShort(actions, results, n - 1) then Open else Sound
  }

  /** A chat has followed, no repair came before it, and nothing was cleared since. */
  predicate IsBuried(actions: seq<HostAction>, i: nat, n: nat)
    requires n <= |actions|
  {
    && (forall k :: i < k < n ==> !actions[k].Clear?)
    && exists c :: i < c < n && actions[c].Chat? && forall k :: i < k < c ==> !actions[k].Repair?
  }

  ghost predicate HealthMeans(actions: seq<HostAction>, results: seq<Option<ChatResult>>, n: nat)
    requires n <= |actions| <= |results|
  {
    match HealthAfter(actions, results, n)
    case Sound => AllRighted(actions, results, n)
    case Open => n > 0 && CutShort(actions, results, n - 1) && AllRighted(actions, results, n - 1)
    case Lost => exists i :: 0 <= i < n && CutShort(actions, results, i) && IsBuried(actions, i, n)
  }

  lemma StaysRighted(actions: seq<HostAction>, results: seq<Option<ChatResult>>, n: nat)
    requires n < |actions| <= |results| && AllRighted(actions, results, n)
    ensures forall i :: 0 <= i < n && CutShort(actions, results, i) ==> RightedBy(actions, i, n + 1)
  {
    hide Rights, CutShort;
    forall i | 0 <= i < n && CutShort(actions, results, i) ensures RightedBy(actions, i, n + 1) {
      assert RightedBy(actions, i, n);
    }
  }

  lemma ClearRights(actions: seq<HostAction>, results: seq<Option<ChatResult>>, n: nat)
    requires n < |actions| <= |results| && actions[n].Clear?
    ensures AllRighted(actions, results, n + 1)
  {
    forall i | 0 <= i < n + 1 && CutShort(actions, results, i) ensures RightedBy(actions, i, n + 1) {
      assert Rights(actions, i, n);
    }
  }

  lemma StaysBuried(actions: seq<HostAction>, i: nat, n: nat)
    requires i < n < |actions| && IsBuried(actions, i, n) && !actions[n].Clear?
    ensures IsBuried(actions, i, n + 1)
  {
    var c :| i < c < n && actions[c].Chat? && forall k :: i < k < c ==> !actions[k].Repair?;
    assert i < c < n + 1;
  }

  lemma {:induction false} HealthIsWhatItMeans(actions: seq<HostAction>, results: seq<Option<ChatResult>>, n: nat)
    requires n <= |actions| <= |results|
    ensures HealthMeans(actions, results, n)
  {
    hide RightedBy, IsBuried, CutShort;
    if n > 0 {
      HealthIsWhatItMeans(actions, results, n - 1);
      var before := HealthAfter(actions, results, n - 1);
      if actions[n - 1].Clear? {
        ClearRights(actions, results, n - 1);
      } else if before == Sound {
        StaysRighted(actions, results, n - 1);
        RepairIsNotCut(actions, results, n - 1);
      } else if before == Lost {
        var i :| 0 <= i < n - 1 && CutShort(actions, results, i) && IsBuried(actions, i, n - 1);
        StaysBuried(actions, i, n - 1);
      } else if actions[n - 1].Repair? {
        StaysRighted(actions, results, n - 2);
        RepairRights(actions, results, n - 1);
      } else {
        ChatBuries(actions, n - 1);
      }
    }
  }

  lemma RepairIsNotCut(actions: seq<HostAction>, results: seq<Option<ChatResult>>, n: nat)
    requires n < |actions| <= |results|
    ensures CutShort(actions, results, n) ==> actions[n].Chat?
  {
  }

  lemma RepairRights(actions: seq<HostAction>, results: seq<Option<ChatResult>>, n: nat)
    requires 0 < n < |actions| <= |results| && actions[n].Repair? && AllRighted(actions, results, n - 1)
    ensures AllRighted(actions, results, n + 1)
  {
    forall i | 0 <= i < n + 1 && CutShort(actions, results, i) ensures RightedBy(actions, i, n + 1) {
      if i < n - 1 {
        assert RightedBy(actions, i, n - 1);
      } else {
        assert Rights(actions, i, n);
      }
    }
  }

  lemma ChatBuries(actions: seq<HostAction>, n: nat)
    requires 0 < n < |actions| && actions[n].Chat?
    ensures IsBuried(actions, n - 1, n + 1)
  {
    assert n - 1 < n < n + 1;
  }

  lemma BuriedIsNotRighted(actions: seq<HostAction>, i: nat, n: nat)
    requires i < n <= |actions| && IsBuried(actions, i, n)
    ensures !RightedBy(actions, i, n)
  {
  }

  lemma SoundIffRighted(actions: seq<HostAction>, results: seq<Option<ChatResult>>, n: nat)
    requires n <= |actions| <= |results|
    ensures HealthAfter(actions, results, n) == Sound <==> AllRighted(actions, results, n)
  {
    hide HealthAfter, CutShort, IsBuried;
    HealthIsWhatItMeans(actions, results, n);
    if HealthAfter(actions, results, n) == Lost {
      var i :| 0 <= i < n && CutShort(actions, results, i) && IsBuried(actions, i, n);
      BuriedIsNotRighted(actions, i, n);
    }
  }

  // ---- What becomes of the history ----

  ghost predicate EndsDangling(history: seq<Message>) {
    history != [] && Paired(history[..|history| - 1]) && Dangling(history[|history| - 1])
  }

  predicate BuriesDangling(history: seq<Message>) {
    exists i :: 0 <= i < |history| - 1 && Dangling(history[i]) && history[i + 1].role == User
  }

  ghost predicate InHealth(history: seq<Message>, health: Health) {
    match health
    case Sound => Paired(history)
    case Open => EndsDangling(history)
    case Lost => BuriesDangling(history)
  }

  /** From a paired history a chat leaves a paired one, or one that ends in a dangling call when it was cut short. */
  lemma ChatFromPaired(world: ChatWorld, system: Text, maxIterations: nat, before: seq<Message>, userText: Text,
                       turns: seq<Turn>, r: ChatResult, last: seq<Message>)
    requires Paired(before) && EndsWith(world, system, maxIterations, before + [UserMessage(userText)], turns, r, last)
    ensures InHealth(HistoryAfter(before, userText, turns, last), if r == Cancelled(true) then Open else Sound)
  {
    hide Paired;
    var h := HistoryAfter(before, userText, turns, []);
    PairedBeforeLast(before, userText, turns);
    assert HistoryAfter(before, userText, turns, last) == h + last;
    if last != [] && r.Said? {
      SaidIsPaired(before, userText, turns, r.text);
    } else if r == Cancelled(true) {
      assert (h + last)[..|h|] == h;
    } else {
      assert h + last == h;
    }
  }

  /** A chat puts a user message behind whatever was there. */
  lemma ChatBuriesMore(before: seq<Message>, userText: Text, turns: seq<Turn>, last: seq<Message>)
    requires EndsDangling(before) || BuriesDangling(before)
    ensures BuriesDangling(HistoryAfter(before, userText, turns, last))
  {
    hide Paired, TurnsMessages;
    var after := HistoryAfter(before, userText, turns, last);
    assert after[..|before|] == before && after[|before|] == UserMessage(userText);
    if EndsDangling(before) {
      assert Dangling(after[|before| - 1]);
    } else {
      var i :| 0 <= i < |before| - 1 && Dangling(before[i]) && before[i + 1].role == User;
      assert after[i] == before[i] && after[i + 1] == before[i + 1];
    }
  }

  lemma RepairKeepsHealth(history: seq<Message>, health: Health)
    requires InHealth(history, health)
    ensures InHealth(Repaired(history), if health == Open then Sound else health)
  {
    match health {
      case Sound => RepairIsIdentityOnPaired(history);
      case Open =>
        var front := history[..|history| - 1];
        assert history == front + [history[|history| - 1]];
        RepairRemovesDangling(front, history[|history| - 1]);
      case Lost =>
        var i :| 0 <= i < |history| - 1 && Dangling(history[i]) && history[i + 1].role == User;
        RepairStopsAt(history, i + 1);
        assert Repaired(history)[i] == history[i] && Repaired(history)[i + 1] == history[i + 1];
    }
  }

  lemma StepKeepsHealth(system: Text, maxIterations: nat, before: seq<Message>, action: HostAction,
                        r: Option<ChatResult>,
                        after: seq<Message>, health: Health)
    requires StepsTo(system, maxIterations, before, action, r, after) && InHealth(before, health)
    ensures action.Clear? ==> InHealth(after, Sound)
    ensures action.Repair? ==> InHealth(after, if health == Open then Sound else health)
    ensures action.Chat? ==>
      InHealth(after, if health != Sound then Lost else if r == Some(Cancelled(true)) then Open else Sound)
  {
    hide Repaired, HistoryAfter, EndsWith, EndsDangling, BuriesDangling;
    match action {
      case Clear =>
      case Repair => RepairKeepsHealth(before, health);
      case Chat(world, userText) =>
        var turns, last :| ChatRuns(world, system, maxIterations, before, userText, turns, r.value, last, after);
        if health == Sound {
          ChatFromPaired(world, system, maxIterations, before, userText, turns, r.value, last);
        } else {
          ChatBuriesMore(before, userText, turns, last);
        }
    }
  }

  /**
   * Any script of chats, repairs and clears on a paired history: every call is answered in the end if
   * and only if every chat that was cut short was followed by a clear, or by a repair before the next chat.
   */
  lemma {:induction false} HistoryIsPairedIff(
    system: Text, maxIterations: nat, actions: seq<HostAction>, results: seq<Option<ChatResult>>,
    histories: seq<seq<Message>>, n: nat)
    requires n <= |actions| <= |results| && |actions| < |histories|
    requires Paired(histories[0]) && forall i :: 0 <= i < n ==>
      StepsAt(system, maxIterations, actions, results, histories, i)
    ensures InHealth(histories[n], HealthAfter(actions, results, n))
    ensures Paired(histories[n]) <==> AllRighted(actions, results, n)
  {
    hide Repaired, AllRighted, StepsTo, Paired;
    if n > 0 {
      HistoryIsPairedIff(system, maxIterations, actions, results, histories, n - 1);
      assert StepsAt(system, maxIterations, actions, results, histories, n - 1);
      StepKeepsHealth(system, maxIterations, histories[n - 1], actions[n - 1], results[n - 1], histories[n],
                      HealthAfter(actions, results, n - 1));
    }
    SoundIffRighted(actions, results, n);
    UnsoundIsUnpaired(histories[n], HealthAfter(actions, results, n));
  }

  lemma UnsoundIsUnpaired(history: seq<Message>, health: Health)
    requires InHealth(history, health)
    ensures Paired(history) <==> health == Sound
  {
    if health == Open {
      DanglingIsUnpaired(history, |history| - 1);
    } else if health == Lost {
      var i :| 0 <= i < |history| - 1 && Dangling(history[i]) && history[i + 1].role == User;
      DanglingIsUnpaired(history, i);
    }
  }

  /** A host that runs any script. */
  method Host(agent: ZeptoAgent, actions: seq<HostAction>)
    returns (results: seq<Option<ChatResult>>, ghost histories: seq<seq<Message>>)
    requires Paired(agent.history)
    modifies agent
    ensures |results| == |actions| && |histories| == |actions| + 1
    ensures histories[0] == old(agent.history) && histories[|actions|] == agent.history
    ensures forall i :: 0 <= i < |actions| ==>
      StepsAt(agent.systemPrompt, agent.maxIterations, actions, results, histories, i)
    ensures EveryCallAnswered(agent.history) <==> AllRighted(actions, results, |actions|)
  {
    hide AllRighted, Paired, EndsWith;
    results, histories := [], [agent.history];
    for n := 0 to |actions|
      invariant |results| == n && |histories| == n + 1
      invariant histories[0] == old(agent.history) && histories[n] == agent.history
      invariant forall i :: 0 <= i < n ==>
        StepsTo(agent.systemPrompt, agent.maxIterations, histories[i], actions[i], results[i], histories[i + 1])
    {
      match actions[n] {
        case Clear =>
          agent.ClearHistory();
          results := results + [None];
        case Repair =>
          agent.RepairHistory();
          results := results + [None];
        case Chat(world, userText) =>
          var r, turns, last := agent.ChatWithCallback(world, userText);
          results := results + [Some(r)];
          assert ChatRuns(
            world, agent.systemPrompt, agent.maxIterations, histories[n], userText, turns, r, last, agent.history);
      }
      histories := histories + [agent.history];
      assert StepsTo(agent.systemPrompt, agent.maxIterations, histories[n], actions[n], results[n], histories[n + 1]);
    }
    HistoryIsPairedIff(agent.systemPrompt, agent.maxIterations, actions, results, histories, |actions|);
    PairedMeaning(agent.history);
  }

  /** A host that repairs after every cancellation keeps the history paired, whatever happens in between. */
  method CarefulHost(agent: ZeptoAgent, actions: seq<HostAction>)
    requires Paired(agent.history)
    modifies agent
    ensures Paired(agent.history) && EveryCallAnswered(agent.history)
  {
    for i := 0 to |actions|
      invariant Paired(agent.history)
    {
      match actions[i] {
        case Clear => agent.ClearHistory();
        case Repair =>
          RepairIsIdentityOnPaired(agent.history);
          agent.RepairHistory();
        case Chat(world, userText) =>
          var r, _, _ := agent.ChatWithCallback(world, userText);
          if r.Cancelled? {
            if r == Cancelled(true) {
              var paired, m :| agent.history == paired + [m] && Paired(paired) && Dangling(m);
              RepairRemovesDangling(paired, m);
            } else {
              RepairIsIdentityOnPaired(agent.history);
            }
            agent.RepairHistory();
          }
      }
    }
    PairedMeaning(agent.history);
  }
}
