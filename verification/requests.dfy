/** What the provider is sent: every message of the conversation, in order, but for blank user messages. */
module Requests {
  import opened Bytes
  import opened Messages
  import opened TokenEstimates
  import opened Preflight
  import opened ResultSync
  import opened Abridgements

  /** A user message without text and, once its files are inlined, without an image. */
  predicate BlankUser(m: Message, inline: seq<ContentPart> -> seq<ContentPart>) {
    && m.role == User && m.content == []
    && forall i :: 0 <= i < |inline(m.contentParts)| ==> inline(m.contentParts)[i].TextPart?
  }

  /** The places are those of the messages that are not blank. */
  ghost predicate Covers(all: seq<Message>, inline: seq<ContentPart> -> seq<ContentPart>, places: seq<nat>) {
    forall i :: 0 <= i < |all| ==> (i in places <==> !BlankUser(all[i], inline))
  }

  function Shifted(places: seq<nat>): seq<nat> { seq(|places|, j requires 0 <= j < |places| => places[j] + 1) }

  lemma ShiftedMembers(places: seq<nat>, i: nat)
    ensures i + 1 in Shifted(places) <==> i in places
    ensures 0 !in Shifted(places)
  {
    if j :| 0 <= j < |places| && places[j] == i { assert Shifted(places)[j] == i + 1; }
  }

  lemma BlankIsNotSent(m: Message, inline: seq<ContentPart> -> seq<ContentPart>)
    ensures Sent(Inlined(m, inline)) <==> !BlankUser(m, inline)
  {
  }

  lemma CoversOneMore(all: seq<Message>, inline: seq<ContentPart> -> seq<ContentPart>, places: seq<nat>)
    requires all != [] && Covers(all[1..], inline, places)
    ensures BlankUser(all[0], inline) ==> Covers(all, inline, Shifted(places))
    ensures !BlankUser(all[0], inline) ==> Covers(all, inline, [0] + Shifted(places))
  {
    hide BlankUser;
    forall i | 0 < i < |all| ensures i in Shifted(places) <==> !BlankUser(all[i], inline) {
      ShiftedMembers(places, i - 1);
      assert all[i] == all[1..][i - 1];
    }
    ShiftedMembers(places, 0);
  }

  /** The request holds, at each position, the message at the place given for it. */
  predicate PlacesHold(all: seq<Message>, request: seq<Message>, inline: seq<ContentPart> -> seq<ContentPart>,
                       places: seq<nat>)
  {
    && |places| == |request|
    && forall j :: 0 <= j < |request| ==>
         && places[j] < |all|
         && request[j] == all[places[j]].(contentParts := inline(all[places[j]].contentParts))
  }

  lemma ShiftedIncreases(places: seq<nat>)
    requires Increasing(places)
    ensures Increasing(Shifted(places)) && Increasing([0] + Shifted(places))
  {
  }

  lemma ShiftedHold(all: seq<Message>, rest: seq<Message>, inline: seq<ContentPart> -> seq<ContentPart>,
                    places: seq<nat>)
    requires all != [] && PlacesHold(all[1..], rest, inline, places)
    ensures PlacesHold(all, rest, inline, Shifted(places))
  {
    forall j | 0 <= j < |rest| ensures all[Shifted(places)[j]] == all[1..][places[j]] {}
  }

  lemma FirstHolds(all: seq<Message>, rest: seq<Message>, inline: seq<ContentPart> -> seq<ContentPart>,
                   shifted: seq<nat>)
    requires all != [] && PlacesHold(all, rest, inline, shifted)
    ensures PlacesHold(all, [all[0].(contentParts := inline(all[0].contentParts))] + rest, inline, [0] + shifted)
  {
  }

  /** Every message that is not blank is sent, once, in order, and nothing else is. */
  lemma {:induction false} RequestPlaces(all: seq<Message>, inline: seq<ContentPart> -> seq<ContentPart>)
    returns (places: seq<nat>)
    ensures PlacesHold(all, SentMessages(all, inline), inline, places)
    ensures Increasing(places) && Covers(all, inline, places)
  {
    places := [];
    if all != [] {
      var rest := RequestPlaces(all[1..], inline);
      BlankIsNotSent(all[0], inline);
      CoversOneMore(all, inline, rest);
      ShiftedIncreases(rest);
      ShiftedHold(all, SentMessages(all[1..], inline), inline, rest);
      hide PlacesHold, Increasing, Covers, BlankUser, Sent;
      if BlankUser(all[0], inline) {
        assert SentMessages(all, inline) == SentMessages(all[1..], inline);
        places := Shifted(rest);
      } else {
        FirstHolds(all, SentMessages(all[1..], inline), inline, Shifted(rest));
        places := [0] + Shifted(rest);
      }
    }
  }

  /** The same when tool texts were trimmed on the way. */
  ghost predicate SendsAt(all: seq<Message>, sent: seq<Message>, inline: seq<ContentPart> -> seq<ContentPart>,
                          places: seq<nat>)
  {
    && |places| == |sent| && Increasing(places) && Covers(all, inline, places)
    && forall j :: 0 <= j < |sent| ==>
         && places[j] < |all|
         && OnlyToolTextDiffers(all[places[j]].(contentParts := inline(all[places[j]].contentParts)), sent[j])
  }

  /** The request tells the whole conversation behind the system prompt. */
  ghost predicate Sends(system: Message, session: seq<Message>, sent: seq<Message>,
                        inline: seq<ContentPart> -> seq<ContentPart>)
  {
    exists places :: SendsAt([system] + session, sent, inline, places)
  }

  lemma BuiltIsSent(system: Message, session: seq<Message>, inline: seq<ContentPart> -> seq<ContentPart>)
    ensures Sends(system, session, BuildResolvedMessages(system, session, inline), inline)
  {
    var places := RequestPlaces([system] + session, inline);
    assert SendsAt([system] + session, BuildResolvedMessages(system, session, inline), inline, places);
  }

  lemma TrimmedIsSent(m: Monitor, system: Message, session: seq<Message>, trimmed: seq<Message>, k: nat,
                      inline: seq<ContentPart> -> seq<ContentPart>)
    requires TrimmedTo(m, BuildResolvedMessages(system, session, inline), trimmed, k)
    ensures Sends(system, session, trimmed, inline)
  {
    hide SingleResultCap, Estimate;
    var request := BuildResolvedMessages(system, session, inline);
    var places := RequestPlaces([system] + session, inline);
    PreflightOnlyRewritesToolText(request, SingleResultCap(m), k);
    assert SendsAt([system] + session, trimmed, inline, places);
  }

  /** Writing tool texts back into the session does not change what it is. */
  lemma SyncedIsSent(system: Message, session: seq<Message>, resolved: seq<Message>, sent: seq<Message>,
                     inline: seq<ContentPart> -> seq<ContentPart>)
    requires Sends(system, session, sent, inline)
    ensures Sends(system, Synced(session, resolved), sent, inline)
  {
    hide Synced;
    var synced := Synced(session, resolved);
    var places :| SendsAt([system] + session, sent, inline, places);
    SyncRewritesToolText(session, resolved);
    OtherTextsAreSent([system] + session, [system] + synced, sent, inline, places);
  }

  lemma OtherTextsAreSent(a: seq<Message>, b: seq<Message>, sent: seq<Message>,
                          inline: seq<ContentPart> -> seq<ContentPart>, places: seq<nat>)
    requires |a| == |b| && forall i :: 0 <= i < |a| ==> OnlyToolTextDiffers(a[i], b[i])
    requires SendsAt(a, sent, inline, places)
    ensures SendsAt(b, sent, inline, places)
  {
    assert Covers(b, inline, places) by {
      forall i | 0 <= i < |b| ensures i in places <==> !BlankUser(b[i], inline) {
        assert OnlyToolTextDiffers(a[i], b[i]);
      }
    }
    forall j | 0 <= j < |sent|
      ensures OnlyToolTextDiffers(b[places[j]].(contentParts := inline(b[places[j]].contentParts)), sent[j])
    {
      assert OnlyToolTextDiffers(a[places[j]], b[places[j]]);
    }
  }

  /** Position i of the session holds the text that is sent for its id. */
  ghost predicate HoldsSentText(session: seq<Message>, sent: seq<Message>, i: nat)
    requires i < |session|
  {
    exists j :: 0 <= j < |sent| && Matches(sent[j], session[i].toolCallId) && session[i].content == sent[j].content
  }

  /** Trimmed texts are written back, where ids are distinct; without write-back the session stays as it is. */
  ghost predicate WritesBack(system: Message, writeBack: bool, before: seq<Message>, after: seq<Message>,
                             sent: seq<Message>)
  {
    && |after| == |before| && (forall i :: 0 <= i < |before| ==> OnlyToolTextDiffers(before[i], after[i]))
    && (!writeBack ==> after == before)
    && (writeBack && system.role == System && DistinctIds(before) ==>
          forall i :: 0 <= i < |after| && after[i].role == Tool ==> HoldsSentText(after, sent, i))
  }

  lemma SyncWritesBack(m: Monitor, system: Message, session: seq<Message>, trimmed: seq<Message>, k: nat,
                       inline: seq<ContentPart> -> seq<ContentPart>)
    requires TrimmedTo(m, BuildResolvedMessages(system, session, inline), trimmed, k)
    ensures WritesBack(system, true, session, Synced(session, trimmed), trimmed)
  {
    hide TrimmedTo, BuildResolvedMessages, Synced;
    SyncRewritesToolText(session, trimmed);
    var after := Synced(session, trimmed);
    if system.role == System && DistinctIds(session) {
      forall i | 0 <= i < |after| && after[i].role == Tool ensures HoldsSentText(after, trimmed, i) {
        assert OnlyToolTextDiffers(session[i], after[i]);
        PreflightThenSync(m, system, session, inline, trimmed, k, i);
      }
    }
  }

  lemma NoWriteBack(system: Message, session: seq<Message>, sent: seq<Message>)
    ensures WritesBack(system, false, session, session, sent)
  {
  }

  /** When nothing is trimmed there is nothing to write back. */
  lemma UntrimmedIsWrittenBack(m: Monitor, system: Message, session: seq<Message>, trimmed: seq<Message>,
                               inline: seq<ContentPart> -> seq<ContentPart>)
    requires TrimmedTo(m, BuildResolvedMessages(system, session, inline), trimmed, 0)
    requires !AnyOversized(BuildResolvedMessages(system, session, inline), SingleResultCap(m))
    ensures WritesBack(system, true, session, session, trimmed)
  {
    hide SingleResultCap, Slots, Estimate;
    var request := BuildResolvedMessages(system, session, inline);
    assert forall i :: 0 <= i < |request| ==> !Oversized(request[i], SingleResultCap(m));
    NothingToCap(request, SingleResultCap(m));
    CompactNone(request, Slots(request, |request|));
    assert trimmed == request;
    forall i | 0 <= i < |session| && session[i].role == Tool ensures HoldsSentText(session, trimmed, i) {
      var j := ToolIsSent([system] + session, inline, i + 1);
      assert ([system] + session)[i + 1] == session[i];
    }
  }

  /** So the system prompt comes first ... */
  lemma PromptComesFirst(system: Message, session: seq<Message>, sent: seq<Message>,
                         inline: seq<ContentPart> -> seq<ContentPart>)
    requires Sends(system, session, sent, inline) && system.role == System
    ensures sent != [] && sent[0] == system.(contentParts := inline(system.contentParts))
  {
    var all := [system] + session;
    var places :| SendsAt(all, sent, inline, places);
    assert 0 in places by { assert !BlankUser(all[0], inline); }
    assert places[0] == 0;
  }

  /** ... and whatever the conversation holds, but for blank user messages, is in the request. */
  lemma MessageIsSent(system: Message, session: seq<Message>, sent: seq<Message>,
                      inline: seq<ContentPart> -> seq<ContentPart>, i: nat) returns (j: nat)
    requires Sends(system, session, sent, inline) && i < |session| && !BlankUser(session[i], inline)
    ensures j < |sent| && OnlyToolTextDiffers(session[i].(contentParts := inline(session[i].contentParts)), sent[j])
  {
    var all := [system] + session;
    var places :| SendsAt(all, sent, inline, places);
    assert i + 1 in places by { assert !BlankUser(all[i + 1], inline); }
    j :| 0 <= j < |places| && places[j] == i + 1;
  }
}
