/** Carrying trimmed tool results from the request buffer back into the session. */
module ResultSync {
  import opened Bytes
  import opened Messages
  import opened TokenEstimates
  import opened Preflight

  // ---- The request buffer ----

  /** Empty user messages without images are not sent. */
  predicate Sent(m: Message) { !(m.role == User && m.content == [] && !m.HasImages()) }

  /** Image files are inlined by `inline`; nothing else of a message changes. */
  function Inlined(m: Message, inline: seq<ContentPart> -> seq<ContentPart>): Message {
    m.(contentParts := inline(m.contentParts))
  }

  function SentMessages(ms: seq<Message>, inline: seq<ContentPart> -> seq<ContentPart>): seq<Message> {
    if ms == [] then []
    else
      (if Sent(Inlined(ms[0], inline)) then [Inlined(ms[0], inline)] else []) + SentMessages(ms[1..], inline)
  }

  /** What the provider is sent: the system prompt, then the session. */
  function BuildResolvedMessages(system: Message, session: seq<Message>, inline: seq<ContentPart> -> seq<ContentPart>)
    : seq<Message>
  {
    SentMessages([system] + session, inline)
  }

  // ---- The write-back ----

  predicate Matches(m: Message, id: Option<Text>) { m.role == Tool && m.toolCallId == id }

  /** The last of the first n messages that is a tool message with this id. */
  function LastMatch(ms: seq<Message>, id: Option<Text>, n: nat): (r: Option<nat>)
    requires n <= |ms|
    ensures r.Some? ==> r.value < n && Matches(ms[r.value], id)
    ensures forall i :: 0 <= i < n && Matches(ms[i], id) ==> r.Some? && i <= r.value
  {
    if n == 0 then None
    else if Matches(ms[n - 1], id) then Some(n - 1)
    else LastMatch(ms, id, n - 1)
  }

  function Overwritten(m: Message, source: Message): Message {
    if m.content == source.content then m else m.(content := source.content, contentParts := source.contentParts)
  }

  function SyncOne(session: seq<Message>, resolved: Message): seq<Message> {
    if resolved.role != Tool then session
    else
      match LastMatch(session, resolved.toolCallId, |session|)
      case None => session
      case Some(i) => session[i := Overwritten(session[i], resolved)]
  }

  /** The session after the first k resolved messages. */
  function SyncFirst(session: seq<Message>, resolved: seq<Message>, k: nat): seq<Message>
    requires k <= |resolved|
  {
    if k == 0 then session else SyncOne(SyncFirst(session, resolved, k - 1), resolved[k - 1])
  }

  function Synced(session: seq<Message>, resolved: seq<Message>): seq<Message> {
    SyncFirst(session, resolved, |resolved|)
  }

  method SyncTrimmedToolResults(session: array<Message>, resolved: seq<Message>)
    modifies session
    ensures session[..] == Synced(old(session[..]), resolved)
  {
    for k := 0 to |resolved|
      invariant session[..] == SyncFirst(old(session[..]), resolved, k)
    {
      if resolved[k].role == Tool {
        var i := session.Length;
        while i > 0 && !Matches(session[i - 1], resolved[k].toolCallId)
          invariant 0 <= i <= session.Length
          invariant LastMatch(session[..], resolved[k].toolCallId, session.Length)
            == LastMatch(session[..], resolved[k].toolCallId, i)
        {
          i := i - 1;
        }
        if i > 0 && session[i - 1].content != resolved[k].content {
          session[i - 1] := session[i - 1].(content := resolved[k].content, contentParts := resolved[k].contentParts);
        }
      }
    }
  }

  // ---- What ends up in the session ----

  /** Role, calls and id stay; only text and parts may differ. */
  predicate SameSlot(a: Message, b: Message) { a.(content := b.content, contentParts := b.contentParts) == b }

  lemma {:induction false} LastMatchIgnoresText(a: seq<Message>, b: seq<Message>, id: Option<Text>, n: nat)
    requires n <= |a| == |b| && forall i :: 0 <= i < |a| ==> SameSlot(a[i], b[i])
    ensures LastMatch(a, id, n) == LastMatch(b, id, n)
  {
  }

  /** The message at position i takes part in the sync: it is the last tool message with its id. */
  predicate IsTarget(session: seq<Message>, i: nat)
    requires i < |session|
  {
    session[i].role == Tool && LastMatch(session, session[i].toolCallId, |session|) == Some(i)
  }

  /** The content of slot i after the first k resolved messages: that of the last one with its id, if any. */
  function ExpectedContent(session: seq<Message>, resolved: seq<Message>, i: nat, k: nat): Text
    requires i < |session| && k <= |resolved|
  {
    if IsTarget(session, i) && LastMatch(resolved, session[i].toolCallId, k).Some?
    then resolved[LastMatch(resolved, session[i].toolCallId, k).value].content
    else session[i].content
  }

  predicate SyncedSlot(session: seq<Message>, resolved: seq<Message>, result: seq<Message>, i: nat, k: nat)
    requires i < |session| == |result| && k <= |resolved|
  {
    && SameSlot(session[i], result[i])
    && result[i].content == ExpectedContent(session, resolved, i, k)
    && (!IsTarget(session, i) ==> result[i] == session[i])
    && (LastMatch(resolved, session[i].toolCallId, k).None? ==> result[i] == session[i])
  }

  lemma SyncStep(session: seq<Message>, resolved: seq<Message>, before: seq<Message>, i: nat, k: nat)
    requires k < |resolved| && i < |session| == |before|
    requires forall j :: 0 <= j < |session| ==> SyncedSlot(session, resolved, before, j, k)
    ensures SyncedSlot(session, resolved, SyncOne(before, resolved[k]), i, k + 1)
  {
    assert forall j :: 0 <= j < |session| ==> SameSlot(session[j], before[j]) by {
      forall j | 0 <= j < |session| ensures SameSlot(session[j], before[j]) {
        assert SyncedSlot(session, resolved, before, j, k);
      }
    }
    LastMatchIgnoresText(session, before, resolved[k].toolCallId, |session|);
    assert SyncedSlot(session, resolved, before, i, k);
  }

  /**
   * For every id, the last session tool message with that id ends with the content of the last
   * resolved tool message with that id; every other message is left as it was.
   */
  lemma {:induction false} SyncExact(session: seq<Message>, resolved: seq<Message>, k: nat)
    requires k <= |resolved|
    ensures |SyncFirst(session, resolved, k)| == |session|
    ensures forall i :: 0 <= i < |session| ==> SyncedSlot(session, resolved, SyncFirst(session, resolved, k), i, k)
  {
    if k > 0 {
      SyncExact(session, resolved, k - 1);
      var before := SyncFirst(session, resolved, k - 1);
      forall i | 0 <= i < |session|
        ensures SyncedSlot(session, resolved, SyncFirst(session, resolved, k), i, k)
      {
        SyncStep(session, resolved, before, i, k - 1);
      }
    }
  }

  /** Structured parts that repeat the text. */
  predicate PartsMatch(m: Message) { m.contentParts == [] || m.contentParts == [TextPart(m.content)] }

  predicate ToolPartsMatch(ms: seq<Message>) {
    forall i :: 0 <= i < |ms| ==> ms[i].role == Tool ==> PartsMatch(ms[i])
  }

  /** Parts that repeat the text keep doing so: token estimates never read a stale copy. */
  lemma {:induction false} SyncKeepsPartsInStep(session: seq<Message>, resolved: seq<Message>, k: nat)
    requires k <= |resolved| && ToolPartsMatch(session) && ToolPartsMatch(resolved)
    ensures ToolPartsMatch(SyncFirst(session, resolved, k))
  {
    if k > 0 {
      SyncKeepsPartsInStep(session, resolved, k - 1);
      var before, r := SyncFirst(session, resolved, k - 1), resolved[k - 1];
      if r.role == Tool && LastMatch(before, r.toolCallId, |before|).Some? {
        var i := LastMatch(before, r.toolCallId, |before|).value;
        assert before[i].role == Tool && PartsMatch(before[i]);
        assert r.role == Tool && PartsMatch(r);
      }
    }
  }

  predicate DistinctIds(ms: seq<Message>) {
    forall i, j :: 0 <= i < j < |ms| && ms[i].role == Tool && ms[j].role == Tool ==>
      ms[i].toolCallId != ms[j].toolCallId
  }

  /** With distinct ids, every session result takes the content of its counterpart, whichever positions they have. */
  lemma DistinctIdsSync(session: seq<Message>, resolved: seq<Message>, i: nat, j: nat)
    requires DistinctIds(session) && DistinctIds(resolved)
    requires i < |session| && j < |resolved|
    requires session[i].role == Tool && Matches(resolved[j], session[i].toolCallId)
    ensures |Synced(session, resolved)| == |session|
    ensures Synced(session, resolved)[i].content == resolved[j].content
  {
    var id := session[i].toolCallId;
    SyncExact(session, resolved, |resolved|);
    assert SyncedSlot(session, resolved, Synced(session, resolved), i, |resolved|);
    assert LastMatch(session, id, |session|) == Some(i);
    assert LastMatch(resolved, id, |resolved|) == Some(j);
  }

  // ---- Preflight followed by sync ----

  lemma {:induction false} SentOrigin(ms: seq<Message>, inline: seq<ContentPart> -> seq<ContentPart>,
                                      j: nat) returns (i: nat)
    requires j < |SentMessages(ms, inline)|
    ensures i < |ms| && SentMessages(ms, inline)[j] == Inlined(ms[i], inline)
  {
    var shift := if Sent(Inlined(ms[0], inline)) then 1 else 0;
    if j < shift {
      i := 0;
    } else {
      i := SentOrigin(ms[1..], inline, j - shift);
      i := i + 1;
    }
  }

  /** Every tool message of the session has a counterpart in the request buffer ... */
  lemma {:induction false} ToolIsSent(ms: seq<Message>, inline: seq<ContentPart> -> seq<ContentPart>,
                                      i: nat) returns (j: nat)
    requires i < |ms| && ms[i].role == Tool
    ensures j < |SentMessages(ms, inline)| && SentMessages(ms, inline)[j] == Inlined(ms[i], inline)
  {
    if i == 0 {
      j := 0;
    } else {
      j := ToolIsSent(ms[1..], inline, i - 1);
      j := j + if Sent(Inlined(ms[0], inline)) then 1 else 0;
    }
  }

  /** ... and the ids stay distinct. */
  lemma {:induction false} SentKeepsDistinct(ms: seq<Message>, inline: seq<ContentPart> -> seq<ContentPart>)
    requires DistinctIds(ms)
    ensures DistinctIds(SentMessages(ms, inline))
  {
    if ms != [] {
      var sent, rest := SentMessages(ms, inline), SentMessages(ms[1..], inline);
      SentKeepsDistinct(ms[1..], inline);
      if Sent(Inlined(ms[0], inline)) {
        assert sent == [Inlined(ms[0], inline)] + rest;
        forall j | 0 <= j < |rest| && rest[j].role == Tool && sent[0].role == Tool
          ensures sent[0].toolCallId != rest[j].toolCallId
        {
          var i := SentOrigin(ms[1..], inline, j);
          assert ms[1..][i] == ms[i + 1];
        }
      } else {
        assert sent == rest;
      }
    }
  }

  lemma TrimmedKeepsSlots(m: Monitor, before: seq<Message>, after: seq<Message>, k: nat)
    requires TrimmedTo(m, before, after, k)
    ensures |after| == |before| && forall i :: 0 <= i < |before| ==> SameSlot(before[i], after[i])
  {
  }

  /**
   * Building the request, trimming it and syncing back: with distinct ids, every tool message of
   * the session ends up with exactly the content its trimmed counterpart is sent with.
   */
  lemma PreflightThenSync(m: Monitor, system: Message, session: seq<Message>,
                          inline: seq<ContentPart> -> seq<ContentPart>,
                          trimmed: seq<Message>, k: nat, i: nat)
    requires system.role == System && DistinctIds(session)
    requires TrimmedTo(m, BuildResolvedMessages(system, session, inline), trimmed, k)
    requires i < |session| && session[i].role == Tool
    ensures |Synced(session, trimmed)| == |session|
    ensures exists j :: (
      && 0 <= j < |trimmed|
      && Matches(trimmed[j], session[i].toolCallId)
      && Synced(session, trimmed)[i].content == trimmed[j].content)
  {
    var all := [system] + session;
    var sent := BuildResolvedMessages(system, session, inline);
    assert DistinctIds(all) by {
      forall a, b | 0 <= a < b < |all| && all[a].role == Tool && all[b].role == Tool
        ensures all[a].toolCallId != all[b].toolCallId
      {
        assert all[a] == session[a - 1] && all[b] == session[b - 1];
      }
    }
    SentKeepsDistinct(all, inline);
    TrimmedKeepsSlots(m, sent, trimmed, k);
    assert DistinctIds(trimmed) by {
      forall a, b | 0 <= a < b < |trimmed| && trimmed[a].role == Tool && trimmed[b].role == Tool
        ensures trimmed[a].toolCallId != trimmed[b].toolCallId
      {
        assert SameSlot(sent[a], trimmed[a]) && SameSlot(sent[b], trimmed[b]);
      }
    }
    assert all[i + 1] == session[i];
    var j := ToolIsSent(all, inline, i + 1);
    assert SameSlot(sent[j], trimmed[j]);
    DistinctIdsSync(session, trimmed, i, j);
  }
}
