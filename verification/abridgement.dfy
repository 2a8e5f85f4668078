/** What context management can do to a conversation: leave messages out and rewrite tool texts, nothing else. */
module Abridgements {
  import opened Bytes
  import opened Messages
  import opened TokenEstimates
  import opened Preflight
  import opened ResultSync
  import opened RecoveryLadder

  /** `part` is `whole`, in order, with messages left out and only the text of tool messages altered. */
  ghost predicate Abridges(whole: seq<Message>, part: seq<Message>)
    decreases |whole|
  {
    if part == [] then true
    else if whole == [] then false
    else
      var w, p := |whole| - 1, |part| - 1;
      || (OnlyToolTextDiffers(whole[w], part[p]) && Abridges(whole[..w], part[..p]))
      || Abridges(whole[..w], part)
  }

  ghost predicate Increasing(positions: seq<nat>) {
    forall i, j :: 0 <= i < j < |positions| ==> positions[i] < positions[j]
  }

  ghost predicate Locates(whole: seq<Message>, part: seq<Message>, positions: seq<nat>) {
    && |positions| == |part|
    && forall i :: 0 <= i < |part| ==> positions[i] < |whole| && OnlyToolTextDiffers(whole[positions[i]], part[i])
  }

  /** Every remaining message has its own place in the original, in the same order. */
  lemma {:induction false} AbridgesMeaning(whole: seq<Message>, part: seq<Message>) returns (positions: seq<nat>)
    requires Abridges(whole, part)
    ensures Increasing(positions) && Locates(whole, part, positions)
    decreases |whole|
  {
    if part == [] {
      positions := [];
    } else {
      var w, p := |whole| - 1, |part| - 1;
      if Abridges(whole[..w], part) {
        positions := AbridgesMeaning(whole[..w], part);
      } else {
        positions := AbridgesMeaning(whole[..w], part[..p]);
        positions := positions + [w];
      }
    }
  }

  lemma {:induction false} AbridgesSimilar(whole: seq<Message>, part: seq<Message>)
    requires |whole| == |part| && forall i :: 0 <= i < |whole| ==> OnlyToolTextDiffers(whole[i], part[i])
    ensures Abridges(whole, part)
    decreases |whole|
  {
    if part != [] { AbridgesSimilar(whole[..|whole| - 1], part[..|part| - 1]); }
  }

  lemma AbridgesItself(ms: seq<Message>)
    ensures Abridges(ms, ms)
  {
  }

  lemma {:induction false} AbridgesCompose(a: seq<Message>, b: seq<Message>, c: seq<Message>)
    requires Abridges(a, b) && Abridges(b, c)
    ensures Abridges(a, c)
    decreases |a| + |b|
  {
    if c != [] {
      var i, j, k := |a| - 1, |b| - 1, |c| - 1;
      if Abridges(a[..i], b) {
        AbridgesCompose(a[..i], b, c);
      } else if Abridges(b[..j], c) {
        AbridgesCompose(a[..i], b[..j], c);
      } else {
        AbridgesCompose(a[..i], b[..j], c[..k]);
      }
    }
  }

  lemma {:induction false} AbridgesBefore(a: seq<Message>, b: seq<Message>, more: seq<Message>)
    requires Abridges(a, b)
    ensures Abridges(a + more, b + more)
    decreases |more|
  {
    if more == [] {
      assert a + more == a && b + more == b;
    } else {
      var m := |more| - 1;
      AbridgesBefore(a, b, more[..m]);
      assert (a + more)[..|a| + m] == a + more[..m] && (b + more)[..|b| + m] == b + more[..m];
    }
  }

  /** Cutting off the front. */
  lemma {:induction false} AbridgesSuffix(whole: seq<Message>, cut: nat)
    requires cut <= |whole|
    ensures Abridges(whole, whole[cut..])
    decreases |whole|
  {
    if cut < |whole| {
      var w := |whole| - 1;
      AbridgesSuffix(whole[..w], cut);
      assert whole[..w][cut..] == whole[cut..][..w - cut];
    }
  }

  lemma AbridgesOne(whole: seq<Message>, i: nat)
    requires i < |whole|
    ensures Abridges(whole[..i + 1], [whole[i]])
  {
  }

  lemma {:induction false} AbridgesLonger(whole: seq<Message>, part: seq<Message>, n: nat)
    requires n <= |whole| && Abridges(whole[..n], part)
    ensures Abridges(whole, part)
    decreases |whole| - n
  {
    if n == |whole| {
      assert whole[..n] == whole;
    } else {
      assert whole[..n + 1][..n] == whole[..n];
      AbridgesLonger(whole, part, n + 1);
    }
  }

  lemma SelectedAbridges(ms: seq<Message>, lead: nat, cut: nat)
    requires lead <= cut <= |ms|
    ensures Abridges(ms, Selected(ms, lead, cut))
  {
    if lead < cut {
      AbridgesOne(ms, lead);
      AbridgesLonger(ms[..cut], [ms[lead]], lead + 1) by { assert ms[..cut][..lead + 1] == ms[..lead + 1]; }
      AbridgesBefore(ms[..cut], [ms[lead]], ms[cut..]);
      assert ms[..cut] + ms[cut..] == ms;
    } else {
      AbridgesSuffix(ms, cut);
      assert [] + ms[cut..] == ms[cut..];
    }
  }

  lemma RecoveryAbridges(ms: seq<Message>, contextLimit: nat, urgency: Urgency, keepRecent: nat, budget: nat,
                         margin: real)
    requires Recover(ms, contextLimit, urgency, keepRecent, budget, margin).Some?
    ensures Abridges(ms, Recover(ms, contextLimit, urgency, keepRecent, budget, margin).value.messages)
  {
    hide Recover, Abridges;
    var result := Recover(ms, contextLimit, urgency, keepRecent, budget, margin).value.messages;
    RecoveryOnlyCuts(ms, contextLimit, urgency, keepRecent, budget, margin);
    var lead: nat, cut: nat :| DerivedAt(result, ms, lead, cut);
    var selected := Selected(ms, lead, cut);
    SelectedAbridges(ms, lead, cut);
    forall i | 0 <= i < |selected| ensures OnlyToolTextDiffers(selected[i], result[i]) {
      assert SameUpToToolContent(selected[i], result[i]);
    }
    AbridgesSimilar(selected, result);
    AbridgesCompose(ms, selected, result);
  }

  lemma SyncRewritesToolText(session: seq<Message>, resolved: seq<Message>)
    ensures |Synced(session, resolved)| == |session|
    ensures forall i :: 0 <= i < |session| ==> OnlyToolTextDiffers(session[i], Synced(session, resolved)[i])
  {
    SyncExact(session, resolved, |resolved|);
    forall i | 0 <= i < |session| ensures OnlyToolTextDiffers(session[i], Synced(session, resolved)[i]) {
      assert SyncedSlot(session, resolved, Synced(session, resolved), i, |resolved|);
    }
  }

  lemma SyncAbridges(session: seq<Message>, resolved: seq<Message>)
    ensures Abridges(session, Synced(session, resolved))
  {
    hide Abridges;
    SyncRewritesToolText(session, resolved);
    AbridgesSimilar(session, Synced(session, resolved));
  }
}
