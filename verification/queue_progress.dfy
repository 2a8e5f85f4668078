/** The busy-session queue can always finish: a schedule that leads to rest with everything processed. */
module QueueProgress {
  import opened Bytes
  import opened MessageQueue

  /** Whatever is queued, or about to be, has a worker that will drain it. */
  ghost predicate Served(s: State) {
    && Attended(s)
    && forall w :: 0 <= w < |s.workers| && s.workers[w].Queueing? ==> HasDrainer(s, s.workers[w].msg.key)
  }

  ghost predicate Ready(s: State) { LocksConsistent(s) && Served(s) && s.workers != [] }

  predicate NoQueueing(s: State) { forall w :: 0 <= w < |s.workers| ==> !s.workers[w].Queueing? }

  // ---- What is left to do ----

  function Sum(workers: seq<Stage>, weight: Stage -> nat, n: nat): nat
    requires n <= |workers|
  {
    if n == 0 then 0 else Sum(workers, weight, n - 1) + weight(workers[n - 1])
  }

  lemma {:induction false} SumMoved(workers: seq<Stage>, weight: Stage -> nat, w: nat, stage: Stage, n: nat)
    requires w < |workers| && n <= |workers|
    ensures Sum(workers[w := stage], weight, n) + (if w < n then weight(workers[w]) else 0)
      == Sum(workers, weight, n) + (if w < n then weight(stage) else 0)
  {
    if n > 0 { SumMoved(workers, weight, w, stage, n - 1); }
  }

  function AtQueueing(stage: Stage): nat { if stage.Queueing? then 1 else 0 }

  /** How many steps a worker is from being idle, counting what it puts back on the bus. */
  function Distance(stage: Stage): nat {
    match stage
    case Idle => 0
    case Deciding(_) => 7
    case Queueing(_) => 0
    case Free(_) => 6
    case Waiting(_, _) => 5
    case Processing(_, _) => 4
    case Releasing(_) => 3
    case Draining(rest) => 2 + 9 * |rest|
  }

  function QueueingLeft(s: State): nat { Sum(s.workers, AtQueueing, |s.workers|) }

  function StepsLeft(s: State): nat { Sum(s.workers, Distance, |s.workers|) + 8 * |s.bus| }

  /** A step makes less of something that comes first: messages to queue, keys with queued messages, steps. */
  ghost predicate Less(t: State, s: State) {
    || QueueingLeft(t) < QueueingLeft(s)
    || (QueueingLeft(t) == QueueingLeft(s) && |t.pending| < |s.pending|)
    || (QueueingLeft(t) == QueueingLeft(s) && |t.pending| == |s.pending| && StepsLeft(t) < StepsLeft(s))
  }

  lemma {:induction false} NothingQueueing(workers: seq<Stage>, n: nat)
    requires n <= |workers|
    ensures Sum(workers, AtQueueing, n) == 0 <==> forall w :: 0 <= w < n ==> !workers[w].Queueing?
  {
    if n > 0 { NothingQueueing(workers, n - 1); }
  }

  // ---- One step ----

  lemma DrainerPersists(p: Protocol, s: State, a: Action, key: SessionKey)
    requires a.Queue? && Apply(p, s, a).Some? && HasDrainer(s, key)
    ensures HasDrainer(Apply(p, s, a).value, key)
  {
    hide TakeStep, DecideStep, FetchStep, AcquireStep, GiveUpStep, FinishStep, TakePendingStep, PublishStep;
    var w :| 0 <= w < |s.workers| && WillDrain(s.workers[w], key);
    assert WillDrain(Apply(p, s, a).value.workers[w], key);
  }

  lemma QueueStepIsLess(p: Protocol, s: State, w: nat)
    requires Ready(s) && w < |s.workers| && s.workers[w].Queueing?
    ensures Apply(p, s, Queue(w)).Some?
    ensures var t := Apply(p, s, Queue(w)).value; Ready(t) && Less(t, s) && t.accepted == s.accepted
  {
    var a, t := Queue(w), Apply(p, s, Queue(w)).value;
    StepKeepsLocks(p, s, a);
    SumMoved(s.workers, AtQueueing, w, Idle, |s.workers|);
    assert HasDrainer(s, s.workers[w].msg.key);
    StrandsIff(p, s, a);
    assert t.workers == s.workers[w := Idle];
    forall v | 0 <= v < |t.workers| && t.workers[v].Queueing? ensures HasDrainer(t, t.workers[v].msg.key) {
      DrainerPersists(p, s, a, s.workers[v].msg.key);
    }
  }

  /** The steps the schedule takes when nothing is about to be queued. */
  ghost predicate Chosen(s: State, a: Action) {
    !a.Arrive? && !a.Queue? && !a.GiveUp? && (a.Decide? ==> s.held == map[])
  }

  /** What such a step does to the worker that takes it, to the queued messages and to the bus. */
  lemma ChosenStep(p: Protocol, s: State, a: Action)
    requires Chosen(s, a) && Apply(p, s, a).Some?
    ensures var t := Apply(p, s, a).value;
      && a.w < |s.workers| && t.workers == s.workers[a.w := t.workers[a.w]]
      && !t.workers[a.w].Queueing? && t.accepted == s.accepted
  {
    hide Outgoing, PendingFor, QueueStep, GiveUpStep;
  }

  lemma TakePendingEffect(p: Protocol, s: State, a: Action)
    requires a.TakePending? && Apply(p, s, a).Some?
    ensures var t, key := Apply(p, s, a).value, s.workers[a.w].msg.key;
      && a.w < |s.workers| && s.workers[a.w].Releasing? && t.pending == s.pending - {key} && t.bus == s.bus
      && (key !in s.pending ==> t.workers == s.workers[a.w := Draining([])])
  {
    hide TakeStep, DecideStep, QueueStep, FetchStep, AcquireStep, GiveUpStep, FinishStep, PublishStep;
  }

  lemma FewerPendingIsLess(s: State, t: State, key: SessionKey)
    requires NoQueueing(s) && NoQueueing(t) && key in s.pending && t.pending == s.pending - {key}
    ensures Less(t, s)
  {
    hide StepsLeft;
    NothingQueueing(s.workers, |s.workers|);
    NothingQueueing(t.workers, |t.workers|);
    FewerKeys(s.pending, key);
  }

  lemma CloserIsLess(s: State, t: State, w: nat)
    requires NoQueueing(s) && NoQueueing(t) && t.pending == s.pending
    requires w < |s.workers| == |t.workers| && t.workers == s.workers[w := t.workers[w]]
    requires Distance(t.workers[w]) + 8 * |t.bus| < Distance(s.workers[w]) + 8 * |s.bus|
    ensures Less(t, s)
  {
    NothingQueueing(s.workers, |s.workers|);
    NothingQueueing(t.workers, |t.workers|);
    SumMoved(s.workers, Distance, w, t.workers[w], |s.workers|);
  }

  lemma TakePendingIsLess(p: Protocol, s: State, a: Action)
    requires a.TakePending? && Apply(p, s, a).Some? && NoQueueing(s) && NoQueueing(Apply(p, s, a).value)
    ensures Less(Apply(p, s, a).value, s)
  {
    TakePendingEffect(p, s, a);
    hide Apply, Less, NoQueueing;
    var t, key := Apply(p, s, a).value, s.workers[a.w].msg.key;
    if key in s.pending {
      FewerPendingIsLess(s, t, key);
    } else {
      assert t.pending == s.pending;
      CloserIsLess(s, t, a.w);
    }
  }

  lemma FewerKeys(pending: map<SessionKey, seq<Inbound>>, key: SessionKey)
    requires key in pending
    ensures |pending - {key}| < |pending|
  {
    assert pending == (pending - {key})[key := pending[key]];
    assert (pending - {key}).Keys == pending.Keys - {key};
    assert |(pending - {key}).Keys| == |pending.Keys| - 1;
  }

  lemma OtherStepIsLess(p: Protocol, s: State, a: Action)
    requires Chosen(s, a) && !a.TakePending? && Apply(p, s, a).Some?
    requires NoQueueing(s) && NoQueueing(Apply(p, s, a).value)
    ensures Less(Apply(p, s, a).value, s)
  {
    ChosenStep(p, s, a);
    OtherStepComesCloser(p, s, a);
    hide Apply, Less, NoQueueing;
    CloserIsLess(s, Apply(p, s, a).value, a.w);
  }

  lemma OtherStepComesCloser(p: Protocol, s: State, a: Action)
    requires Chosen(s, a) && !a.TakePending? && Apply(p, s, a).Some?
    ensures var t := Apply(p, s, a).value;
      && a.w < |s.workers| == |t.workers| && t.pending == s.pending
      && Distance(t.workers[a.w]) + 8 * |t.bus| < Distance(s.workers[a.w]) + 8 * |s.bus|
  {
    hide Outgoing, PendingFor, QueueStep, GiveUpStep, TakePendingStep;
  }

  lemma ChosenStepIsLess(p: Protocol, s: State, a: Action)
    requires Ready(s) && NoQueueing(s) && Chosen(s, a) && Apply(p, s, a).Some?
    ensures var t := Apply(p, s, a).value; Ready(t) && Less(t, s) && t.accepted == s.accepted
  {
    ChosenStep(p, s, a);
    StepKeepsLocks(p, s, a);
    StrandsIff(p, s, a);
    hide Apply, LocksConsistent, Attended, Less, Chosen;
    if a.TakePending? { TakePendingIsLess(p, s, a); } else { OtherStepIsLess(p, s, a); }
  }

  // ---- The schedule ----

  /** With no worker processing, no lock is held. */
  lemma NothingIsHeld(s: State)
    requires HeldConsistent(s) && forall w :: 0 <= w < |s.workers| ==> !s.workers[w].Processing?
    ensures s.held == map[]
  {
    assert forall lock :: lock !in s.held;
  }

  predicate Rests(stage: Stage) { stage.Idle? || stage.Deciding? || stage.Waiting? }

  /** The step of a worker that is not waiting for anything. */
  function OwnStep(w: nat, stage: Stage): Action
    requires !Rests(stage) && !stage.Queueing?
  {
    match stage
    case Free(_) => Fetch(w)
    case Processing(_, _) => Finish(w)
    case Releasing(_) => TakePending(w)
    case Draining(rest) => if rest == [] then Done(w) else Publish(w)
  }

  lemma NextAction(p: Protocol, s: State) returns (a: Action)
    requires Ready(s) && NoQueueing(s) && !Quiescent(s)
    ensures Chosen(s, a) && Apply(p, s, a).Some?
  {
    if w :| 0 <= w < |s.workers| && !Rests(s.workers[w]) {
      a := OwnStep(w, s.workers[w]);
    } else {
      NothingIsHeld(s);
      if w :| 0 <= w < |s.workers| && s.workers[w].Waiting? {
        a := Acquire(w);
      } else if w :| 0 <= w < |s.workers| && s.workers[w].Deciding? {
        a := Decide(w);
      } else {
        a := Take(0);
      }
    }
  }

  lemma NextStep(p: Protocol, s: State) returns (a: Action)
    requires Ready(s) && !Quiescent(s)
    ensures !a.Arrive? && Apply(p, s, a).Some?
    ensures var t := Apply(p, s, a).value; Ready(t) && Less(t, s) && t.accepted == s.accepted
  {
    if w :| 0 <= w < |s.workers| && s.workers[w].Queueing? {
      a := Queue(w);
      QueueStepIsLess(p, s, w);
    } else {
      a := NextAction(p, s);
      ChosenStepIsLess(p, s, a);
    }
  }

  /** After the actions so far, the schedule leads to rest without any further arrival. */
  lemma {:induction false} LeadToRest(p: Protocol, workers: nat, actions: seq<Action>, s: State)
    returns (more: seq<Action>, t: State)
    requires After(p, workers, actions, |actions|) == Some(s) && Ready(s)
    ensures After(p, workers, actions + more, |actions + more|) == Some(t)
    ensures Ready(t) && Quiescent(t) && t.accepted == s.accepted
    ensures forall i :: 0 <= i < |more| ==> !more[i].Arrive?
    decreases QueueingLeft(s), |s.pending|, StepsLeft(s)
  {
    hide Apply, Ready, Quiescent;
    if Quiescent(s) {
      more, t := [], s;
      assert actions + more == actions;
    } else {
      var a := NextStep(p, s);
      var longer := actions + [a];
      AfterLonger(p, workers, actions, a);
      more, t := LeadToRest(p, workers, longer, Apply(p, s, a).value);
      assert longer + more == actions + ([a] + more);
      more := [a] + more;
    }
  }

  lemma {:induction false} AfterPrefix(p: Protocol, workers: nat, actions: seq<Action>, a: Action, n: nat)
    requires n <= |actions|
    ensures After(p, workers, actions + [a], n) == After(p, workers, actions, n)
  {
    hide Apply;
    if n > 0 { AfterPrefix(p, workers, actions, a, n - 1); }
  }

  lemma AfterLonger(p: Protocol, workers: nat, actions: seq<Action>, a: Action)
    requires After(p, workers, actions, |actions|).Some?
    ensures After(p, workers, actions + [a], |actions + [a]|)
      == Apply(p, After(p, workers, actions, |actions|).value, a)
  {
    hide Apply;
    AfterPrefix(p, workers, actions, a, |actions|);
  }

  // ---- At rest ----

  lemma {:induction false} NothingPending(pending: map<SessionKey, seq<Inbound>>, keys: set<SessionKey>, x: nat)
    requires keys <= pending.Keys && forall key :: key in keys ==> pending[key] == []
    ensures CountPending(pending, keys, x) == 0
    decreases keys
  {
    if keys != {} {
      var key :| key in keys;
      PendingPick(pending, keys, key, x);
      NothingPending(pending, keys - {key}, x);
    }
  }

  /** At rest, with nothing stranded, everything that was accepted has been processed. */
  lemma RestIsComplete(s: State)
    requires Quiescent(s) && Attended(s) && Conserved(s)
    ensures s.processed == s.accepted
    ensures forall key :: PendingFor(s, key) == []
  {
    forall key ensures PendingFor(s, key) == [] {
      assert !HasDrainer(s, key);
    }
    forall x: nat ensures s.processed[x] == s.accepted[x] {
      assert forall key :: key in s.pending ==> PendingFor(s, key) == s.pending[key];
      NothingPending(s.pending, s.pending.Keys, x);
      IdleHoldsNothing(s.workers, |s.workers|, x);
      assert s.accepted[x] == Located(s, x);
    }
  }

  /**
   * From every reachable state in which whatever is queued has a drainer, the workers can bring the
   * runtime to rest without a timeout, with every accepted input processed.
   */
  lemma CanAlwaysFinish(p: Protocol, workers: nat, actions: seq<Action>) returns (more: seq<Action>, t: State)
    requires workers > 0 && After(p, workers, actions, |actions|).Some?
    requires Served(After(p, workers, actions, |actions|).value)
    ensures After(p, workers, actions + more, |actions + more|) == Some(t)
    ensures forall i :: 0 <= i < |more| ==> !more[i].Arrive?
    ensures Quiescent(t) && t.processed == t.accepted == After(p, workers, actions, |actions|).value.accepted
    ensures forall key :: PendingFor(t, key) == []
  {
    hide Apply, LocksConsistent, Conserved;
    var s := After(p, workers, actions, |actions|).value;
    LocksStayConsistent(p, workers, actions, |actions|);
    WorkersStay(p, workers, actions, |actions|);
    more, t := LeadToRest(p, workers, actions, s);
    NothingLostOrDuplicated(p, workers, actions + more, |actions + more|);
    RestIsComplete(t);
  }

  lemma {:induction false} WorkersStay(p: Protocol, workers: nat, actions: seq<Action>, n: nat)
    requires n <= |actions| && After(p, workers, actions, n).Some?
    ensures |After(p, workers, actions, n).value.workers| == workers
  {
    hide Apply;
    if n > 0 {
      WorkersStay(p, workers, actions, n - 1);
      SameWorkers(p, After(p, workers, actions, n - 1).value, actions[n - 1]);
    }
  }
}
