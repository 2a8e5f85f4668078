/** The busy-session queue keeps order: what one session queued first is drained and published first. */
module QueueOrder {
  import opened Bytes
  import opened MessageQueue

  // ---- What the steps of a run have moved so far ----

  /** The messages of a session that one step queues. */
  ghost function QueuedIn(s: State, a: Action, key: SessionKey): seq<Inbound> {
    if a.Queue? && a.w < |s.workers| && s.workers[a.w].Queueing? && s.workers[a.w].msg.key == key
    then [s.workers[a.w].msg] else []
  }

  /** The messages of a session that one step takes out of the queue, as the worker holds them afterwards. */
  ghost function DrainedIn(s: State, a: Action, t: State, key: SessionKey): seq<Inbound> {
    if a.TakePending? && a.w < |s.workers| && s.workers[a.w].Releasing? && s.workers[a.w].msg.key == key
       && a.w < |t.workers| && t.workers[a.w].Draining?
    then t.workers[a.w].rest else []
  }

  ghost function Queued(p: Protocol, workers: nat, actions: seq<Action>, n: nat, key: SessionKey): seq<Inbound>
    requires n <= |actions| && After(p, workers, actions, n).Some?
  {
    if n == 0 then []
    else
      var s := After(p, workers, actions, n - 1).value;
      Queued(p, workers, actions, n - 1, key) + QueuedIn(s, actions[n - 1], key)
  }

  ghost function Drained(p: Protocol, workers: nat, actions: seq<Action>, n: nat, key: SessionKey): seq<Inbound>
    requires n <= |actions| && After(p, workers, actions, n).Some?
  {
    if n == 0 then []
    else
      var s, t := After(p, workers, actions, n - 1).value, After(p, workers, actions, n).value;
      Drained(p, workers, actions, n - 1, key) + DrainedIn(s, actions[n - 1], t, key)
  }

  // ---- The queue of one session ----

  /** One step on the queue of one session: at most it appends a message, or empties the queue. */
  lemma QueueStepKeepsOrder(p: Protocol, s: State, a: Action, key: SessionKey)
    requires Apply(p, s, a).Some? && !a.TakePending?
    ensures PendingFor(Apply(p, s, a).value, key) == PendingFor(s, key) + QueuedIn(s, a, key)
  {
    if a.Queue? {
      hide TakeStep, DecideStep, FetchStep, AcquireStep, GiveUpStep, FinishStep, TakePendingStep, PublishStep;
    } else {
      OthersKeepPending(p, s, a);
      hide Apply;
    }
  }

  lemma OthersKeepPending(p: Protocol, s: State, a: Action)
    requires Apply(p, s, a).Some? && !a.TakePending? && !a.Queue?
    ensures Apply(p, s, a).value.pending == s.pending
  {
    hide QueueStep, TakePendingStep, Outgoing;
  }

  lemma TakePendingDrains(p: Protocol, s: State, a: Action, key: SessionKey)
    requires Apply(p, s, a).Some? && a.TakePending?
    ensures var t := Apply(p, s, a).value;
      && a.w < |s.workers| == |t.workers| && s.workers[a.w].Releasing? && t.workers[a.w].Draining?
      && (s.workers[a.w].msg.key == key ==>
            PendingFor(t, key) == [] && t.workers[a.w].rest == Outgoing(p, s.workers[a.w].msg, PendingFor(s, key)))
      && (s.workers[a.w].msg.key != key ==> PendingFor(t, key) == PendingFor(s, key))
  {
    hide Outgoing, TakeStep, DecideStep, QueueStep, FetchStep, AcquireStep, GiveUpStep, FinishStep, PublishStep;
  }

  lemma {:induction false} InputsAppend(a: seq<Inbound>, b: seq<Inbound>)
    ensures Inputs(a + b) == Inputs(a) + Inputs(b)
  {
    hide Inputs;
    if a == [] {
      NoInputs();
      assert a + b == b && [] + Inputs(b) == Inputs(b);
    } else {
      InputsAppend(a[1..], b);
      FirstInputs(a[0], a[1..]);
      FirstInputs(a[0], a[1..] + b);
      assert a == [a[0]] + a[1..] && a + b == [a[0]] + (a[1..] + b);
      Associate(a[0].inputs, Inputs(a[1..]), Inputs(b));
    }
  }

  lemma Associate(a: seq<nat>, b: seq<nat>, c: seq<nat>)
    ensures a + (b + c) == a + b + c
  {
  }

  lemma FirstInputs(m: Inbound, rest: seq<Inbound>)
    ensures Inputs([m] + rest) == m.inputs + Inputs(rest)
  {
    assert ([m] + rest)[1..] == rest;
  }

  lemma OutgoingInputs(p: Protocol, msg: Inbound, taken: seq<Inbound>)
    ensures Inputs(Outgoing(p, msg, taken)) == Inputs(taken)
    ensures p.mode == Followup ==> Outgoing(p, msg, taken) == taken
  {
    if taken != [] && p.mode == Collect {
      var m := Inbound(p.collectedKey(msg), Inputs(taken));
      assert [m][1..] == [] && Inputs([m]) == m.inputs;
    }
  }

  /** One step, message by message. */
  lemma FollowupStep(p: Protocol, s: State, a: Action, key: SessionKey)
    requires p.mode == Followup && Apply(p, s, a).Some?
    ensures var t := Apply(p, s, a).value;
      DrainedIn(s, a, t, key) + PendingFor(t, key) == PendingFor(s, key) + QueuedIn(s, a, key)
  {
    hide Apply, PendingFor;
    if a.TakePending? {
      TakePendingDrains(p, s, a, key);
      OutgoingInputs(p, s.workers[a.w].msg, PendingFor(s, key));
    } else {
      QueueStepKeepsOrder(p, s, a, key);
    }
  }

  /** One step, input by input. */
  lemma AnyStep(p: Protocol, s: State, a: Action, key: SessionKey)
    requires Apply(p, s, a).Some?
    ensures var t := Apply(p, s, a).value;
      Inputs(DrainedIn(s, a, t, key)) + Inputs(PendingFor(t, key))
      == Inputs(PendingFor(s, key)) + Inputs(QueuedIn(s, a, key))
  {
    hide Apply, PendingFor;
    if a.TakePending? {
      TakePendingDrains(p, s, a, key);
      OutgoingInputs(p, s.workers[a.w].msg, PendingFor(s, key));
    } else {
      QueueStepKeepsOrder(p, s, a, key);
      InputsAppend(PendingFor(s, key), QueuedIn(s, a, key));
    }
  }

  /**
   * First in, first out: in Followup mode, what was drained from the queue of a session, in order,
   * followed by what is still pending, is exactly what was queued for it, in order.
   */
  lemma {:induction false} QueueIsFifo(p: Protocol, workers: nat, actions: seq<Action>, n: nat, key: SessionKey)
    requires p.mode == Followup && n <= |actions| && After(p, workers, actions, n).Some?
    ensures Drained(p, workers, actions, n, key) + PendingFor(After(p, workers, actions, n).value, key)
      == Queued(p, workers, actions, n, key)
  {
    hide Apply, QueuedIn, DrainedIn;
    if n > 0 {
      QueueIsFifo(p, workers, actions, n - 1, key);
      var s, t, a := After(p, workers, actions, n - 1).value, After(p, workers, actions, n).value, actions[n - 1];
      FollowupStep(p, s, a, key);
      var drained := Drained(p, workers, actions, n - 1, key);
      assert drained + DrainedIn(s, a, t, key) + PendingFor(t, key)
        == drained + (DrainedIn(s, a, t, key) + PendingFor(t, key));
      assert drained + (PendingFor(s, key) + QueuedIn(s, a, key)) == drained + PendingFor(s, key) + QueuedIn(s, a, key);
    }
  }

  /** In either mode the inputs keep that order; a collected message lists them as they were queued. */
  lemma {:induction false} InputsAreFifo(p: Protocol, workers: nat, actions: seq<Action>, n: nat, key: SessionKey)
    requires n <= |actions| && After(p, workers, actions, n).Some?
    ensures Inputs(Drained(p, workers, actions, n, key)) + Inputs(PendingFor(After(p, workers, actions, n).value, key))
      == Inputs(Queued(p, workers, actions, n, key))
  {
    hide Apply, QueuedIn, DrainedIn, Inputs;
    if n == 0 {
      NoInputs();
    } else {
      InputsAreFifo(p, workers, actions, n - 1, key);
      var s, t, a := After(p, workers, actions, n - 1).value, After(p, workers, actions, n).value, actions[n - 1];
      AnyStep(p, s, a, key);
      var drained, queued := Drained(p, workers, actions, n - 1, key), Queued(p, workers, actions, n - 1, key);
      InputsAppend(drained, DrainedIn(s, a, t, key));
      InputsAppend(queued, QueuedIn(s, a, key));
      Regroup(Inputs(drained), Inputs(DrainedIn(s, a, t, key)), Inputs(PendingFor(t, key)),
              Inputs(PendingFor(s, key)), Inputs(QueuedIn(s, a, key)));
    }
  }

  lemma NoInputs()
    ensures Inputs([]) == []
  {
  }

  lemma Regroup(a: seq<nat>, b: seq<nat>, c: seq<nat>, d: seq<nat>, e: seq<nat>)
    requires b + c == d + e
    ensures a + b + c == a + d + e
  {
    assert a + b + c == a + (b + c) && a + d + e == a + (d + e);
  }

  /** And the inputs of a list of messages are the inputs of each, in turn. */
  lemma InputsInTurn(msgs: seq<Inbound>, m: Inbound)
    ensures Inputs([]) == [] && Inputs([m]) == m.inputs && Inputs(msgs + [m]) == Inputs(msgs) + m.inputs
  {
    assert [m][1..] == [];
    InputsAppend(msgs, [m]);
  }

  // ---- What a worker publishes ----

  /** The message that a step puts back on the bus for worker w. */
  ghost function PublishedIn(s: State, a: Action, w: nat): seq<Inbound> {
    if a == Publish(w) && w < |s.workers| && s.workers[w].Draining? && s.workers[w].rest != []
    then [s.workers[w].rest[0]] else []
  }

  ghost function HeldBack(s: State, w: nat): seq<Inbound> {
    if w < |s.workers| && s.workers[w].Draining? then s.workers[w].rest else []
  }

  ghost function DrainedByIn(a: Action, t: State, w: nat): seq<Inbound> {
    if a == TakePending(w) then HeldBack(t, w) else []
  }

  ghost function PublishedBy(p: Protocol, workers: nat, actions: seq<Action>, n: nat, w: nat): seq<Inbound>
    requires n <= |actions| && After(p, workers, actions, n).Some?
  {
    if n == 0 then []
    else
      PublishedBy(p, workers, actions, n - 1, w)
        + PublishedIn(After(p, workers, actions, n - 1).value, actions[n - 1], w)
  }

  ghost function DrainedBy(p: Protocol, workers: nat, actions: seq<Action>, n: nat, w: nat): seq<Inbound>
    requires n <= |actions| && After(p, workers, actions, n).Some?
  {
    if n == 0 then []
    else
      DrainedBy(p, workers, actions, n - 1, w) + DrainedByIn(actions[n - 1], After(p, workers, actions, n).value, w)
  }

  lemma PublishStepKeepsOrder(p: Protocol, s: State, a: Action, w: nat)
    requires Apply(p, s, a).Some?
    ensures var t := Apply(p, s, a).value;
      PublishedIn(s, a, w) + HeldBack(t, w) == HeldBack(s, w) + DrainedByIn(a, t, w)
  {
    if a.Publish? || a.TakePending? {
      hide TakeStep, DecideStep, QueueStep, FetchStep, AcquireStep, GiveUpStep, FinishStep, Outgoing, PendingFor;
    } else {
      OthersHoldBack(p, s, a, w);
      hide Apply, HeldBack;
    }
  }

  lemma OthersHoldBack(p: Protocol, s: State, a: Action, w: nat)
    requires Apply(p, s, a).Some? && !a.Publish? && !a.TakePending?
    ensures HeldBack(Apply(p, s, a).value, w) == HeldBack(s, w)
  {
    if !a.Arrive? {
      StepMovesOne(p, s, a);
      OthersDrainNothing(p, s, a);
      hide Apply;
    }
  }

  lemma OthersDrainNothing(p: Protocol, s: State, a: Action)
    requires Apply(p, s, a).Some? && !a.Arrive? && !a.Publish? && !a.TakePending?
    ensures HeldBack(s, a.w) == [] && HeldBack(Apply(p, s, a).value, a.w) == []
  {
    hide PublishStep, TakePendingStep, PendingFor;
  }

  /** A worker publishes what it drained in the order in which it was drained. */
  lemma {:induction false} PublishingKeepsOrder(p: Protocol, workers: nat, actions: seq<Action>, n: nat, w: nat)
    requires n <= |actions| && After(p, workers, actions, n).Some?
    ensures PublishedBy(p, workers, actions, n, w) + HeldBack(After(p, workers, actions, n).value, w)
      == DrainedBy(p, workers, actions, n, w)
  {
    hide Apply, PublishedIn, HeldBack, DrainedByIn;
    if n == 0 {
      StartHoldsBackNothing(workers, w);
    } else {
      PublishingKeepsOrder(p, workers, actions, n - 1, w);
      var s, t, a := After(p, workers, actions, n - 1).value, After(p, workers, actions, n).value, actions[n - 1];
      PublishStepKeepsOrder(p, s, a, w);
      var published := PublishedBy(p, workers, actions, n - 1, w);
      assert published + PublishedIn(s, a, w) + HeldBack(t, w) == published + (PublishedIn(s, a, w) + HeldBack(t, w));
      assert published + (HeldBack(s, w) + DrainedByIn(a, t, w)) == published + HeldBack(s, w) + DrainedByIn(a, t, w);
    }
  }

  lemma StartHoldsBackNothing(workers: nat, w: nat)
    ensures HeldBack(Start(workers), w) == []
  {
  }

  // ---- The bus ----

  ghost function BusIn(s: State, a: Action): seq<Inbound> {
    match a
    case Arrive(msg) => [msg]
    case Publish(w) => PublishedIn(s, a, w)
    case _ => []
  }

  /** The message that a step takes from the bus, as the worker holds it afterwards. */
  ghost function BusOut(a: Action, t: State): seq<Inbound> {
    if a.Take? && a.w < |t.workers| && t.workers[a.w].Deciding? then [t.workers[a.w].msg] else []
  }

  ghost function Arrived(p: Protocol, workers: nat, actions: seq<Action>, n: nat): seq<Inbound>
    requires n <= |actions| && After(p, workers, actions, n).Some?
  {
    if n == 0 then []
    else Arrived(p, workers, actions, n - 1) + BusIn(After(p, workers, actions, n - 1).value, actions[n - 1])
  }

  ghost function Consumed(p: Protocol, workers: nat, actions: seq<Action>, n: nat): seq<Inbound>
    requires n <= |actions| && After(p, workers, actions, n).Some?
  {
    if n == 0 then []
    else Consumed(p, workers, actions, n - 1) + BusOut(actions[n - 1], After(p, workers, actions, n).value)
  }

  lemma BusStepKeepsOrder(p: Protocol, s: State, a: Action)
    requires Apply(p, s, a).Some?
    ensures var t := Apply(p, s, a).value; BusOut(a, t) + t.bus == s.bus + BusIn(s, a)
  {
    hide Outgoing, PendingFor;
  }

  /** Messages leave the bus in the order in which they arrived or were published. */
  lemma {:induction false} BusIsFifo(p: Protocol, workers: nat, actions: seq<Action>, n: nat)
    requires n <= |actions| && After(p, workers, actions, n).Some?
    ensures Consumed(p, workers, actions, n) + After(p, workers, actions, n).value.bus
      == Arrived(p, workers, actions, n)
  {
    hide Apply, BusIn, BusOut;
    if n > 0 {
      BusIsFifo(p, workers, actions, n - 1);
      var s, t, a := After(p, workers, actions, n - 1).value, After(p, workers, actions, n).value, actions[n - 1];
      BusStepKeepsOrder(p, s, a);
      var consumed := Consumed(p, workers, actions, n - 1);
      assert consumed + BusOut(a, t) + t.bus == consumed + (BusOut(a, t) + t.bus);
      assert consumed + (s.bus + BusIn(s, a)) == consumed + s.bus + BusIn(s, a);
    }
  }
}
