/**
 * The busy-session queue as an interleaved protocol. Any number of workers take messages from the
 * bus; each await point of the runtime is a step of its own, so every interleaving is covered. The
 * bus is never closed.
 */
module MessageQueue {
  import opened Bytes

  // Only the identity of a session matters here.
  type SessionKey = nat

  // A message and the user inputs it carries; a collected message carries several.
  datatype Inbound = Inbound(key: SessionKey, inputs: seq<nat>)

  datatype QueueMode = Collect | Followup

  datatype Stage =
    | Idle
    | Deciding(msg: Inbound)                // taken from the bus, busy check still to come
    | Queueing(msg: Inbound)                // found the session busy, not yet in the pending map
    | Free(msg: Inbound)                    // found the session free, will process
    | Waiting(msg: Inbound, lock: nat)      // has the session's lock handle, waits for the lock
    | Processing(msg: Inbound, lock: nat)   // holds the lock
    | Releasing(msg: Inbound)               // lock dropped, pending messages not yet taken
    | Draining(rest: seq<Inbound>)          // puts taken messages back on the bus

  datatype State = State(
    bus: seq<Inbound>,
    pending: map<SessionKey, seq<Inbound>>,
    workers: seq<Stage>,
    lockTable: map<SessionKey, nat>,  // session_locks: one lock per key, entries are never replaced
    nextLock: nat,
    held: map<nat, nat>,              // lock -> worker that holds it
    processed: multiset<nat>,
    accepted: multiset<nat>)

  datatype Action =
    | Arrive(msg: Inbound)
    | Take(w: nat) | Decide(w: nat) | Queue(w: nat) | Fetch(w: nat) | Acquire(w: nat) | GiveUp(w: nat)
    | Finish(w: nat) | TakePending(w: nat) | Publish(w: nat) | Done(w: nat)

  datatype Protocol = Protocol(mode: QueueMode, collectedKey: Inbound -> SessionKey)

  function Inputs(msgs: seq<Inbound>): seq<nat> {
    if msgs == [] then [] else msgs[0].inputs + Inputs(msgs[1..])
  }

  function PendingFor(s: State, key: SessionKey): seq<Inbound> { if key in s.pending then s.pending[key] else [] }

  /** What a drain publishes: the queued messages themselves, or one message that lists them all. */
  function Outgoing(p: Protocol, msg: Inbound, taken: seq<Inbound>): seq<Inbound> {
    if taken == [] then []
    else match p.mode
      case Followup => taken
      case Collect => [Inbound(p.collectedKey(msg), Inputs(taken))]
  }

  /** session_lock_for: the table with an entry for the key. */
  function WithLock(s: State, key: SessionKey): State {
    if key in s.lockTable then s
    else s.(lockTable := s.lockTable[key := s.nextLock], nextLock := s.nextLock + 1)
  }

  function Move(s: State, w: nat, stage: Stage): State
    requires w < |s.workers|
  {
    s.(workers := s.workers[w := stage])
  }

  /** One step, or None when the action is not enabled. */
  function Apply(p: Protocol, s: State, a: Action): Option<State> {
    if a.Arrive? then Some(s.(bus := s.bus + [a.msg], accepted := s.accepted + multiset(a.msg.inputs)))
    else if a.w >= |s.workers| then None
    else
      var stage := s.workers[a.w];
      match a
      case Take(w) => if stage.Idle? && s.bus != [] then Some(TakeStep(s, w)) else None
      case Decide(w) => if stage.Deciding? then Some(DecideStep(s, w, stage.msg)) else None
      case Queue(w) => if stage.Queueing? then Some(QueueStep(s, w, stage.msg)) else None
      case Fetch(w) => if stage.Free? then Some(FetchStep(s, w, stage.msg)) else None
      case Acquire(w) =>
        if stage.Waiting? && stage.lock !in s.held then Some(AcquireStep(s, w, stage.msg, stage.lock)) else None
      case GiveUp(w) => if stage.Waiting? then Some(GiveUpStep(s, w, stage.msg)) else None
      case Finish(w) => if stage.Processing? then Some(FinishStep(s, w, stage.msg, stage.lock)) else None
      case TakePending(w) => if stage.Releasing? then Some(TakePendingStep(p, s, w, stage.msg)) else None
      case Publish(w) =>
        if stage.Draining? && stage.rest != [] then Some(PublishStep(s, w, stage.rest)) else None
      case Done(w) => if stage.Draining? && stage.rest == [] then Some(Move(s, w, Idle)) else None
  }

  function TakeStep(s: State, w: nat): State
    requires w < |s.workers| && s.bus != []
  {
    Move(s, w, Deciding(s.bus[0])).(bus := s.bus[1..])
  }

  function DecideStep(s: State, w: nat, msg: Inbound): State
    requires w < |s.workers|
  {
    var t := WithLock(s, msg.key);
    Move(t, w, if t.lockTable[msg.key] in t.held then Queueing(msg) else Free(msg))
  }

  function QueueStep(s: State, w: nat, msg: Inbound): State
    requires w < |s.workers|
  {
    Move(s, w, Idle).(pending := s.pending[msg.key := PendingFor(s, msg.key) + [msg]])
  }

  function FetchStep(s: State, w: nat, msg: Inbound): State
    requires w < |s.workers|
  {
    var t := WithLock(s, msg.key);
    Move(t, w, Waiting(msg, t.lockTable[msg.key]))
  }

  function AcquireStep(s: State, w: nat, msg: Inbound, lock: nat): State
    requires w < |s.workers|
  {
    Move(s, w, Processing(msg, lock)).(held := s.held[lock := w])
  }

  /** The run's timeout also covers the wait for the lock. */
  function GiveUpStep(s: State, w: nat, msg: Inbound): State
    requires w < |s.workers|
  {
    Move(s, w, Releasing(msg)).(processed := s.processed + multiset(msg.inputs))
  }

  function FinishStep(s: State, w: nat, msg: Inbound, lock: nat): State
    requires w < |s.workers|
  {
    Move(s, w, Releasing(msg)).(held := s.held - {lock}, processed := s.processed + multiset(msg.inputs))
  }

  function TakePendingStep(p: Protocol, s: State, w: nat, msg: Inbound): State
    requires w < |s.workers|
  {
    Move(s, w, Draining(Outgoing(p, msg, PendingFor(s, msg.key)))).(pending := s.pending - {msg.key})
  }

  function PublishStep(s: State, w: nat, rest: seq<Inbound>): State
    requires w < |s.workers| && rest != []
  {
    Move(s, w, Draining(rest[1..])).(bus := s.bus + [rest[0]])
  }

  function Start(workers: nat): State {
    State([], map[], seq(workers, _ => Idle), map[], 0, map[], multiset{}, multiset{})
  }

  /** The state after the first n actions, while all of them were enabled. */
  function After(p: Protocol, workers: nat, actions: seq<Action>, n: nat): Option<State>
    requires n <= |actions|
  {
    if n == 0 then Some(Start(workers))
    else
      match After(p, workers, actions, n - 1)
      case None => None
      case Some(s) => Apply(p, s, actions[n - 1])
  }

  // ---- Conservation ----

  function CountIn(msgs: seq<Inbound>, x: nat): nat {
    if msgs == [] then 0 else multiset(msgs[0].inputs)[x] + CountIn(msgs[1..], x)
  }

  function CountAt(stage: Stage, x: nat): nat {
    match stage
    case Idle => 0
    case Releasing(_) => 0
    case Draining(rest) => CountIn(rest, x)
    case _ => multiset(stage.msg.inputs)[x]
  }

  function CountWorkers(workers: seq<Stage>, n: nat, x: nat): nat
    requires n <= |workers|
  {
    if n == 0 then 0 else CountWorkers(workers, n - 1, x) + CountAt(workers[n - 1], x)
  }

  ghost function CountPending(pending: map<SessionKey, seq<Inbound>>, keys: set<SessionKey>, x: nat): nat
    requires keys <= pending.Keys
  {
    if keys == {} then 0
    else
      var key :| key in keys;
      CountIn(pending[key], x) + CountPending(pending, keys - {key}, x)
  }

  /** As multisets: accepted = processed + on the bus + pending + in the workers' hands. */
  ghost predicate Conserved(s: State) {
    forall x: nat :: s.accepted[x] == Located(s, x)
  }

  ghost function Located(s: State, x: nat): nat { Loose(s, x) + CountWorkers(s.workers, |s.workers|, x) }

  /** Outside the workers' hands. */
  ghost function Loose(s: State, x: nat): nat {
    s.processed[x] + CountIn(s.bus, x) + CountPending(s.pending, s.pending.Keys, x)
  }

  lemma {:induction false} CountAppend(a: seq<Inbound>, m: Inbound, x: nat)
    ensures CountIn(a + [m], x) == CountIn(a, x) + multiset(m.inputs)[x]
  {
    if a == [] {
      assert a + [m] == [m] && [m][1..] == [];
    } else {
      CountAppend(a[1..], m, x);
      assert (a + [m])[1..] == a[1..] + [m];
    }
  }

  lemma {:induction false} CountMoved(workers: seq<Stage>, w: nat, stage: Stage, n: nat, x: nat)
    requires w < |workers| && n <= |workers|
    ensures CountWorkers(workers[w := stage], n, x) + (if w < n then CountAt(workers[w], x) else 0)
      == CountWorkers(workers, n, x) + (if w < n then CountAt(stage, x) else 0)
  {
    if n > 0 { CountMoved(workers, w, stage, n - 1, x); }
  }

  lemma {:induction false} PendingPick(pending: map<SessionKey, seq<Inbound>>, keys: set<SessionKey>, key: SessionKey,
                                       x: nat)
    requires key in keys && keys <= pending.Keys
    ensures CountPending(pending, keys, x) == CountIn(pending[key], x) + CountPending(pending, keys - {key}, x)
    decreases keys
  {
    var other :| other in keys
      && CountPending(pending, keys, x) == CountIn(pending[other], x) + CountPending(pending, keys - {other}, x);
    if other != key {
      PendingPick(pending, keys - {other}, key, x);
      PendingPick(pending, keys - {key}, other, x);
      assert keys - {other} - {key} == keys - {key} - {other};
    }
  }

  lemma {:induction false} PendingAgree(a: map<SessionKey, seq<Inbound>>, b: map<SessionKey, seq<Inbound>>,
                                        keys: set<SessionKey>, x: nat)
    requires keys <= a.Keys && keys <= b.Keys && forall key :: key in keys ==> a[key] == b[key]
    ensures CountPending(a, keys, x) == CountPending(b, keys, x)
    decreases keys
  {
    if keys != {} {
      var key :| key in keys;
      PendingPick(a, keys, key, x);
      PendingPick(b, keys, key, x);
      PendingAgree(a, b, keys - {key}, x);
    }
  }

  /** Everything but one key's messages. */
  lemma PendingWithout(s: State, key: SessionKey, x: nat)
    ensures CountPending(s.pending, s.pending.Keys, x)
      == CountIn(PendingFor(s, key), x) + CountPending(s.pending, s.pending.Keys - {key}, x)
  {
    if key in s.pending {
      PendingPick(s.pending, s.pending.Keys, key, x);
    } else {
      assert s.pending.Keys - {key} == s.pending.Keys;
    }
  }

  lemma PendingPush(s: State, msg: Inbound, x: nat)
    ensures var pushed := s.pending[msg.key := PendingFor(s, msg.key) + [msg]];
      CountPending(pushed, pushed.Keys, x) == CountPending(s.pending, s.pending.Keys, x) + multiset(msg.inputs)[x]
  {
    var pushed := s.pending[msg.key := PendingFor(s, msg.key) + [msg]];
    PendingWithout(s, msg.key, x);
    PendingPick(pushed, pushed.Keys, msg.key, x);
    assert pushed.Keys - {msg.key} == s.pending.Keys - {msg.key};
    PendingAgree(s.pending, pushed, s.pending.Keys - {msg.key}, x);
    CountAppend(PendingFor(s, msg.key), msg, x);
  }

  lemma PendingTake(s: State, key: SessionKey, x: nat)
    ensures CountPending(s.pending, s.pending.Keys, x)
      == CountIn(PendingFor(s, key), x) + CountPending(s.pending - {key}, (s.pending - {key}).Keys, x)
  {
    PendingWithout(s, key, x);
    assert (s.pending - {key}).Keys == s.pending.Keys - {key};
    PendingAgree(s.pending, s.pending - {key}, s.pending.Keys - {key}, x);
  }

  lemma {:induction false} CountOfInputs(msgs: seq<Inbound>, x: nat)
    ensures multiset(Inputs(msgs))[x] == CountIn(msgs, x)
  {
    if msgs != [] { CountOfInputs(msgs[1..], x); }
  }

  lemma OutgoingKeepsCount(p: Protocol, msg: Inbound, taken: seq<Inbound>, x: nat)
    ensures CountIn(Outgoing(p, msg, taken), x) == CountIn(taken, x)
  {
    if taken != [] && p.mode == Collect {
      CountOfInputs(taken, x);
      var m := Inbound(p.collectedKey(msg), Inputs(taken));
      assert [m][1..] == [] && CountIn([m], x) == multiset(m.inputs)[x];
    }
  }

  lemma StepMovesOne(p: Protocol, s: State, a: Action)
    requires Apply(p, s, a).Some? && !a.Arrive?
    ensures var t := Apply(p, s, a).value;
      a.w < |s.workers| == |t.workers| && t.workers == s.workers[a.w := t.workers[a.w]]
  {
    hide Outgoing, PendingFor;
  }

  /** What a step does to the inputs outside the workers' hands, and to those in the hands of the one that takes it. */
  ghost predicate MovesInputs(p: Protocol, s: State, a: Action, x: nat)
    requires Apply(p, s, a).Some? && !a.Arrive?
  {
    var t := Apply(p, s, a).value;
    && a.w < |s.workers| == |t.workers|
    && Loose(t, x) + CountAt(t.workers[a.w], x) == Loose(s, x) + CountAt(s.workers[a.w], x)
  }

  lemma QueueMovesInputs(p: Protocol, s: State, a: Action, x: nat)
    requires a.Queue? && Apply(p, s, a).Some?
    ensures MovesInputs(p, s, a, x)
  {
    hide CountPending, PendingFor, TakeStep, DecideStep, FetchStep;
    hide AcquireStep, GiveUpStep, FinishStep, TakePendingStep, PublishStep;
    PendingPush(s, s.workers[a.w].msg, x);
  }

  lemma TakePendingMovesInputs(p: Protocol, s: State, a: Action, x: nat)
    requires a.TakePending? && Apply(p, s, a).Some?
    ensures MovesInputs(p, s, a, x)
  {
    hide CountPending, Outgoing, PendingFor;
    hide TakeStep, DecideStep, QueueStep, FetchStep, AcquireStep, GiveUpStep, FinishStep, PublishStep;
    PendingTake(s, s.workers[a.w].msg.key, x);
    OutgoingKeepsCount(p, s.workers[a.w].msg, PendingFor(s, s.workers[a.w].msg.key), x);
  }

  lemma PublishMovesInputs(p: Protocol, s: State, a: Action, x: nat)
    requires a.Publish? && Apply(p, s, a).Some?
    ensures MovesInputs(p, s, a, x)
  {
    hide CountPending, TakeStep, DecideStep, QueueStep, FetchStep, AcquireStep, GiveUpStep, FinishStep, TakePendingStep;
    CountAppend(s.bus, s.workers[a.w].rest[0], x);
  }

  lemma OthersMoveInputs(p: Protocol, s: State, a: Action, x: nat)
    requires !a.Arrive? && !a.Queue? && !a.TakePending? && !a.Publish? && Apply(p, s, a).Some?
    ensures MovesInputs(p, s, a, x)
  {
    hide CountPending, QueueStep, TakePendingStep, PublishStep;
  }

  lemma StepMovesInputs(p: Protocol, s: State, a: Action, x: nat)
    requires Apply(p, s, a).Some? && !a.Arrive?
    ensures MovesInputs(p, s, a, x)
  {
    hide MovesInputs, Apply;
    match a {
      case Queue(_) => QueueMovesInputs(p, s, a, x);
      case TakePending(_) => TakePendingMovesInputs(p, s, a, x);
      case Publish(_) => PublishMovesInputs(p, s, a, x);
      case _ => OthersMoveInputs(p, s, a, x);
    }
  }

  /** Every step, whoever takes it, keeps every input where it is or moves it to one other place. */
  lemma StepConserves(p: Protocol, s: State, a: Action, x: nat)
    requires Apply(p, s, a).Some?
    ensures var t := Apply(p, s, a).value;
      Located(t, x) == Located(s, x) + if a.Arrive? then multiset(a.msg.inputs)[x] else 0
  {
    if a.Arrive? {
      hide CountPending, CountWorkers;
      CountAppend(s.bus, a.msg, x);
    } else {
      hide Apply, CountPending, CountWorkers, CountAt, CountIn;
      var t := Apply(p, s, a).value;
      StepMovesOne(p, s, a);
      CountMoved(s.workers, a.w, t.workers[a.w], |s.workers|, x);
      StepMovesInputs(p, s, a, x);
    }
  }

  lemma {:induction false} IdleHoldsNothing(workers: seq<Stage>, n: nat, x: nat)
    requires n <= |workers| && forall w :: 0 <= w < |workers| ==> workers[w] == Idle
    ensures CountWorkers(workers, n, x) == 0
  {
    if n > 0 { IdleHoldsNothing(workers, n - 1, x); }
  }

  /** No input is lost or duplicated, in either mode, under any interleaving of any number of workers. */
  lemma {:induction false} NothingLostOrDuplicated(p: Protocol, workers: nat, actions: seq<Action>, n: nat)
    requires n <= |actions| && After(p, workers, actions, n).Some?
    ensures Conserved(After(p, workers, actions, n).value)
  {
    hide Apply, Located;
    if n == 0 {
      forall x: nat ensures Start(workers).accepted[x] == Located(Start(workers), x) { StartHoldsNothing(workers, x); }
    } else {
      NothingLostOrDuplicated(p, workers, actions, n - 1);
      var s := After(p, workers, actions, n - 1).value;
      var t := After(p, workers, actions, n).value;
      forall x: nat ensures t.accepted[x] == Located(t, x) {
        assert s.accepted[x] == Located(s, x);
        StepConserves(p, s, actions[n - 1], x);
        AcceptedGrows(p, s, actions[n - 1], x);
      }
    }
  }

  lemma StartHoldsNothing(workers: nat, x: nat)
    ensures Start(workers).accepted[x] == Located(Start(workers), x)
  {
    IdleHoldsNothing(Start(workers).workers, workers, x);
  }

  lemma AcceptedGrows(p: Protocol, s: State, a: Action, x: nat)
    requires Apply(p, s, a).Some?
    ensures Apply(p, s, a).value.accepted[x] == s.accepted[x] + if a.Arrive? then multiset(a.msg.inputs)[x] else 0
  {
  }

  // ---- At most one holder per session ----

  /** Different sessions have different locks. */
  ghost predicate TableConsistent(s: State) {
    && (forall key :: key in s.lockTable ==> s.lockTable[key] < s.nextLock)
    && (forall a, b :: a in s.lockTable && b in s.lockTable && s.lockTable[a] == s.lockTable[b] ==> a == b)
  }

  /** A handle fetched for a session is still the one the table gives out. */
  ghost predicate HandleIsCurrent(s: State, stage: Stage) {
    stage.Waiting? || stage.Processing? ==> stage.msg.key in s.lockTable && s.lockTable[stage.msg.key] == stage.lock
  }

  /** A lock is held exactly by the worker that processes with it. */
  ghost predicate HeldConsistent(s: State) {
    && (forall w :: 0 <= w < |s.workers| && s.workers[w].Processing? ==>
          s.workers[w].lock in s.held && s.held[s.workers[w].lock] == w)
    && (forall lock :: lock in s.held ==>
          s.held[lock] < |s.workers| && s.workers[s.held[lock]].Processing? && s.workers[s.held[lock]].lock == lock)
  }

  ghost predicate LocksConsistent(s: State) {
    && TableConsistent(s)
    && (forall w :: 0 <= w < |s.workers| ==> HandleIsCurrent(s, s.workers[w]))
    && HeldConsistent(s)
  }

  lemma StepKeepsTable(p: Protocol, s: State, a: Action)
    requires TableConsistent(s) && Apply(p, s, a).Some?
    ensures var t := Apply(p, s, a).value;
      && TableConsistent(t)
      && forall key :: key in s.lockTable ==> key in t.lockTable && t.lockTable[key] == s.lockTable[key]
  {
    if a.Decide? || a.Fetch? {
      hide TakeStep, QueueStep, AcquireStep, GiveUpStep, FinishStep, TakePendingStep, PublishStep;
    } else {
      OthersKeepTable(p, s, a);
      hide Apply;
    }
  }

  /** Only looking a lock up can add one to the table. */
  lemma OthersKeepTable(p: Protocol, s: State, a: Action)
    requires !a.Decide? && !a.Fetch? && Apply(p, s, a).Some?
    ensures Apply(p, s, a).value.lockTable == s.lockTable && Apply(p, s, a).value.nextLock == s.nextLock
  {
    hide Outgoing, PendingFor, DecideStep, FetchStep;
  }

  lemma StepKeepsHandle(p: Protocol, s: State, a: Action, w: nat)
    requires TableConsistent(s) && Apply(p, s, a).Some? && w < |s.workers| && HandleIsCurrent(s, s.workers[w])
    ensures w < |Apply(p, s, a).value.workers| && HandleIsCurrent(Apply(p, s, a).value, Apply(p, s, a).value.workers[w])
  {
    StepKeepsTable(p, s, a);
    hide TableConsistent;
    if a.Fetch? || a.Acquire? {
      hide TakeStep, DecideStep, QueueStep, GiveUpStep, FinishStep, TakePendingStep, PublishStep;
    } else {
      OthersGetNoHandle(p, s, a);
      hide Apply;
    }
  }

  /** Only fetching and acquiring bring a worker to a stage with a lock handle. */
  lemma OthersGetNoHandle(p: Protocol, s: State, a: Action)
    requires !a.Fetch? && !a.Acquire? && Apply(p, s, a).Some?
    ensures var t := Apply(p, s, a).value;
      && |t.workers| == |s.workers|
      && forall w :: 0 <= w < |s.workers| && (t.workers[w].Waiting? || t.workers[w].Processing?) ==>
           t.workers[w] == s.workers[w]
  {
    hide Outgoing, PendingFor, FetchStep, AcquireStep;
  }

  /** Only acquiring and finishing touch the locks that are held. */
  lemma StepKeepsHands(p: Protocol, s: State, a: Action)
    requires Apply(p, s, a).Some? && !a.Acquire? && !a.Finish?
    ensures var t := Apply(p, s, a).value;
      && t.held == s.held && |t.workers| == |s.workers|
      && forall w :: 0 <= w < |s.workers| && (s.workers[w].Processing? || t.workers[w].Processing?) ==>
           t.workers[w] == s.workers[w]
  {
    hide Outgoing, PendingFor, Inputs;
  }

  lemma StepKeepsHeld(p: Protocol, s: State, a: Action)
    requires HeldConsistent(s) && Apply(p, s, a).Some?
    ensures HeldConsistent(Apply(p, s, a).value)
  {
    hide Outgoing, PendingFor, Inputs, TakePendingStep, PublishStep;
    hide QueueStep, TakeStep, GiveUpStep, DecideStep, FetchStep;
    if !a.Acquire? && !a.Finish? { StepKeepsHands(p, s, a); }
  }

  lemma StepKeepsLocks(p: Protocol, s: State, a: Action)
    requires LocksConsistent(s) && Apply(p, s, a).Some?
    ensures LocksConsistent(Apply(p, s, a).value)
  {
    var t := Apply(p, s, a).value;
    SameWorkers(p, s, a);
    hide Apply, HandleIsCurrent, HeldConsistent, TableConsistent;
    StepKeepsTable(p, s, a);
    StepKeepsHeld(p, s, a);
    forall w | 0 <= w < |t.workers| ensures HandleIsCurrent(t, t.workers[w]) {
      assert HandleIsCurrent(s, s.workers[w]);
      StepKeepsHandle(p, s, a, w);
    }
  }

  lemma SameWorkers(p: Protocol, s: State, a: Action)
    requires Apply(p, s, a).Some?
    ensures |Apply(p, s, a).value.workers| == |s.workers|
  {
  }

  lemma {:induction false} LocksStayConsistent(p: Protocol, workers: nat, actions: seq<Action>, n: nat)
    requires n <= |actions| && After(p, workers, actions, n).Some?
    ensures LocksConsistent(After(p, workers, actions, n).value)
  {
    hide Apply;
    if n > 0 {
      LocksStayConsistent(p, workers, actions, n - 1);
      StepKeepsLocks(p, After(p, workers, actions, n - 1).value, actions[n - 1]);
    }
  }

  /** No two workers ever process messages of the same session at the same time. */
  lemma OneHolderPerSession(p: Protocol, workers: nat, actions: seq<Action>, n: nat, v: nat, w: nat)
    requires n <= |actions| && After(p, workers, actions, n).Some?
    requires var s := After(p, workers, actions, n).value;
      && v < |s.workers| && w < |s.workers|
      && s.workers[v].Processing? && s.workers[w].Processing? && s.workers[v].msg.key == s.workers[w].msg.key
    ensures v == w
  {
    LocksStayConsistent(p, workers, actions, n);
    var s := After(p, workers, actions, n).value;
    assert HandleIsCurrent(s, s.workers[v]) && HandleIsCurrent(s, s.workers[w]);
  }

  // ---- Queued messages and who will drain them ----

  /** The worker will take this session's pending messages before it becomes idle. */
  predicate WillDrain(stage: Stage, key: SessionKey) {
    (stage.Free? || stage.Waiting? || stage.Processing? || stage.Releasing?) && stage.msg.key == key
  }

  ghost predicate HasDrainer(s: State, key: SessionKey) {
    exists w :: 0 <= w < |s.workers| && WillDrain(s.workers[w], key)
  }

  /** Every session with queued messages has a worker that will drain them. */
  ghost predicate Attended(s: State) {
    forall key :: PendingFor(s, key) != [] ==> HasDrainer(s, key)
  }

  /** A busy check followed by the push is sound only while some drainer of the session is left. */
  predicate UnattendedQueueing(s: State, a: Action) {
    && a.Queue? && a.w < |s.workers| && s.workers[a.w].Queueing?
    && forall w :: 0 <= w < |s.workers| ==> !WillDrain(s.workers[w], s.workers[a.w].msg.key)
  }

  lemma DrainerStays(p: Protocol, s: State, a: Action, key: SessionKey)
    requires Apply(p, s, a).Some? && HasDrainer(s, key)
    ensures var t := Apply(p, s, a).value; HasDrainer(t, key) || PendingFor(t, key) == []
  {
    hide Outgoing;
    var t := Apply(p, s, a).value;
    var w :| 0 <= w < |s.workers| && WillDrain(s.workers[w], key);
    if a.Arrive? || w != a.w || !a.TakePending? { assert WillDrain(t.workers[w], key); }
  }

  /** A step leaves queued messages without a drainer exactly when it queues one where no drainer is left. */
  lemma StrandsIff(p: Protocol, s: State, a: Action)
    requires Attended(s) && Apply(p, s, a).Some?
    ensures Attended(Apply(p, s, a).value) <==> !UnattendedQueueing(s, a)
  {
    hide Outgoing;
    var t := Apply(p, s, a).value;
    if UnattendedQueueing(s, a) {
      var key := s.workers[a.w].msg.key;
      assert forall w :: 0 <= w < |t.workers| ==> !WillDrain(t.workers[w], key) by {
        forall w | 0 <= w < |t.workers| ensures !WillDrain(t.workers[w], key) {
          assert !WillDrain(s.workers[w], key);
        }
      }
      assert PendingFor(t, key) != [];
    } else {
      forall key | PendingFor(t, key) != [] ensures HasDrainer(t, key) {
        if a.Queue? && key == s.workers[a.w].msg.key {
          var w :| 0 <= w < |s.workers| && WillDrain(s.workers[w], key);
        } else {
          assert PendingFor(s, key) != [];
        }
        DrainerStays(p, s, a, key);
      }
    }
  }

  predicate Quiescent(s: State) {
    s.bus == [] && forall w :: 0 <= w < |s.workers| ==> s.workers[w] == Idle
  }

  ghost predicate AlwaysAttendedQueueing(p: Protocol, workers: nat, actions: seq<Action>, n: nat)
    requires n <= |actions|
  {
    forall i :: 0 <= i < n && After(p, workers, actions, i).Some? ==>
      !UnattendedQueueing(After(p, workers, actions, i).value, actions[i])
  }

  /** Without such a step, nothing is left behind: when the runtime comes to rest, no message is still queued. */
  lemma {:induction false} AttendedRunsDrain(p: Protocol, workers: nat, actions: seq<Action>, n: nat)
    requires n <= |actions| && After(p, workers, actions, n).Some?
    requires AlwaysAttendedQueueing(p, workers, actions, n)
    ensures Attended(After(p, workers, actions, n).value)
    ensures Quiescent(After(p, workers, actions, n).value) ==>
      forall key :: PendingFor(After(p, workers, actions, n).value, key) == []
  {
    hide Apply;
    if n > 0 {
      AttendedRunsDrain(p, workers, actions, n - 1);
      StrandsIff(p, After(p, workers, actions, n - 1).value, actions[n - 1]);
    }
  }

  /** The interleaving in which the holder drains between another worker's busy check and its push. */
  const LATE_PUSH: seq<Action> := [
    Arrive(Inbound(0, [1])), Arrive(Inbound(0, [2])),
    Take(0), Decide(0), Fetch(0), Acquire(0),
    Take(1), Decide(1),
    Finish(0), TakePending(0), Done(0),
    Queue(1)]

  const FIRST: Inbound := Inbound(0, [1])
  const SECOND: Inbound := Inbound(0, [2])

  /** Two of the workers are at work, and nothing is queued for session 0. */
  ghost predicate Looks(s: State, workers: nat, left: Stage, right: Stage, held: bool) {
    && 2 <= |s.workers| == workers && s.workers[0] == left && s.workers[1] == right
    && (forall w :: 2 <= w < workers ==> s.workers[w] == Idle)
    && (0 in s.held <==> held) && 0 !in s.pending
  }

  lemma Advance(p: Protocol, workers: nat, n: nat, s: State) returns (t: State)
    requires n < |LATE_PUSH| && After(p, workers, LATE_PUSH, n) == Some(s) && Apply(p, s, LATE_PUSH[n]).Some?
    ensures After(p, workers, LATE_PUSH, n + 1) == Some(t) && Apply(p, s, LATE_PUSH[n]) == Some(t)
  {
    hide Apply;
    t := Apply(p, s, LATE_PUSH[n]).value;
  }

  lemma LatePushArrivals(p: Protocol, workers: nat) returns (s: State)
    requires workers >= 2
    ensures After(p, workers, LATE_PUSH, 3) == Some(s) && Looks(s, workers, Deciding(FIRST), Idle, false)
    ensures s.bus == [SECOND] && s.processed == multiset{} && 0 !in s.lockTable && s.nextLock == 0
  {
    hide DecideStep, QueueStep, FetchStep, AcquireStep, GiveUpStep, FinishStep, TakePendingStep, PublishStep;
    s := Advance(p, workers, 0, Start(workers));
    s := Advance(p, workers, 1, s);
    assert s.bus == [FIRST, SECOND];
    s := Advance(p, workers, 2, s);
  }

  lemma LatePushAcquires(p: Protocol, workers: nat, s3: State) returns (s: State)
    requires After(p, workers, LATE_PUSH, 3) == Some(s3) && Looks(s3, workers, Deciding(FIRST), Idle, false)
    requires 0 !in s3.lockTable && s3.nextLock == 0
    ensures After(p, workers, LATE_PUSH, 6) == Some(s) && Looks(s, workers, Processing(FIRST, 0), Idle, true)
    ensures 0 in s.lockTable && s.lockTable[0] == 0 && s.bus == s3.bus && s.processed == s3.processed
  {
    hide After, TakeStep, QueueStep, GiveUpStep, FinishStep, TakePendingStep, PublishStep;
    s := Advance(p, workers, 3, s3);
    assert Looks(s, workers, Free(FIRST), Idle, false);
    s := Advance(p, workers, 4, s);
    assert Looks(s, workers, Waiting(FIRST, 0), Idle, false);
    s := Advance(p, workers, 5, s);
  }

  lemma LatePushFindsBusy(p: Protocol, workers: nat, s6: State) returns (s: State)
    requires After(p, workers, LATE_PUSH, 6) == Some(s6) && Looks(s6, workers, Processing(FIRST, 0), Idle, true)
    requires 0 in s6.lockTable && s6.lockTable[0] == 0 && s6.bus == [SECOND]
    ensures After(p, workers, LATE_PUSH, 9) == Some(s) && Looks(s, workers, Releasing(FIRST), Queueing(SECOND), false)
    ensures s.bus == [] && s.processed == s6.processed + multiset([1])
  {
    hide After, QueueStep, FetchStep, AcquireStep, GiveUpStep, TakePendingStep, PublishStep;
    s := Advance(p, workers, 6, s6);
    assert Looks(s, workers, Processing(FIRST, 0), Deciding(SECOND), true);
    s := Advance(p, workers, 7, s);
    assert Looks(s, workers, Processing(FIRST, 0), Queueing(SECOND), true);
    s := Advance(p, workers, 8, s);
  }

  lemma LatePushComesTooLate(p: Protocol, workers: nat, s9: State) returns (s: State)
    requires After(p, workers, LATE_PUSH, 9) == Some(s9)
    requires Looks(s9, workers, Releasing(FIRST), Queueing(SECOND), false)
    ensures After(p, workers, LATE_PUSH, 12) == Some(s) && |s.workers| == workers
    ensures forall w :: 0 <= w < workers ==> s.workers[w] == Idle
    ensures PendingFor(s, 0) == [SECOND] && s.bus == s9.bus && s.processed == s9.processed
  {
    hide After, TakeStep, DecideStep, FetchStep, AcquireStep, GiveUpStep, FinishStep, PublishStep;
    s := Advance(p, workers, 9, s9);
    assert Looks(s, workers, Draining([]), Queueing(SECOND), false);
    s := Advance(p, workers, 10, s);
    assert Looks(s, workers, Idle, Queueing(SECOND), false);
    s := Advance(p, workers, 11, s);
  }

  /** It strands a message: everything is idle and the bus is empty, but input 2 is still queued. */
  lemma LatePushStrandsMessage(p: Protocol, workers: nat)
    requires workers >= 2
    ensures After(p, workers, LATE_PUSH, |LATE_PUSH|).Some?
    ensures var s := After(p, workers, LATE_PUSH, |LATE_PUSH|).value;
      Quiescent(s) && PendingFor(s, 0) == [SECOND] && s.processed == multiset([1])
  {
    hide After, Apply, PendingFor;
    var s := LatePushArrivals(p, workers);
    s := LatePushAcquires(p, workers, s);
    s := LatePushFindsBusy(p, workers, s);
    s := LatePushComesTooLate(p, workers, s);
  }

  /** A single consumer never finds a session busy, so it never queues anything. */
  ghost predicate NothingQueued(s: State) {
    && |s.workers| == 1 && s.pending == map[] && !s.workers[0].Queueing?
    && (s.held != map[] ==> s.workers[0].Processing?)
  }

  lemma {:induction false} SingleConsumerNeverQueues(p: Protocol, actions: seq<Action>, n: nat)
    requires n <= |actions| && After(p, 1, actions, n).Some?
    ensures NothingQueued(After(p, 1, actions, n).value)
  {
    if n > 0 {
      SingleConsumerNeverQueues(p, actions, n - 1);
      LocksStayConsistent(p, 1, actions, n - 1);
      var s := After(p, 1, actions, n - 1).value;
      SingleStepNeverQueues(p, s, actions[n - 1]);
    }
  }

  lemma SingleStepNeverQueues(p: Protocol, s: State, a: Action)
    requires NothingQueued(s) && LocksConsistent(s) && Apply(p, s, a).Some?
    ensures NothingQueued(Apply(p, s, a).value)
  {
    hide Outgoing, PendingFor, Inputs, HandleIsCurrent, TableConsistent;
    if a.Finish? {
      assert forall lock :: lock in s.held ==> lock == s.workers[0].lock;
      assert s.held - {s.workers[0].lock} == map[];
    }
  }

  /** Without a worker, nothing is ever taken from the bus. */
  lemma {:induction false} NoWorkerNeverQueues(p: Protocol, actions: seq<Action>, n: nat)
    requires n <= |actions| && After(p, 0, actions, n).Some?
    ensures After(p, 0, actions, n).value.pending == map[] && After(p, 0, actions, n).value.workers == []
  {
    hide Apply;
    if n > 0 {
      NoWorkerNeverQueues(p, actions, n - 1);
      NoWorkerStep(p, After(p, 0, actions, n - 1).value, actions[n - 1]);
    }
  }

  lemma NoWorkerStep(p: Protocol, s: State, a: Action)
    requires s.workers == [] && Apply(p, s, a).Some?
    ensures Apply(p, s, a).value.pending == s.pending && Apply(p, s, a).value.workers == []
  {
    hide TakeStep, DecideStep, QueueStep, FetchStep, AcquireStep, GiveUpStep, FinishStep, TakePendingStep, PublishStep;
  }

  /** The run comes to rest, and still some session has a message queued. */
  ghost predicate Strands(p: Protocol, workers: nat, actions: seq<Action>) {
    var end := After(p, workers, actions, |actions|);
    end.Some? && Quiescent(end.value) && exists key :: PendingFor(end.value, key) != []
  }

  /** Some run strands a message if and only if there are at least two workers. */
  lemma StrandsSomewhereIff(p: Protocol, workers: nat)
    ensures (exists actions :: Strands(p, workers, actions)) <==> workers >= 2
  {
    hide After;
    if workers >= 2 {
      LatePushStrandsMessage(p, workers);
      assert PendingFor(After(p, workers, LATE_PUSH, |LATE_PUSH|).value, 0) != [];
      assert Strands(p, workers, LATE_PUSH);
    } else {
      forall actions ensures !Strands(p, workers, actions) {
        if After(p, workers, actions, |actions|).Some? {
          if workers == 1 {
            SingleConsumerNeverQueues(p, actions, |actions|);
          } else {
            NoWorkerNeverQueues(p, actions, |actions|);
          }
        }
      }
    }
  }
}
