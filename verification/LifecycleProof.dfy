/**
 What `proven` rests on: in every run a replica is stored as proven only because some worker saw the proof of
 that very attempt succeed.
 */
module LifecycleProof {
  import opened Base
  import opened LifecycleState
  import opened LifecycleMachine
  import opened LifecycleSafety
  import opened Lifecycle

  /** One attempt at one replica of an operation. */
  datatype Slot = Slot(op: nat, replica: nat, attempt: nat)

  predicate SlotIs(s: State, p: Slot) {
    && HasReplica(s, p.replica) && s.creation.value.op == p.op
    && s.creation.value.replicas[p.replica].attempt == p.attempt
  }

  // ----- evidence ------------------------------------------------------------------------------------------

  /** The worker is about to prove this attempt. */
  predicate Proving(x: Worker, p: Slot) {
    x.Apply? && x.reconciler.Proof? && x.reconciler.index == p.replica && SlotIs(x.reconciler.snap, p)
  }

  /** The event is a successful proof of it. */
  predicate ProofAt(y: System, e: Event, p: Slot) {
    e.Do? && e.reply == Ok && e.who in y.workers && Proving(y.workers[e.who], p)
  }

  ghost predicate Proved(events: seq<Event>, p: Slot) {
    exists k :: 0 <= k < |events| && ProofAt(Run(events[..k]), events[k], p)
  }

  lemma ProvedLonger(events: seq<Event>, e: Event, p: Slot)
    requires Proved(events, p)
    ensures Proved(events + [e], p)
  {
    var k :| 0 <= k < |events| && ProofAt(Run(events[..k]), events[k], p);
    assert (events + [e])[..k] == events[..k] && (events + [e])[k] == events[k];
  }

  lemma ProvedLast(events: seq<Event>, e: Event, p: Slot)
    requires ProofAt(Run(events), e, p)
    ensures Proved(events + [e], p)
  {
    assert (events + [e])[..|events|] == events && (events + [e])[|events|] == e;
  }

  // ----- what is stored and what a worker holds ----------------------------------------------------------------

  predicate Underway(p: ReplicaPhase) {
    p in {Launching, Attached, Active, Proven}
  }

  /** A replica that is under way names its attempt. */
  ghost predicate Named(s: State) {
    forall i: nat :: HasReplica(s, i) && Underway(s.creation.value.replicas[i].phase) ==>
      s.creation.value.replicas[i].attempt != 0
  }

  predicate IsProven(w: World, p: Slot) {
    w.store.Some? && SlotIs(w.store.value, p) && w.store.value.creation.value.replicas[p.replica].phase == Proven
  }

  /** The attempt that the worker is about to have stored as proven, or may give that phase back. */
  predicate Claims(x: Worker, p: Slot) {
    match x
    case Apply(Persist(snap, index, m, _)) => m.MarkProven? && index == p.replica && SlotIs(snap, p)
    case Begin(CleanDelete(op, index, attempt, _, prior)) => prior == Proven && p == Slot(op, index, attempt)
    case Begin(CleanFinish(op, index, attempt, _, prior, _, _)) => prior == Proven && p == Slot(op, index, attempt)
    case _ => false
  }

  ghost predicate NamedRead(r: Option<Read>) {
    r.Some? && r.value.state.Some? ==> Named(r.value.state.value)
  }

  /** The worker proves, or reports the proof of, a replica that names its attempt. */
  predicate ProvesNamed(r: Reconciler) {
    (r.Proof? || (r.Persist? && r.mutation.MarkProven?)) && HasReplica(r.snap, r.index) ==>
      r.snap.creation.value.replicas[r.index].attempt != 0
  }

  ghost predicate WorkerNamed(x: Worker) {
    match x
    case Apply(r) => Named(r.snap) && (r.Persist? ==> NamedRead(r.read)) && ProvesNamed(r)
    case Begin(CleanDelete(_, _, attempt, _, prior)) => Underway(prior) ==> attempt != 0
    case Begin(CleanFinish(_, _, attempt, _, prior, _, _)) => Underway(prior) ==> attempt != 0
    case _ => true
  }

  ghost predicate StoreNamed(w: World) {
    w.store.Some? ==> Named(w.store.value)
  }

  /** What a turn has stored as proven, or claims, was so before, or rests on its own successful proof. */
  ghost predicate Grounded(w: World, x: Worker, turn: Turn, reply: Reply) {
    && (forall p :: IsProven(turn.world, p) ==> IsProven(w, p) || Claims(x, p))
    && (forall p :: Claims(turn.worker, p) ==> Claims(x, p) || IsProven(w, p) || (reply == Ok && Proving(x, p)))
    && StoreNamed(turn.world) && WorkerNamed(turn.worker)
  }

  /** The turn wrote nothing, and its worker claims nothing new. */
  lemma Idle(w: World, x: Worker, turn: Turn, reply: Reply)
    requires StoreNamed(w) && turn.world.store == w.store && WorkerNamed(turn.worker)
    requires forall p :: Claims(turn.worker, p) ==> Claims(x, p)
    ensures Grounded(w, x, turn, reply)
  {
  }

  // ----- Apply -----------------------------------------------------------------------------------------------

  lemma MutateNamed(s: State, op: nat, i: nat, attempt: nat, m: Mutation)
    requires Named(s) && MutateCreation(s, op, i, attempt, m).Write?
    ensures Named(MutateCreation(s, op, i, attempt, m).state)
  {
  }

  lemma MutateProven(w: World, op: nat, i: nat, attempt: nat, m: Mutation, p: Slot)
    requires w.store.Some? && MutateCreation(w.store.value, op, i, attempt, m).Write?
    requires IsProven(Commit(w, MutateCreation(w.store.value, op, i, attempt, m).state), p)
    ensures IsProven(w, p) || (m.MarkProven? && p.op == op && p.replica == i && (attempt != 0 ==> p.attempt == attempt))
  {
  }

  lemma ContinueNamed(s: State, i: nat, m: Mutation)
    requires Named(s)
    ensures WorkerNamed(Continue(s, i, m)) && forall p :: !Claims(Continue(s, i, m), p)
  {
  }

  lemma AbandonNamed(snap: State, i: nat, m: Mutation, fenced: bool)
    ensures WorkerNamed(Abandon(snap, i, m, fenced)) && forall p :: !Claims(Abandon(snap, i, m, fenced), p)
  {
  }

  lemma PersistWrites(w: World, x: Reconciler, s: State)
    requires StoreNamed(w) && w.store.Some? && x.Persist? && WorkerNamed(Apply(x)) && x.snap.creation.Some?
    requires x.mutation.Slot() ==> HasReplica(x.snap, x.index)
    requires MutateRead(x.snap, x.index, x.mutation, Read(w.version, w.store)) == Write(s)
    ensures Named(s) && forall p :: IsProven(Commit(w, s), p) ==> IsProven(w, p) || Claims(Apply(x), p)
  {
    var a := if HasReplica(x.snap, x.index) then x.snap.creation.value.replicas[x.index].attempt else 0;
    MutateNamed(w.store.value, x.snap.creation.value.op, x.index, a, x.mutation);
    forall p | IsProven(Commit(w, s), p) ensures IsProven(w, p) || Claims(Apply(x), p) {
      MutateProven(w, x.snap.creation.value.op, x.index, a, x.mutation, p);
    }
  }

  lemma PersistGrounded(w: World, x: Reconciler, reply: Reply)
    requires StoreNamed(w) && ReconcilerOk(w, x) && x.Persist? && WorkerNamed(Apply(x))
    ensures Grounded(w, Apply(x), StepPersist(w, x.snap, x.index, x.mutation, x.read, reply), reply)
  {
    AbandonNamed(x.snap, x.index, x.mutation, false);
    AbandonNamed(x.snap, x.index, x.mutation, true);
    if x.read.Some? && x.snap.creation.Some? && (x.mutation.Slot() ==> HasReplica(x.snap, x.index)) {
      var o := MutateRead(x.snap, x.index, x.mutation, x.read.value);
      if o.Keep? {
        ContinueNamed(x.read.value.state.value, x.index, x.mutation);
      } else if o.Write? && x.read.value.version == w.version {
        assert x.read.value.state == w.store;
        PersistWrites(w, x, o.state);
        ContinueNamed(o.state, x.index, x.mutation);
      }
    }
  }

  lemma AcquireGrounded(w: World, x: Reconciler, reply: Reply)
    requires StoreNamed(w) && ReconcilerOk(w, x) && x.AcquireWrite? && WorkerNamed(Apply(x)) && w.nextId > 0
    ensures Grounded(w, Apply(x), StepAcquireWrite(w, x.snap, x.index, x.claim, reply), reply)
  {
    var turn := StepAcquireWrite(w, x.snap, x.index, x.claim, reply);
    if turn.world.store != w.store {
      assert x.claim.state == w.store;
      forall p | IsProven(turn.world, p) ensures IsProven(w, p) {}
    }
  }

  lemma QuietGrounded(w: World, x: Reconciler, reply: Reply)
    requires StoreNamed(w) && !x.Persist? && !x.AcquireWrite? && WorkerNamed(Apply(x))
    ensures Grounded(w, Apply(x), ActReconcile(w, x, reply), reply)
  {
  }

  lemma ReconcileGrounded(w: World, x: Reconciler, reply: Reply)
    requires StoreNamed(w) && ReconcilerOk(w, x) && WorkerNamed(Apply(x)) && w.nextId > 0
    ensures Grounded(w, Apply(x), ActReconcile(w, x, reply), reply)
  {
    if x.Persist? {
      PersistGrounded(w, x, reply);
    } else if x.AcquireWrite? {
      AcquireGrounded(w, x, reply);
    } else {
      QuietGrounded(w, x, reply);
    }
  }

  // ----- the opening and the cleanup ---------------------------------------------------------------------------

  lemma ClaimGrounded(w: World, x: Beginner, reply: Reply)
    requires StoreNamed(w) && BeginnerOk(w, x) && x.CleanClaim?
    ensures Grounded(w, Begin(x), ActBeginOrClean(w, x, reply), reply)
  {
    var turn := ActBeginOrClean(w, x, reply);
    if turn.world.store != w.store {
      assert x.read.value.state == w.store;
      forall p | IsProven(turn.world, p) ensures IsProven(w, p) {}
    }
  }

  lemma FinishGrounded(w: World, x: Beginner, reply: Reply)
    requires StoreNamed(w) && BeginnerOk(w, x) && x.CleanFinish? && WorkerNamed(Begin(x))
    ensures Grounded(w, Begin(x), ActBeginOrClean(w, x, reply), reply)
  {
    var turn := ActBeginOrClean(w, x, reply);
    if turn.world.store != w.store {
      assert x.read.value.state == w.store;
      forall p | IsProven(turn.world, p) ensures IsProven(w, p) || Claims(Begin(x), p) {}
    }
  }

  lemma BeginGrounded(w: World, x: Beginner, reply: Reply)
    requires StoreNamed(w) && BeginnerOk(w, x) && WorkerNamed(Begin(x))
    ensures Grounded(w, Begin(x), ActBeginOrClean(w, x, reply), reply)
  {
    if x.CleanClaim? {
      ClaimGrounded(w, x, reply);
    } else if x.CleanFinish? {
      FinishGrounded(w, x, reply);
    }
  }

  // ----- Destroy and expose ------------------------------------------------------------------------------------

  lemma TearGrounded(w: World, x: Destroyer, reply: Reply)
    requires StoreNamed(w) && DestroyerOk(w, x) && x.TearDown?
    ensures Grounded(w, Destroy(x), ActDestroy(w, x, reply), reply)
  {
    var turn := ActDestroy(w, x, reply);
    if turn.world.store != w.store {
      assert x.read.value.state == w.store;
      forall p | IsProven(turn.world, p) ensures IsProven(w, p) {}
    }
  }

  lemma FenceGrounded(w: World, claim: Read, reply: Reply)
    requires StoreNamed(w) && DestroyerOk(w, DestroyFence(claim))
    ensures Grounded(w, Destroy(DestroyFence(claim)), StepDestroyFence(w, claim, reply), reply)
  {
    if StepDestroyFence(w, claim, reply).world.store != w.store { assert claim.state == w.store; }
  }

  lemma SweepGrounded(w: World, x: Destroyer, reply: Reply)
    requires StoreNamed(w) && !x.TearDown? && !x.DestroyFence?
    ensures Grounded(w, Destroy(x), ActDestroy(w, x, reply), reply)
  {
    var turn := ActDestroy(w, x, reply);
    assert turn.world.store == w.store && (turn.worker.Destroy? || turn.worker.Stopped?);
  }

  lemma DestroyGrounded(w: World, x: Destroyer, reply: Reply)
    requires StoreNamed(w) && DestroyerOk(w, x)
    ensures Grounded(w, Destroy(x), ActDestroy(w, x, reply), reply)
  {
    if x.TearDown? {
      TearGrounded(w, x, reply);
    } else if x.DestroyFence? {
      FenceGrounded(w, x.claim, reply);
    } else {
      SweepGrounded(w, x, reply);
    }
  }

  lemma ExposeGrounded(w: World, x: Exposer, reply: Reply)
    requires StoreNamed(w) && ExposerOk(w, x)
    ensures Grounded(w, Expose(x), ActExpose(w, x, reply), reply)
  {
    var turn := ActExpose(w, x, reply);
    ExposeLeaves(w, x, reply);
    forall p | IsProven(turn.world, p) ensures IsProven(w, p) {}
  }

  lemma ExposeLeaves(w: World, x: Exposer, reply: Reply)
    requires ExposerOk(w, x)
    ensures var turn := ActExpose(w, x, reply);
            && (|| turn.world.store == w.store
                || (w.store.Some? && turn.world.store.Some?
                    && turn.world.store.value.creation == w.store.value.creation))
            && (turn.worker.Stopped? || turn.worker.Expose?)
  {
  }

  lemma ActGrounded(w: World, x: Worker, reply: Reply)
    requires StoreNamed(w) && WorkerOk(w, x) && WorkerNamed(x) && w.nextId > 0
    ensures Grounded(w, x, Act(w, x, reply), reply)
  {
    if reply != Crash {
      match x
      case Stopped =>
      case Apply(r) => ReconcileGrounded(w, r, reply);
      case Begin(b) => BeginGrounded(w, b, reply);
      case Destroy(d) => DestroyGrounded(w, d, reply);
      case Expose(e) => ExposeGrounded(w, e, reply);
    }
  }

  // ----- every run ------------------------------------------------------------------------------------------------

  ghost predicate AllNamed(y: System) {
    StoreNamed(y.world) && forall q :: q in y.workers ==> WorkerNamed(y.workers[q])
  }

  /** Everything that is proven or claimed to be was proved. */
  ghost predicate AllProved(events: seq<Event>, y: System) {
    && (forall p :: IsProven(y.world, p) ==> Proved(events, p))
    && (forall q, p :: q in y.workers && Claims(y.workers[q], p) ==> Proved(events, p))
  }

  lemma Longer(events: seq<Event>, e: Event, y: System)
    requires AllProved(events, y)
    ensures AllProved(events + [e], y)
  {
    forall p | Proved(events, p) ensures Proved(events + [e], p) { ProvedLonger(events, e, p); }
  }

  lemma DoProved(events: seq<Event>, y: System, z: System, who: nat, reply: Reply)
    requires y == Run(events) && AllProved(events, y) && who in y.workers
    requires Grounded(y.world, y.workers[who], Act(y.world, y.workers[who], reply), reply)
    requires var turn := Act(y.world, y.workers[who], reply);
             z == System(turn.world, y.workers[who := turn.worker])
    ensures AllProved(events + [Do(who, reply)], z)
  {
    var e := Do(who, reply);
    Longer(events, e, y);
    forall p | Claims(z.workers[who], p) ensures Proved(events + [e], p) {
      if reply == Ok && Proving(y.workers[who], p) { ProvedLast(events, e, p); }
    }
  }

  lemma StepNamed(y: System, who: nat, reply: Reply)
    requires Inv(y) && AllNamed(y) && who in y.workers
    ensures Grounded(y.world, y.workers[who], Act(y.world, y.workers[who], reply), reply)
    ensures AllNamed(Step(y, Do(who, reply)))
  {
    WorkerInv(y, who);
    assert Books(y.world);
    ActGrounded(y.world, y.workers[who], reply);
  }

  lemma HappenNamed(y: System, e: Event)
    requires AllNamed(y) && !(e.Do? && e.who in y.workers)
    ensures AllNamed(Step(y, e))
    ensures forall p :: IsProven(Step(y, e).world, p) ==> IsProven(y.world, p)
    ensures forall q, p :: q in Step(y, e).workers && Claims(Step(y, e).workers[q], p) ==>
              q in y.workers && Claims(y.workers[q], p)
  {
  }

  lemma NextProved(events: seq<Event>, e: Event)
    requires AllNamed(Run(events)) && AllProved(events, Run(events))
    ensures AllNamed(Run(events + [e])) && AllProved(events + [e], Run(events + [e]))
  {
    var y := Run(events);
    assert (events + [e])[..|events|] == events;
    if e.Do? && e.who in y.workers {
      RunInv(events);
      StepNamed(y, e.who, e.reply);
      DoProved(events, y, Step(y, e), e.who, e.reply);
    } else {
      HappenNamed(y, e);
      Longer(events, e, y);
    }
  }

  lemma {:induction false} RunProved(events: seq<Event>)
    ensures AllNamed(Run(events)) && AllProved(events, Run(events))
  {
    if events != [] {
      var front := events[..|events| - 1];
      RunProved(front);
      NextProved(front, events[|events| - 1]);
      assert front + [events[|events| - 1]] == events;
    }
  }

  /**
   In every run a replica that is stored as proven was proved: some worker met a successful proof of that
   operation, replica and attempt.
   */
  lemma ProvenWasProved(events: seq<Event>, i: nat) returns (k: nat)
    requires var w := Run(events).world;
             w.store.Some? && HasReplica(w.store.value, i) && w.store.value.creation.value.replicas[i].phase == Proven
    ensures var c := Run(events).world.store.value.creation.value;
            k < |events| && ProofAt(Run(events[..k]), events[k], Slot(c.op, i, c.replicas[i].attempt))
  {
    RunProved(events);
    var c := Run(events).world.store.value.creation.value;
    var p := Slot(c.op, i, c.replicas[i].attempt);
    assert IsProven(Run(events).world, p);
    k :| 0 <= k < |events| && ProofAt(Run(events[..k]), events[k], p);
  }
}
