/**
 The well-formedness test that every resuming Apply makes of the stored intent. With
 several Apply workers it can fail for good: acquiring an attempt does not look at the
 network index again. This module says when exactly.
 */
module LifecycleIntent {
  import opened Base
  import opened LifecycleState
  import opened LifecycleMachine
  import opened LifecycleSafety
  import opened LifecycleSteps
  import opened LifecycleTeardown
  import opened Lifecycle
  import opened LifecycleCommits
  import opened CreateBound

  // ----- the test, and what each transition does to it ---------------------------------------

  /** What validateCreationIntent demands of one replica. */
  predicate SlotFit(c: Creation, r: Replica) {
    && r.network <= c.networks
    && (r.network == c.networks ==> r.phase == Pending)
    && (r.phase == Launching ==> r.attempt != 0)
  }

  predicate WellFormed(c: Creation) {
    forall k :: 0 <= k < |c.replicas| ==> SlotFit(c, c.replicas[k])
  }

  lemma ResumableIs(s: State, replicas: nat)
    ensures Resumable(s, replicas) <==>
              && s.creation.Some? && s.creation.value.op != 0 && s.creation.value.networks > 0
              && |s.creation.value.replicas| == replicas && WellFormed(s.creation.value)
  {
  }

  lemma NewIntentFits(op: nat, replicas: nat, networks: nat)
    ensures WellFormed(NewIntent(op, replicas, networks).creation.value)
  {
  }

  /** An acquisition keeps the intent well formed exactly if the replica has a network left. */
  lemma AcquireFitsIff(s: State, op: nat, index: nat, attempt: nat)
    requires s.creation.Some? && WellFormed(s.creation.value) && attempt != 0 && Acquire(s, op, index, attempt).Write?
    ensures WellFormed(Acquire(s, op, index, attempt).state.creation.value) <==>
              s.creation.value.replicas[index].network < s.creation.value.networks
  {
    var c := Acquire(s, op, index, attempt).state.creation.value;
    assert SlotFit(s.creation.value, s.creation.value.replicas[index]);
    assert c.replicas[index].phase == Launching;
    forall k | 0 <= k < |c.replicas| && k != index ensures SlotFit(c, c.replicas[k]) {
      assert SlotFit(s.creation.value, s.creation.value.replicas[k]);
    }
    if WellFormed(c) { assert SlotFit(c, c.replicas[index]); }
  }

  /** Every other transition of an Apply keeps it. */
  lemma MutateFits(s: State, op: nat, index: nat, attempt: nat, m: Mutation)
    requires s.creation.Some? && WellFormed(s.creation.value) && MutateCreation(s, op, index, attempt, m).Write?
    ensures WellFormed(MutateCreation(s, op, index, attempt, m).state.creation.value)
  {
    var c := MutateCreation(s, op, index, attempt, m).state.creation.value;
    forall k | 0 <= k < |c.replicas| ensures SlotFit(c, c.replicas[k]) {
      assert SlotFit(s.creation.value, s.creation.value.replicas[k]);
    }
  }

  /** The remaining transitions act outside `creating`, or leave the intent alone. */
  lemma CleanupNotCreating(s: State, op: nat, index: nat, attempt: nat, server: nat, prior: ReplicaPhase, deleted: bool)
    ensures ClaimCleanup(s, op, index, attempt, server).Write? ==> s.phase == Escalated
    ensures FinishCleanup(s, op, index, attempt, server, prior, deleted).Write? ==> s.phase == Cleanup
  {
  }

  lemma DestroyNotCreating(s: State, cop: nat, eop: nat, m: Teardown)
    ensures !BothCreating(TakeDestroyFence(s))
    ensures MutateDestroy(s, cop, eop, m).Write? ==> s.phase == Destroying
  {
  }

  lemma ExposureLeavesIntent(s: State, eop: nat, m: ExposureMutation, policy: nat, deleted: bool)
    ensures MutateExposure(s, eop, m).Write? ==> MutateExposure(s, eop, m).state.creation == s.creation
    ensures ClaimPolicyCleanup(s, eop).Write? ==> ClaimPolicyCleanup(s, eop).state.creation == s.creation
    ensures FinishPolicyCleanup(s, eop, policy, deleted).Write? ==>
              FinishPolicyCleanup(s, eop, policy, deleted).state.creation == s.creation
  {
  }

  // ----- what the stored intent says of its grants ------------------------------------------------

  predicate IsCreating(w: World) {
    w.store.Some? && w.store.value.creation.Some? && w.store.value.creation.value.phase == Creating
  }

  /** A replica on its last step past the networks has at most a grant; an attempt is on record for its network. */
  ghost predicate Tracked(w: World, c: Creation, i: nat, r: Replica) {
    && r.network <= c.networks
    && (r.network == c.networks ==> r.phase == Pending || r.phase == Launching)
    && (r.attempt != 0 ==> At(w, r.attempt, c.op, i) && w.creates[r.attempt].network == r.network)
  }

  ghost predicate AllTracked(w: World) {
    IsCreating(w) ==>
      var c := w.store.value.creation.value;
      forall i :: 0 <= i < |c.replicas| ==> Tracked(w, c, i, c.replicas[i])
  }

  /** Records of creates only ever change their status. */
  ghost predicate SameGrants(w: World, g: World) {
    forall t :: t in w.creates ==>
      && t in g.creates && g.creates[t].op == w.creates[t].op && g.creates[t].replica == w.creates[t].replica
      && g.creates[t].network == w.creates[t].network
  }

  lemma TrackedStays(w: World, g: World)
    requires AllTracked(w) && SameGrants(w, g)
    requires IsCreating(g) ==> w.store.Some? && g.store.value.creation == w.store.value.creation
    ensures AllTracked(g)
  {
    if IsCreating(g) {
      var c := g.store.value.creation.value;
      forall i | 0 <= i < |c.replicas|
          ensures Tracked(g, c, i, c.replicas[i]) { assert Tracked(w, c, i, c.replicas[i]); }
    }
  }

  /** Only a server that was called for can be attached, so its network is one of the list. */
  lemma AttachedIsInside(w: World, op: nat, index: nat, attempt: nat, server: nat)
    requires Core(w) && Bounded(w) && attempt != 0 && AttemptIs(w, op, index, attempt)
              && Mine(w, op, index, attempt, server)
    requires IsCreating(w) && AllTracked(w)
    ensures w.store.value.creation.value.replicas[index].network < w.store.value.creation.value.networks
  {
    var c := w.store.value.creation.value;
    assert CreationOk(w, c);
    assert Tracked(w, c, index, c.replicas[index]);
    assert w.creates[attempt].status == Born(server);
  }

  lemma SlotTracked(w: World, x: Reconciler, s: State)
    requires Core(w) && Bounded(w) && AllTracked(w) && ReconcilerOk(w, x) && x.Persist? && x.mutation.Slot()
    requires HasReplica(x.snap, x.index)
    requires MutateRead(x.snap, x.index, x.mutation, Read(w.version, w.store)) == Write(s)
    ensures AllTracked(Commit(w, s))
  {
    var a := x.snap.creation.value.replicas[x.index].attempt;
    SlotAscends(w.store.value, x.snap.creation.value.op, x.index, a, x.mutation);
    if x.mutation.Attach? { AttachedIsInside(w, x.snap.creation.value.op, x.index, a, x.mutation.server); }
    SlotStaysTracked(w, x.snap.creation.value.op, x.index, a, x.mutation);
  }

  lemma SlotStaysTracked(w: World, op: nat, index: nat, attempt: nat, m: Mutation)
    requires AllTracked(w) && w.store.Some? && m.Slot() && MutateCreation(w.store.value, op, index, attempt, m).Write?
    requires m.Attach? ==> w.store.value.creation.value.replicas[index].network < w.store.value.creation.value.networks
    ensures AllTracked(Commit(w, MutateCreation(w.store.value, op, index, attempt, m).state))
  {
    var g := Commit(w, MutateCreation(w.store.value, op, index, attempt, m).state);
    var c, c' := w.store.value.creation.value, g.store.value.creation.value;
    SlotAscends(w.store.value, op, index, attempt, m);
    forall i | 0 <= i < |c'.replicas| ensures Tracked(g, c', i, c'.replicas[i]) {
      assert Tracked(w, c, i, c.replicas[i]);
    }
  }

  lemma PersistTracked(w: World, x: Reconciler, reply: Reply)
    requires Core(w) && Bounded(w) && AllTracked(w) && ReconcilerOk(w, x) && x.Persist?
    ensures AllTracked(StepPersist(w, x.snap, x.index, x.mutation, x.read, reply).world)
  {
    var g := StepPersist(w, x.snap, x.index, x.mutation, x.read, reply).world;
    if g != w {
      var o := MutateRead(x.snap, x.index, x.mutation, x.read.value);
      assert x.read.value.state == w.store && o.Write? && g == Commit(w, o.state);
      if x.mutation.Slot() {
        SlotTracked(w, x, o.state);
      } else {
        TrackedStays(w, g);
      }
    }
  }

  lemma AcquireTracked(w: World, x: Reconciler, reply: Reply)
    requires Core(w) && AllTracked(w) && ReconcilerOk(w, x) && x.AcquireWrite?
    ensures AllTracked(StepAcquireWrite(w, x.snap, x.index, x.claim, reply).world)
  {
    var g := StepAcquireWrite(w, x.snap, x.index, x.claim, reply).world;
    if g != w {
      assert x.claim.state == w.store;
      AcquireAscends(w.store.value, x.snap.creation.value.op, x.index, w.nextId);
      var c, c' := w.store.value.creation.value, g.store.value.creation.value;
      forall i | 0 <= i < |c'.replicas| ensures Tracked(g, c', i, c'.replicas[i]) {
        assert Tracked(w, c, i, c.replicas[i]);
      }
    }
  }

  lemma ReconcileTracked(w: World, x: Reconciler, reply: Reply)
    requires Core(w) && Bounded(w) && AllTracked(w) && ReconcilerOk(w, x)
    ensures AllTracked(ActReconcile(w, x, reply).world)
  {
    if x.Persist? {
      PersistTracked(w, x, reply);
    } else if x.AcquireWrite? {
      AcquireTracked(w, x, reply);
    } else {
      QuietTurn(w, x, reply);
      TrackedStays(w, ActReconcile(w, x, reply).world);
    }
  }

  /** The other steps write nothing and change no record of a create but its status. */
  lemma QuietTurn(w: World, x: Reconciler, reply: Reply)
    requires !x.Persist? && !x.AcquireWrite?
    ensures var g := ActReconcile(w, x, reply).world; g.store == w.store && SameGrants(w, g) && g.spared == w.spared
  {
  }

  /** The intent is the old one, is not creating, or has just been opened. */
  ghost predicate KeepsIntent(w: World, g: World) {
    || g.store == w.store
    || !IsCreating(g)
    || (w.store.Some? && g.store.value.creation == w.store.value.creation)
    || exists spec: Spec :: g.store.value == NewIntent(w.nextId, spec.replicas, spec.networks)
  }

  ghost predicate Ceases(w: World, turn: Turn) {
    && (turn.world.store == w.store || !IsCreating(turn.world)) && turn.world.creates == w.creates
    && !turn.worker.Apply?
  }

  lemma ClaimKeeps(w: World, x: Beginner, reply: Reply)
    requires Core(w) && BeginnerOk(w, x) && x.CleanClaim?
    ensures Ceases(w, ActBeginOrClean(w, x, reply))
  {
  }

  lemma FinishKeeps(w: World, x: Beginner, reply: Reply)
    requires Core(w) && BeginnerOk(w, x) && x.CleanFinish?
    ensures Ceases(w, ActBeginOrClean(w, x, reply))
  {
  }

  lemma BeginKeeps(w: World, x: Beginner, reply: Reply)
    requires Core(w) && BeginnerOk(w, x)
    ensures var turn := ActBeginOrClean(w, x, reply);
            && KeepsIntent(w, turn.world) && turn.world.creates == w.creates
            && (turn.worker.Apply? ==>
                turn.worker.reconciler.Scan? && turn.world.store == Some(turn.worker.reconciler.snap))
  {
    if x.ApplyIntent? && ActBeginOrClean(w, x, reply).world != w {
      assert ActBeginOrClean(w, x, reply).world.store.value == NewIntent(w.nextId, x.spec.replicas, x.spec.networks);
    } else if x.CleanClaim? {
      ClaimKeeps(w, x, reply);
    } else if x.CleanFinish? {
      FinishKeeps(w, x, reply);
    }
  }

  lemma TearDownEnds(w: World, job: Job, index: nat, m: Teardown, read: Option<Read>, reply: Reply)
    requires Core(w) && MaybeRead(w, read)
    ensures Ceases(w, StepTearDown(w, job, index, m, read, reply))
  {
  }

  lemma FenceEnds(w: World, claim: Read, reply: Reply)
    requires Core(w) && DestroyerOk(w, DestroyFence(claim))
    ensures Ceases(w, StepDestroyFence(w, claim, reply))
  {
  }

  lemma DestroyKeeps(w: World, x: Destroyer, reply: Reply)
    requires Core(w) && DestroyerOk(w, x)
    ensures Ceases(w, ActDestroy(w, x, reply))
  {
    if x.TearDown? {
      TearDownEnds(w, x.job, x.index, x.teardown, x.read, reply);
    } else if x.DestroyFence? {
      FenceEnds(w, x.claim, reply);
    }
  }

  lemma KeptTracked(w: World, g: World)
    requires AllTracked(w) && KeepsIntent(w, g) && g.creates == w.creates
    ensures AllTracked(g)
  {
    if spec: Spec :| IsCreating(g) && g.store.value == NewIntent(w.nextId, spec.replicas, spec.networks) {
    } else {
      TrackedStays(w, g);
    }
  }

  /** Exposing leaves the creation intent alone. */
  lemma ExposeKeeps(w: World, x: Exposer, reply: Reply)
    requires ExposerOk(w, x)
    ensures var turn := ActExpose(w, x, reply);
            KeepsIntent(w, turn.world) && turn.world.creates == w.creates && !turn.worker.Apply?
  {
  }

  lemma OtherKeeps(w: World, x: Worker, reply: Reply)
    requires Core(w) && WorkerOk(w, x) && !x.Apply?
    ensures var turn := Act(w, x, reply);
            && KeepsIntent(w, turn.world) && turn.world.creates == w.creates
            && (turn.worker.Apply? ==>
                turn.worker.reconciler.Scan? && turn.world.store == Some(turn.worker.reconciler.snap))
  {
    if reply != Crash {
      match x
      case Stopped =>
      case Begin(b) => BeginKeeps(w, b, reply);
      case Destroy(d) => DestroyKeeps(w, d, reply);
      case Expose(e) => ExposeKeeps(w, e, reply);
    }
  }

  lemma ActTracked(w: World, x: Worker, reply: Reply)
    requires Core(w) && Bounded(w) && AllTracked(w) && WorkerOk(w, x)
    ensures AllTracked(Act(w, x, reply).world)
  {
    if !x.Apply? {
      OtherKeeps(w, x, reply);
      KeptTracked(w, Act(w, x, reply).world);
    } else if reply != Crash {
      ReconcileTracked(w, x.reconciler, reply);
    }
  }

  lemma StepTracked(y: System, e: Event)
    requires Inv(y) && Bounded(y.world) && AllTracked(y.world)
    ensures AllTracked(Step(y, e).world)
  {
    if e.Do? && e.who in y.workers {
      WorkerInv(y, e.who);
      DoWorld(y, e.who, e.reply);
      ActTracked(y.world, y.workers[e.who], e.reply);
    } else {
      TrackedStays(y.world, Step(y, e).world);
    }
  }

  lemma {:induction false} RunTracked(events: seq<Event>)
    ensures AllTracked(Run(events).world)
  {
    if events != [] {
      var front := events[..|events| - 1];
      RunTracked(front);
      RunInv(front);
      RunBounded(front);
      StepTracked(Run(front), events[|events| - 1]);
    }
  }

  // ----- the theorem ----------------------------------------------------------------------------------

  /** A grant beyond the networks that the intent lists. */
  predicate Beyond(w: World, t: nat) {
    t in w.creates && w.creates[t].op in w.specs && w.creates[t].network >= w.specs[w.creates[t].op].networks
  }

  ghost predicate NoneBeyond(w: World) {
    forall t :: !Beyond(w, t)
  }

  ghost predicate NoneBeyondOf(w: World, op: nat) {
    forall t :: Beyond(w, t) ==> w.creates[t].op != op
  }

  lemma FitsIff(w: World)
    requires Core(w) && Bounded(w) && AllTracked(w) && IsCreating(w)
    ensures WellFormed(w.store.value.creation.value) <==> NoneBeyondOf(w, w.store.value.creation.value.op)
  {
    var c := w.store.value.creation.value;
    assert CreationOk(w, c);
    forall i | 0 <= i < |c.replicas| ensures SlotFit(c, c.replicas[i]) <==> !Beyond(w, c.replicas[i].attempt) {
      assert ReplicaOk(w, c.op, i, c.replicas[i]) && Tracked(w, c, i, c.replicas[i]);
    }
    forall t | Beyond(w, t) && w.creates[t].op == c.op ensures t == c.replicas[w.creates[t].replica].attempt {
      assert Tracked(w, c, w.creates[t].replica, c.replicas[w.creates[t].replica]);
    }
    if !WellFormed(c) {
      var i :| 0 <= i < |c.replicas| && !SlotFit(c, c.replicas[i]);
      assert Tracked(w, c, i, c.replicas[i]);
      assert Beyond(w, c.replicas[i].attempt);
    }
  }

  /**
   In every run: while `creating`, the stored intent passes the test exactly if its
   operation lists a network at all and no attempt of it was granted beyond its networks.
   */
  lemma ResumableIff(events: seq<Event>)
    ensures var w := Run(events).world;
            IsCreating(w) ==>
              var c := w.store.value.creation.value;
              Resumable(w.store.value, |c.replicas|) <==> c.networks > 0 && NoneBeyondOf(w, c.op)
  {
    RunInv(events);
    RunBounded(events);
    RunTracked(events);
    var w := Run(events).world;
    if IsCreating(w) {
      FitsIff(w);
      ResumableIs(w.store.value, |w.store.value.creation.value.replicas|);
      assert CreationOk(w, w.store.value.creation.value);
    }
  }

  /**
   Nobody leaves such a state: a grant beyond the networks is never called, so it stays
   outstanding, its operation stays current, and the state never becomes `destroyed`.
   */
  lemma StuckForever(events: seq<Event>, more: seq<Event>, t: nat)
    requires Beyond(Run(events).world, t)
    ensures var w := Run(events + more).world;
            && Beyond(w, t) && w.creates[t].status == Granted && Current(w, w.creates[t].op)
            && w.store.value.phase != Destroyed
  {
    BeyondStays(events, more, t);
    RunBounded(events + more);
    RunInv(events + more);
    var w := Run(events + more).world;
    assert Outstanding(w, t);
    LiveIsAccounted(events + more, t);
    NoOrphans(events + more);
  }

  lemma {:induction false} BeyondStays(events: seq<Event>, more: seq<Event>, t: nat)
    requires Beyond(Run(events).world, t)
    ensures Beyond(Run(events + more).world, t)
  {
    if more == [] {
      assert events + more == events;
    } else {
      var front, last := more[..|more| - 1], more[|more| - 1];
      BeyondStays(events, front, t);
      BeyondStep(events + front, last, t);
      assert events + front + [last] == events + more;
    }
  }

  lemma BeyondNext(w: World, g: World, t: nat)
    requires Beyond(w, t) && Evolves(w, g)
    ensures Beyond(g, t)
  {
  }

  lemma BeyondStep(events: seq<Event>, e: Event, t: nat)
    requires Beyond(Run(events).world, t)
    ensures Beyond(Run(events + [e]).world, t)
  {
    RunInv(events);
    StepEvolves(Run(events), e);
    BeyondNext(Run(events).world, Step(Run(events), e).world, t);
    RunNext(events, e);
  }

  lemma RunNext(events: seq<Event>, e: Event)
    ensures Run(events + [e]) == Step(Run(events), e)
  {
    assert (events + [e])[..|events|] == events;
  }

  lemma StepEvolves(y: System, e: Event)
    requires Inv(y)
    ensures Evolves(y.world, Step(y, e).world)
  {
    if e.Do? && e.who in y.workers {
      WorkerInv(y, e.who);
      DoWorld(y, e.who, e.reply);
      ActOk(y.world, y.workers[e.who], e.reply);
    } else if e.Tombstone? || e.Materialise? || e.Vanish? || e.Establish? {
      HappenOk(y.world, e);
    } else {
      EvolvesRefl(y.world);
    }
  }

  // ----- one Apply at a time --------------------------------------------------------------------------------

  /** At most one worker is inside reconcileCreation. */
  ghost predicate Solo(y: System) {
    forall p, q :: p in y.workers && q in y.workers && y.workers[p].Apply? && y.workers[q].Apply? ==> p == q
  }

  ghost predicate SoloRun(events: seq<Event>) {
    forall n :: 0 <= n <= |events| ==> Solo(Run(events[..n]))
  }

  ghost predicate SameNetworks(c: Creation, c': Creation) {
    |c.replicas| == |c'.replicas| && forall i ::
        0 <= i < |c.replicas| ==> c'.replicas[i].network == c.replicas[i].network
  }

  /** While its operation is still creating, the snapshot agrees with the store on every network index. */
  ghost predicate SnapSync(w: World, s: State) {
    s.creation.Some? && IsCreating(w) && Current(w, s.creation.value.op) ==>
      SameNetworks(s.creation.value, w.store.value.creation.value)
  }

  /** The worker is on its way to an attempt for a replica that had a network left. */
  predicate Hoping(x: Reconciler) {
    x.Lookup? || x.AcquireRead? || x.AcquireWrite?
  }

  ghost predicate Synced(w: World, x: Reconciler) {
    && SnapSync(w, x.snap)
    && (x.Persist? && x.read.Some? && x.read.value.state.Some? ==> SnapSync(w, x.read.value.state.value))
    && (Hoping(x) && HasReplica(x.snap, x.index) ==>
          x.snap.creation.value.replicas[x.index].network < x.snap.creation.value.networks)
  }

  ghost predicate WorkerSynced(w: World, x: Worker) {
    x.Apply? ==> Synced(w, x.reconciler)
  }

  /** The turn moved no replica to another network. */
  ghost predicate Unmoved(w: World, g: World) {
    IsCreating(g) && Current(g, g.store.value.creation.value.op) ==>
      || g.store.value.creation.value.op >= w.nextId
      || (IsCreating(w) && Current(w, g.store.value.creation.value.op)
          && SameNetworks(w.store.value.creation.value, g.store.value.creation.value))
  }

  lemma SnapSyncStays(w: World, g: World, s: State)
    requires SnapSync(w, s) && Unmoved(w, g) && (s.creation.Some? ==> s.creation.value.op < w.nextId)
    ensures SnapSync(g, s)
  {
  }

  lemma SyncedStays(w: World, g: World, x: Reconciler)
    requires Synced(w, x) && Unmoved(w, g) && ReconcilerOk(w, x)
    ensures Synced(g, x)
  {
    SnapSyncStays(w, g, x.snap);
    if x.Persist? && x.read.Some? && x.read.value.state.Some? { SnapSyncStays(w, g, x.read.value.state.value); }
  }

  // Workers outside reconcileCreation move no replica, and enter it with a fresh snapshot.

  lemma OtherUnmoved(w: World, x: Worker, reply: Reply)
    requires Core(w) && WorkerOk(w, x) && !x.Apply?
    ensures var turn := Act(w, x, reply); Unmoved(w, turn.world) && WorkerSynced(turn.world, turn.worker)
  {
    OtherKeeps(w, x, reply);
  }

  // The one Apply keeps its own snapshot up to date.

  /** Where it goes on after a write or after finding it done, it stands on what it wrote or read. */
  lemma ContinueSynced(w: World, s: State, index: nat, m: Mutation)
    requires SnapSync(w, s)
    ensures WorkerSynced(w, Continue(s, index, m))
  {
  }

  lemma AbandonSynced(w: World, snap: State, index: nat, m: Mutation, fenced: bool)
    requires SnapSync(w, snap)
    ensures WorkerSynced(w, Abandon(snap, index, m, fenced))
  {
  }

  lemma ReadingSynced(w: World, x: Reconciler, reply: Reply)
    requires Synced(w, x) && x.Persist? && x.read.None?
    ensures var turn := StepPersist(w, x.snap, x.index, x.mutation, x.read, reply);
            WorkerSynced(turn.world, turn.worker)
  {
    AbandonSynced(w, x.snap, x.index, x.mutation, false);
  }

  lemma PersistSynced(w: World, x: Reconciler, reply: Reply)
    requires Core(w) && ReconcilerOk(w, x) && Synced(w, x) && x.Persist?
    ensures var turn := StepPersist(w, x.snap, x.index, x.mutation, x.read, reply);
            WorkerSynced(turn.world, turn.worker)
  {
    if x.read.None? {
      ReadingSynced(w, x, reply);
    } else if x.snap.creation.Some? && !(x.mutation.Slot() && !HasReplica(x.snap, x.index)) {
      var o := MutateRead(x.snap, x.index, x.mutation, x.read.value);
      if o.Keep? {
        ContinueSynced(w, x.read.value.state.value, x.index, x.mutation);
      } else if o.Write? {
        ContinueSynced(Commit(w, o.state), o.state, x.index, x.mutation);
      }
    }
  }

  lemma AcquireSynced(w: World, x: Reconciler, reply: Reply)
    requires Core(w) && ReconcilerOk(w, x) && x.AcquireWrite?
    ensures var turn := StepAcquireWrite(w, x.snap, x.index, x.claim, reply); WorkerSynced(turn.world, turn.worker)
  {
  }

  lemma QuietSynced(w: World, x: Reconciler, reply: Reply)
    requires Synced(w, x) && !x.Persist? && !x.AcquireWrite? && ActReconcile(w, x, reply).world.store == w.store
    ensures var turn := ActReconcile(w, x, reply); WorkerSynced(turn.world, turn.worker)
  {
  }

  lemma ReconcileSynced(w: World, x: Reconciler, reply: Reply)
    requires Core(w) && ReconcilerOk(w, x) && Synced(w, x)
    ensures var turn := ActReconcile(w, x, reply); WorkerSynced(turn.world, turn.worker)
  {
    if x.Persist? {
      PersistSynced(w, x, reply);
    } else if x.AcquireWrite? {
      AcquireSynced(w, x, reply);
    } else {
      QuietTurn(w, x, reply);
      QuietSynced(w, x, reply);
    }
  }

  lemma GrantInside(w: World, x: Reconciler, reply: Reply)
    requires Core(w) && ReconcilerOk(w, x) && Synced(w, x) && x.AcquireWrite? && NoneBeyond(w)
    ensures NoneBeyond(StepAcquireWrite(w, x.snap, x.index, x.claim, reply).world)
  {
    var g := StepAcquireWrite(w, x.snap, x.index, x.claim, reply).world;
    if g != w {
      assert x.claim.state == w.store;
      AcquireAscends(w.store.value, x.snap.creation.value.op, x.index, w.nextId);
      assert CreationOk(w, w.store.value.creation.value);
      assert SameNetworks(x.snap.creation.value, w.store.value.creation.value);
      forall t ensures !Beyond(g, t) { assert !Beyond(w, t); }
    }
  }

  /** Only an acquisition makes grants. */
  lemma NoNewGrants(w: World, x: Worker, reply: Reply)
    requires !Grabs(x)
    ensures Act(w, x, reply).world.creates.Keys == w.creates.Keys
  {
    if reply != Crash && !Poised(x) { ActFrame(w, x, reply); }
  }

  lemma InsideStays(w: World, g: World)
    requires NoneBeyond(w) && Books(w) && Evolves(w, g) && g.creates.Keys == w.creates.Keys
    ensures NoneBeyond(g)
  {
    forall t ensures !Beyond(g, t) { assert !Beyond(w, t); }
  }

  ghost predicate SoloInv(y: System) {
    NoneBeyond(y.world) && forall p :: p in y.workers ==> WorkerSynced(y.world, y.workers[p])
  }

  lemma SoloWorld(y: System, who: nat, reply: Reply)
    requires Inv(y) && SoloInv(y) && who in y.workers
    ensures NoneBeyond(Act(y.world, y.workers[who], reply).world)
  {
    var w, x := y.world, y.workers[who];
    WorkerInv(y, who);
    if Grabs(x) && reply != Crash {
      GrantInside(w, x.reconciler, reply);
    } else if !Grabs(x) {
      NoNewGrants(w, x, reply);
      ActOk(w, x, reply);
      InsideStays(w, Act(w, x, reply).world);
    }
  }

  lemma SoloOwn(w: World, x: Worker, reply: Reply)
    requires Core(w) && WorkerOk(w, x) && WorkerSynced(w, x)
    ensures WorkerSynced(Act(w, x, reply).world, Act(w, x, reply).worker)
  {
    if !x.Apply? {
      OtherUnmoved(w, x, reply);
    } else if reply != Crash {
      ReconcileSynced(w, x.reconciler, reply);
    }
  }

  lemma SoloOthers(y: System, who: nat, reply: Reply, p: nat)
    requires Inv(y) && Solo(y) && SoloInv(y) && who in y.workers && p in y.workers && p != who
    ensures WorkerSynced(Act(y.world, y.workers[who], reply).world, y.workers[p])
  {
    if y.workers[p].Apply? {
      WorkerInv(y, who);
      WorkerInv(y, p);
      OtherUnmoved(y.world, y.workers[who], reply);
      SyncedStays(y.world, Act(y.world, y.workers[who], reply).world, y.workers[p].reconciler);
    }
  }

  lemma SoloDo(y: System, who: nat, reply: Reply)
    requires Inv(y) && Solo(y) && SoloInv(y) && who in y.workers
    ensures SoloInv(Step(y, Do(who, reply)))
  {
    var turn := Act(y.world, y.workers[who], reply);
    WorkerInv(y, who);
    SoloWorld(y, who, reply);
    SoloOwn(y.world, y.workers[who], reply);
    var z := Step(y, Do(who, reply));
    assert z == System(turn.world, y.workers[who := turn.worker]);
    forall p | p in z.workers ensures WorkerSynced(z.world, z.workers[p]) {
      if p != who { SoloOthers(y, who, reply, p); }
    }
  }

  lemma SoloHappen(y: System, e: Event)
    requires Inv(y) && SoloInv(y) && !(e.Do? && e.who in y.workers)
    ensures SoloInv(Step(y, e))
  {
    var z := Step(y, e);
    EventShape(y, e);
    StepEvolves(y, e);
    InsideStays(y.world, z.world);
    forall p | p in z.workers ensures WorkerSynced(z.world, z.workers[p]) {
      if !Newcomer(z.workers[p], e) && y.workers[p].Apply? {
        WorkerInv(y, p);
        SyncedStays(y.world, z.world, y.workers[p].reconciler);
      }
    }
  }

  lemma {:induction false} SoloHolds(events: seq<Event>)
    requires SoloRun(events)
    ensures SoloInv(Run(events))
  {
    if events != [] {
      var front, last := events[..|events| - 1], events[|events| - 1];
      assert forall n :: 0 <= n <= |front| ==> front[..n] == events[..n];
      SoloHolds(front);
      RunInv(front);
      assert Solo(Run(events[..|front|]));
      if last.Do? && last.who in Run(front).workers {
        SoloDo(Run(front), last.who, last.reply);
      } else {
        SoloHappen(Run(front), last);
      }
    }
  }

  /**
   With at most one worker inside reconcileCreation at any moment, however often it
   stops and another takes over, a creating state always passes the test.
   */
  lemma SoloIsResumable(events: seq<Event>)
    requires SoloRun(events)
    ensures var w := Run(events).world;
            IsCreating(w) && w.store.value.creation.value.networks > 0 ==>
              Resumable(w.store.value, |w.store.value.creation.value.replicas|)
  {
    SoloHolds(events);
    ResumableIff(events);
  }
}
