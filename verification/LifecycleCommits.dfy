/**
 What a single durable write may do to the creation intent, whichever worker
 makes it. Between any two moments of a run this gives the order in which a
 replica intent moves, and it is what the bound on provider creates rests on.
 */
module LifecycleCommits {
  import opened Base
  import opened LifecycleState
  import opened LifecycleMachine
  import opened LifecycleSafety
  import opened LifecycleSteps
  import opened LifecycleTeardown
  import opened Lifecycle

  // ----- the order of a replica intent --------------------------------------------------

  function Stage(p: ReplicaPhase): nat {
    match p
    case Pending => 0
    case Launching => 1
    case Attached => 2
    case Active => 3
    case Proven => 4
    case Cleaning => 5
    case Gone => 6
  }

  /** Lexicographically later in (network, phase). */
  predicate Above(r: Replica, r': Replica) {
    r.network < r'.network || (r.network == r'.network && Stage(r.phase) < Stage(r'.phase))
  }

  predicate NotBelow(r: Replica, r': Replica) {
    r.network < r'.network || (r.network == r'.network && Stage(r.phase) <= Stage(r'.phase))
  }

  /** The attempt stays, or the replica moves on to its next network without one. */
  predicate Slip(r: Replica, r': Replica) {
    (r'.network == r.network && r'.attempt == r.attempt) || (r'.network == r.network + 1 && r'.attempt == 0)
  }

  ghost predicate Climbs(c: Creation, c': Creation) {
    && c'.op == c.op && c'.networks == c.networks && |c'.replicas| == |c.replicas|
    && (c'.phase == Creating ==> c.phase == Creating)
    && (forall i :: 0 <= i < |c.replicas| && c.replicas[i].phase == Gone ==> c'.replicas[i].phase == Gone)
    && (c'.phase == Creating ==> forall i :: 0 <= i < |c.replicas| ==> NotBelow(c.replicas[i], c'.replicas[i]))
  }

  ghost predicate Slips(c: Creation, c': Creation) {
    && Climbs(c, c')
    && forall i :: 0 <= i < |c.replicas| ==> Slip(c.replicas[i], c'.replicas[i])
  }

  /** A write that grants no attempt. */
  ghost predicate Rewrites(s: State, s': State) {
    && s'.creation.Some? == s.creation.Some?
    && (s.creation.Some? ==> Slips(s.creation.value, s'.creation.value))
  }

  // ----- every transition -----------------------------------------------------------------

  /**
   While `creating`, a committed resource transition belongs to the current
   operation and to the replica's own attempt, moves that replica strictly up,
   and touches no other replica.
   */
  lemma SlotAscends(s: State, op: nat, index: nat, attempt: nat, m: Mutation)
    requires m.Slot() && MutateCreation(s, op, index, attempt, m).Write?
    ensures var s' := MutateCreation(s, op, index, attempt, m).state;
            && BothCreating(s) && BothCreating(s') && s.creation.value.op == op == s'.creation.value.op
            && var rs, rs' := s.creation.value.replicas, s'.creation.value.replicas;
               && index < |rs| && (attempt != 0 ==> rs[index].attempt == attempt)
               && rs' == rs[index := rs'[index]] && Above(rs[index], rs'[index]) && Slip(rs[index], rs'[index])
  {
  }

  lemma AcquireAscends(s: State, op: nat, index: nat, attempt: nat)
    requires Acquire(s, op, index, attempt).Write?
    ensures var s' := Acquire(s, op, index, attempt).state;
            && BothCreating(s) && BothCreating(s') && s.creation.value.op == op == s'.creation.value.op
            && var rs, rs' := s.creation.value.replicas, s'.creation.value.replicas;
               && index < |rs| && rs[index].phase == Pending
               && rs' == rs[index := rs'[index]] && Above(rs[index], rs'[index])
               && rs'[index].attempt == attempt && rs'[index].network == rs[index].network
  {
  }

  lemma MutateRewrites(s: State, op: nat, index: nat, attempt: nat, m: Mutation)
    requires MutateCreation(s, op, index, attempt, m).Write?
    ensures Rewrites(s, MutateCreation(s, op, index, attempt, m).state)
  {
    if m.Slot() { SlotAscends(s, op, index, attempt, m); }
  }

  lemma ClaimRewrites(s: State, op: nat, index: nat, attempt: nat, server: nat)
    requires PhasesOk(s) && ClaimCleanup(s, op, index, attempt, server).Write?
    ensures Rewrites(s, ClaimCleanup(s, op, index, attempt, server).state)
  {
  }

  lemma FinishRewrites(s: State, op: nat, index: nat, attempt: nat, server: nat, prior: ReplicaPhase, deleted: bool)
    requires PhasesOk(s) && FinishCleanup(s, op, index, attempt, server, prior, deleted).Write?
    ensures Rewrites(s, FinishCleanup(s, op, index, attempt, server, prior, deleted).state)
  {
  }

  lemma DestroyRewrites(s: State, cop: nat, eop: nat, m: Teardown)
    requires PhasesOk(s) && MutateDestroy(s, cop, eop, m).Write?
    ensures Rewrites(s, MutateDestroy(s, cop, eop, m).state)
  {
  }

  // ----- every turn -------------------------------------------------------------------------

  /** The turn left the intent alone, rewrote it, or opened an operation with a new name. */
  ghost predicate Writes(w: World, g: World) {
    || g.store == w.store
    || (w.store.Some? && w.store.value.phase != Destroyed && g.store.Some? && Rewrites(w.store.value, g.store.value))
    || (g.store.Some? && g.store.value.creation.Some? && g.store.value.creation.value.op >= w.nextId)
  }

  lemma BeginWrites(w: World, x: Beginner, reply: Reply)
    requires Core(w) && BeginnerOk(w, x)
    ensures Writes(w, ActBeginOrClean(w, x, reply).world)
  {
    if x.CleanClaim? && x.read.Some? && x.read.value.state.Some? && x.read.value.version == w.version {
      if ClaimCleanup(w.store.value, x.op, x.index, x.attempt, x.server).Write? {
        ClaimRewrites(w.store.value, x.op, x.index, x.attempt, x.server);
      }
    }
    if x.CleanFinish? && x.read.Some? && x.read.value.state.Some? && x.read.value.version == w.version {
      if FinishCleanup(w.store.value, x.op, x.index, x.attempt, x.server, x.prior, x.deleted).Write? {
        FinishRewrites(w.store.value, x.op, x.index, x.attempt, x.server, x.prior, x.deleted);
      }
    }
  }

  lemma DestroyWrites(w: World, x: Destroyer, reply: Reply)
    requires Core(w) && DestroyerOk(w, x)
    ensures Writes(w, ActDestroy(w, x, reply).world)
  {
    if x.TearDown? && x.read.Some? && x.read.value.state.Some? && x.read.value.version == w.version {
      if MutateDestroy(w.store.value, x.job.cop, x.job.eop, x.teardown).Write? {
        DestroyRewrites(w.store.value, x.job.cop, x.job.eop, x.teardown);
      }
    }
  }

  lemma ExposeWrites(w: World, x: Exposer, reply: Reply)
    requires Core(w) && ExposerOk(w, x)
    ensures Writes(w, ActExpose(w, x, reply).world)
  {
  }

  lemma SaveWrites(w: World, snap: State, index: nat, m: Mutation, read: Option<Read>, reply: Reply)
    requires read.Some? && read.value.version == w.version ==> read.value.state == w.store
    ensures Writes(w, StepPersist(w, snap, index, m, read, reply).world)
  {
    if snap.creation.Some? && read.Some? && read.value.version == w.version && read.value.state.Some? {
      var o := MutateRead(snap, index, m, read.value);
      if o.Write? {
        var attempt := if HasReplica(snap, index) then snap.creation.value.replicas[index].attempt else 0;
        MutateRewrites(w.store.value, snap.creation.value.op, index, attempt, m);
      }
    }
  }

  lemma ReconcileWrites(w: World, x: Reconciler, reply: Reply)
    requires Core(w) && ReconcilerOk(w, x) && !x.AcquireWrite?
    ensures Writes(w, ActReconcile(w, x, reply).world)
  {
    if x.Persist? { SaveWrites(w, x.snap, x.index, x.mutation, x.read, reply); }
  }

  predicate Grabs(x: Worker) {
    x.Apply? && x.reconciler.AcquireWrite?
  }

  lemma ActWrites(w: World, x: Worker, reply: Reply)
    requires Core(w) && WorkerOk(w, x) && !Grabs(x)
    ensures Writes(w, Act(w, x, reply).world)
  {
    if reply != Crash {
      match x
      case Stopped =>
      case Apply(r) => ReconcileWrites(w, r, reply);
      case Begin(b) => BeginWrites(w, b, reply);
      case Destroy(d) => DestroyWrites(w, d, reply);
      case Expose(e) => ExposeWrites(w, e, reply);
    }
  }

  /** A grant is such a write too, except that it names a new attempt. */
  lemma GrabClimbs(w: World, x: Worker, reply: Reply)
    requires Core(w) && WorkerOk(w, x) && Grabs(x)
    ensures var g := Act(w, x, reply).world;
            g.store == w.store ||
            (&& w.store.Some? && g.store.Some? && w.store.value.phase == Creating
             && w.store.value.creation.Some? && g.store.value.creation.Some?
             && Climbs(w.store.value.creation.value, g.store.value.creation.value))
  {
    var r := x.reconciler;
    if HasReplica(r.snap, r.index) && r.claim.state.Some? && r.claim.version == w.version {
      if Acquire(w.store.value, r.snap.creation.value.op, r.index, w.nextId).Write? {
        AcquireAscends(w.store.value, r.snap.creation.value.op, r.index, w.nextId);
      }
    }
  }

  // ----- between any two moments of a run --------------------------------------------------

  /** How the durable state of a later moment relates to an earlier one. */
  ghost predicate Later(w: World, g: World) {
    && w.nextId <= g.nextId
    && (w.store.Some? && w.store.value.creation.Some? ==>
          && g.store.Some? && g.store.value.creation.Some?
          && var c, c' := w.store.value.creation.value, g.store.value.creation.value;
             c.op <= c'.op && (c.op == c'.op ==> Climbs(c, c')))
    && (w.store.Some? && w.store.value.phase == Destroyed ==>
          g.store == w.store
              || (g.store.Some? && g.store.value.creation.Some? && g.store.value.creation.value.op >= w.nextId))
  }

  lemma LaterTransitive(u: World, w: World, g: World)
    requires Later(u, w) && Later(w, g)
    ensures Later(u, g)
  {
    if u.store.Some? && u.store.value.creation.Some? {
      var a, b, c := u.store.value.creation.value, w.store.value.creation.value, g.store.value.creation.value;
      if a.op == c.op && c.phase == Creating {
        forall i | 0 <= i < |a.replicas| ensures NotBelow(a.replicas[i], c.replicas[i]) {
          assert NotBelow(a.replicas[i], b.replicas[i]) && NotBelow(b.replicas[i], c.replicas[i]);
        }
      }
    }
  }

  lemma LaterReflexive(w: World)
    ensures Later(w, w)
  {
  }

  lemma NextLater(events: seq<Event>, e: Event)
    ensures Later(Run(events).world, Run(events + [e]).world)
  {
    RunInv(events);
    StepLater(Run(events), e);
    assert (events + [e])[..|events|] == events;
  }

  lemma WritesLater(w: World, g: World)
    requires Core(w) && Evolves(w, g) && Writes(w, g)
    ensures Later(w, g)
  {
  }

  lemma StepLater(y: System, e: Event)
    requires Inv(y)
    ensures Later(y.world, Step(y, e).world)
  {
    if e.Do? && e.who in y.workers {
      DoLater(y, e.who, e.reply);
    } else {
      HappenOk(y.world, e);
    }
  }

  lemma DoLater(y: System, who: nat, reply: Reply)
    requires Inv(y) && who in y.workers
    ensures Later(y.world, Step(y, Do(who, reply)).world)
  {
    WorkerInv(y, who);
    DoWorld(y, who, reply);
    ActOk(y.world, y.workers[who], reply);
    ActLater(y.world, y.workers[who], reply);
  }

  lemma ActLater(w: World, x: Worker, reply: Reply)
    requires Core(w) && WorkerOk(w, x) && Evolves(w, Act(w, x, reply).world)
    ensures Later(w, Act(w, x, reply).world)
  {
    if Grabs(x) {
      GrabClimbs(w, x, reply);
    } else {
      ActWrites(w, x, reply);
      WritesLater(w, Act(w, x, reply).world);
    }
  }

  /**
   Take any two moments of any run. As long as the same operation is current, a
   destroyed replica stays destroyed; and while that operation is still
   `creating`, no replica has moved down in (network, phase). A destroyed state
   is left only for an operation with a name never used before.
   */
  lemma {:induction false} RunLater(events: seq<Event>, more: seq<Event>)
    ensures Later(Run(events).world, Run(events + more).world)
  {
    if more == [] {
      assert events + more == events;
      LaterReflexive(Run(events).world);
    } else {
      var front, last := more[..|more| - 1], more[|more| - 1];
      RunLater(events, front);
      NextLater(events + front, last);
      assert events + front + [last] == events + more;
      LaterTransitive(Run(events).world, Run(events + front).world, Run(events + more).world);
    }
  }

  // ----- who may commit ------------------------------------------------------------------------

  predicate ExposureIs(w: World, eop: nat) {
    w.store.Some? && w.store.value.exposure.Some? && w.store.value.exposure.value.op == eop
  }

  /** The identifiers a worker carries are the ones the durable state names now. */
  predicate Authority(w: World, x: Worker) {
    match x
    case Stopped => false
    case Apply(AcquireWrite(snap, index, _)) =>
      snap.creation.Some? && Current(w, snap.creation.value.op) && BothCreating(w.store.value)
      && HasReplica(w.store.value, index) && w.store.value.creation.value.replicas[index].phase == Pending
    case Apply(Persist(snap, index, m, _)) =>
      && snap.creation.Some? && Current(w, snap.creation.value.op) && w.store.value.phase !in {Destroying, Destroyed}
      && (m.Slot() ==> BothCreating(w.store.value) && HasReplica(snap, index))
      && (m.Slot() && snap.creation.value.replicas[index].attempt != 0 ==>
            AttemptIs(w, snap.creation.value.op, index, snap.creation.value.replicas[index].attempt))
    case Apply(_) => false
    case Begin(ApplyIntent(_, _)) => w.store.None? || w.store.value.phase == Destroyed
    case Begin(CleanClaim(op, index, attempt, _, _)) => AttemptIs(w, op, index, attempt)
        && w.store.value.phase == Escalated
    case Begin(CleanFinish(op, index, attempt, _, _, _, _)) => AttemptIs(w, op, index, attempt)
        && w.store.value.phase == Cleanup
    case Begin(_) => false
    case Destroy(DestroyFence(_)) => w.store.Some? && w.store.value.phase != Destroyed
    case Destroy(TearDown(job, _, _, _)) => Current(w, job.cop) && w.store.value.phase == Destroying
    case Destroy(_) => false
    case Expose(ExposeClaim(_, _)) => w.store.Some? && w.store.value.phase == Ready
    case Expose(ExposePersist(eop, _, _)) => ExposureIs(w, eop) && w.store.value.phase !in {Destroying, Destroyed}
    case Expose(PolicyClaim(eop, _, _)) => ExposureIs(w, eop) && w.store.value.phase == Escalated
    case Expose(PolicyFinish(eop, _, _, _)) => ExposureIs(w, eop) && w.store.value.phase == Cleanup
    case Expose(_) => false
  }

  lemma ApplyAuthority(w: World, x: Reconciler, reply: Reply)
    requires Core(w) && ReconcilerOk(w, x) && ActReconcile(w, x, reply).world.version != w.version
    ensures Authority(w, Apply(x))
  {
  }

  lemma BeginAuthority(w: World, x: Beginner, reply: Reply)
    requires Core(w) && BeginnerOk(w, x) && ActBeginOrClean(w, x, reply).world.version != w.version
    ensures Authority(w, Begin(x))
  {
  }

  lemma DestroyAuthority(w: World, x: Destroyer, reply: Reply)
    requires Core(w) && DestroyerOk(w, x) && ActDestroy(w, x, reply).world.version != w.version
    ensures Authority(w, Destroy(x))
  {
  }

  lemma ExposeAuthority(w: World, x: Exposer, reply: Reply)
    requires Core(w) && ExposerOk(w, x) && ActExpose(w, x, reply).world.version != w.version
    ensures Authority(w, Expose(x))
  {
  }

  /**
   Stale identifiers never commit: in every run, whatever was read when, the
   worker that changes the durable state holds the operation, attempt or exposure
   that the state names at that moment, in a phase that admits the change. In
   particular no creation or exposure worker commits once Destroy holds its fence.
   */
  lemma StaleNeverCommits(events: seq<Event>, who: nat, reply: Reply)
    requires who in Run(events).workers
    requires Step(Run(events), Do(who, reply)).world.version != Run(events).world.version
    ensures Authority(Run(events).world, Run(events).workers[who])
  {
    RunInv(events);
    var w, x := Run(events).world, Run(events).workers[who];
    match x
    case Stopped =>
    case Apply(r) => ApplyAuthority(w, r, reply);
    case Begin(b) => BeginAuthority(w, b, reply);
    case Destroy(d) => DestroyAuthority(w, d, reply);
    case Expose(e) => ExposeAuthority(w, e, reply);
  }
}
