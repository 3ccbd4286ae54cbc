/** What holds of the compute lifecycle in every reachable state. */
module Lifecycle {
  import opened Base
  import opened LifecycleState
  import opened LifecycleMachine
  import opened LifecycleSafety
  import opened LifecycleSteps
  import opened LifecycleTeardown

  predicate Poised(x: Worker) {
    x.Apply? && x.reconciler.Launch?
  }

  /** A worker about to call the provider owns a granted attempt for exactly that call. */
  predicate Entitled(w: World, x: Worker) {
    Poised(x) && HasReplica(x.reconciler.snap, x.reconciler.index) ==>
      var r := x.reconciler.snap.creation.value.replicas[x.reconciler.index];
      && At(w, r.attempt, x.reconciler.snap.creation.value.op, x.reconciler.index)
      && w.creates[r.attempt].status == Granted && w.creates[r.attempt].network == r.network
  }

  function GrantOf(x: Worker): nat {
    if Poised(x) && HasReplica(x.reconciler.snap, x.reconciler.index)
    then x.reconciler.snap.creation.value.replicas[x.reconciler.index].attempt else 0
  }

  ghost predicate Grants(y: System) {
    && (forall p :: p in y.workers ==> Entitled(y.world, y.workers[p]))
    && DistinctGrants(y.workers)
  }

  /** No two workers are about to launch under the same attempt. */
  ghost predicate DistinctGrants(z: map<nat, Worker>) {
    forall p, q :: p in z && q in z && p != q && Poised(z[p]) && Poised(z[q]) ==> GrantOf(z[p]) != GrantOf(z[q])
  }

  ghost predicate Inv(y: System) {
    && Core(y.world) && Grants(y)
    && forall p :: p in y.workers ==> WorkerOk(y.world, y.workers[p])
  }

  lemma ReconcileOk(w: World, x: Reconciler, reply: Reply)
    requires Core(w) && ReconcilerOk(w, x) && Entitled(w, Apply(x))
    ensures Guarantee(w, ActReconcile(w, x, reply))
  {
    match x
    case Scan(snap, index) => ScanOk(w, snap, index, reply);
    case Lookup(snap, index) => LookupOk(w, snap, index, reply);
    case AcquireRead(snap, index) => AcquireReadOk(w, snap, index, reply);
    case AcquireWrite(snap, index, claim) => AcquireWriteOk(w, snap, index, claim, reply);
    case Launch(snap, index) => LaunchOk(w, snap, index, reply);
    case _ => AfterLaunchOk(w, x, reply);
  }

  lemma AfterLaunchOk(w: World, x: Reconciler, reply: Reply)
    requires Core(w) && ReconcilerOk(w, x)
    requires x.Launched? || x.Confirm? || x.Wait? || x.Discard? || x.Proof? || x.Persist?
    ensures Guarantee(w, ActReconcile(w, x, reply))
  {
    match x
    case Launched(snap, index) => LaunchedOk(w, snap, index, reply);
    case Confirm(snap, index, created) => ConfirmOk(w, snap, index, created, reply);
    case Wait(snap, index, server) => WaitOk(w, snap, index, server, reply);
    case Discard(snap, index, server) => DiscardOk(w, snap, index, server, reply);
    case Proof(snap, index) => ProofOk(w, snap, index, reply);
    case Persist(snap, index, m, read) => PersistOk(w, snap, index, m, read, reply);
  }

  lemma BeginOrCleanOk(w: World, x: Beginner, reply: Reply)
    requires Core(w) && BeginnerOk(w, x)
    ensures Guarantee(w, ActBeginOrClean(w, x, reply))
  {
    match x
    case ApplyRead(spec) => ApplyReadOk(w, spec, reply);
    case ApplyIntent(spec, version) => ApplyIntentOk(w, spec, version, reply);
    case CleanClaim(op, index, attempt, server, read) => CleanClaimOk(w, op, index, attempt, server, read, reply);
    case CleanDelete(op, index, attempt, server, prior) => CleanDeleteOk(w, op, index, attempt, server, prior, reply);
    case CleanFinish(op, index, attempt, server, prior, deleted, read) =>
      CleanFinishOk(w, op, index, attempt, server, prior, deleted, read, reply);
  }

  lemma TeardownOk(w: World, x: Destroyer, reply: Reply)
    requires Core(w) && DestroyerOk(w, x)
    ensures Guarantee(w, ActDestroy(w, x, reply))
  {
    match x
    case DestroyRead => DestroyReadOk(w, reply);
    case DestroyFence(claim) => DestroyFenceOk(w, claim, reply);
    case Prepare(job) => PrepareOk(w, job, reply);
    case Find(job, index) => FindOk(w, job, index, reply);
    case Inspect(job, index, seen) => InspectOk(w, job, index, seen, reply);
    case Delete(job, index, seen, todo) => DeleteOk(w, job, index, seen, todo, reply);
    case Policies(job) => PoliciesOk(w, job, reply);
    case TearDown(job, index, m, read) => TearDownOk(w, job, index, m, read, reply);
  }

  lemma ExposeOk(w: World, x: Exposer, reply: Reply)
    requires Core(w) && ExposerOk(w, x)
    ensures Guarantee(w, ActExpose(w, x, reply))
  {
    match x
    case ExposeRead(identity, recover) => ExposeReadOk(w, identity, recover, reply);
    case ExposeClaim(identity, claim) => ExposeClaimOk(w, identity, claim, reply);
    case ExposeCall(cop, eop) => ExposeCallOk(w, cop, eop, reply);
    case ExposeCalled(_) => ExposeSideOk(w, x, reply);
    case ExposeLookup(_, _) => ExposeSideOk(w, x, reply);
    case ExposeRetry(_) => ExposeSideOk(w, x, reply);
    case ExposePersist(eop, m, read) => ExposePersistOk(w, eop, m, read, reply);
    case PolicyClaim(eop, policy, read) => PolicyClaimOk(w, eop, policy, read, reply);
    case PolicyDelete(_, _) => ExposeSideOk(w, x, reply);
    case PolicyFinish(eop, policy, deleted, read) => PolicyFinishOk(w, eop, policy, deleted, read, reply);
  }

  /** Guarantee: no turn of any worker, whatever it meets, breaks the shared invariant. */
  lemma ActOk(w: World, x: Worker, reply: Reply)
    requires Core(w) && WorkerOk(w, x) && Entitled(w, x)
    ensures Guarantee(w, Act(w, x, reply))
  {
    if reply == Crash || x.Stopped? { Stay(w, Stopped); }
    else {
      match x
      case Apply(r) => ReconcileOk(w, r, reply);
      case Begin(b) => BeginOrCleanOk(w, b, reply);
      case Destroy(d) => TeardownOk(w, d, reply);
      case Expose(e) => ExposeOk(w, e, reply);
    }
  }

  // ----- grants -------------------------------------------------------------------------

  /** Only acquiring and launching touch the create attempts. */
  ghost predicate LeavesCreates(w: World, turn: Turn) {
    turn.world.creates == w.creates && turn.world.calls == w.calls && !Poised(turn.worker)
  }

  lemma BeginFrame(w: World, x: Beginner, reply: Reply)
    ensures LeavesCreates(w, ActBeginOrClean(w, x, reply))
  {
  }

  lemma DestroyFrame(w: World, x: Destroyer, reply: Reply)
    ensures LeavesCreates(w, ActDestroy(w, x, reply))
  {
  }

  lemma ExposeFrame(w: World, x: Exposer, reply: Reply)
    ensures LeavesCreates(w, ActExpose(w, x, reply))
  {
  }

  lemma ReconcileFrame(w: World, x: Reconciler, reply: Reply)
    requires !x.AcquireWrite? && !x.Launch?
    ensures LeavesCreates(w, ActReconcile(w, x, reply))
  {
  }

  /** The turn `w -> g` by worker `x` leaves every other grant alone. */
  ghost predicate KeepsGrants(w: World, x: Worker, g: World) {
    forall t :: t in w.creates && t != GrantOf(x) ==> t in g.creates && g.creates[t] == w.creates[t]
  }

  lemma AcquireGrants(w: World, x: Reconciler, reply: Reply)
    requires Core(w) && ReconcilerOk(w, x) && Entitled(w, Apply(x)) && (x.AcquireWrite? || x.Launch?)
    ensures var turn := ActReconcile(w, x, reply);
            && KeepsGrants(w, Apply(x), turn.world) && Entitled(turn.world, turn.worker)
            && (Poised(turn.worker) ==> GrantOf(turn.worker) >= w.nextId)
  {
  }

  lemma ActGrants(w: World, x: Worker, reply: Reply)
    requires Core(w) && WorkerOk(w, x) && Entitled(w, x)
    ensures var turn := Act(w, x, reply);
            && KeepsGrants(w, x, turn.world) && Entitled(turn.world, turn.worker)
            && (Poised(turn.worker) ==> GrantOf(turn.worker) >= w.nextId)
  {
    if reply == Crash {
    } else if x.Apply? && (x.reconciler.AcquireWrite? || x.reconciler.Launch?) {
      AcquireGrants(w, x.reconciler, reply);
    } else {
      match x
      case Stopped =>
      case Apply(r) => ReconcileFrame(w, r, reply);
      case Begin(b) => BeginFrame(w, b, reply);
      case Destroy(d) => DestroyFrame(w, d, reply);
      case Expose(e) => ExposeFrame(w, e, reply);
    }
  }

  lemma EntitledStable(w: World, x: Worker, g: World, other: Worker)
    requires Entitled(w, other) && KeepsGrants(w, x, g) && WorkerOk(w, other) && Core(w)
    requires Poised(x) && Poised(other) ==> GrantOf(x) != GrantOf(other)
    ensures Entitled(g, other)
  {
  }

  lemma GrantIsOld(w: World, x: Worker)
    requires Core(w) && WorkerOk(w, x) && Entitled(w, x) && Poised(x)
    ensures GrantOf(x) < w.nextId
  {
  }

  lemma OthersKeep(y: System, who: nat, g: World)
    requires Inv(y) && who in y.workers && Evolves(y.world, g) && KeepsGrants(y.world, y.workers[who], g)
    ensures forall p :: p in y.workers && p != who ==> WorkerOk(g, y.workers[p]) && Entitled(g, y.workers[p])
  {
    forall p | p in y.workers && p != who ensures WorkerOk(g, y.workers[p]) && Entitled(g, y.workers[p]) {
      WorkerStable(y.world, g, y.workers[p]);
      EntitledStable(y.world, y.workers[who], g, y.workers[p]);
    }
  }

  lemma GrantsDistinct(y: System, who: nat, x: Worker)
    requires Inv(y) && who in y.workers && (Poised(x) ==> GrantOf(x) >= y.world.nextId)
    ensures DistinctGrants(y.workers[who := x])
  {
    forall p | p in y.workers && Poised(y.workers[p]) ensures GrantOf(y.workers[p]) < y.world.nextId {
      GrantIsOld(y.world, y.workers[p]);
    }
  }

  lemma Reassemble(y: System, who: nat, turn: Turn)
    requires who in y.workers && Guarantee(y.world, turn) && Entitled(turn.world, turn.worker)
    requires forall p :: p in y.workers && p != who ==>
              WorkerOk(turn.world, y.workers[p]) && Entitled(turn.world, y.workers[p])
    requires DistinctGrants(y.workers[who := turn.worker])
    ensures Inv(System(turn.world, y.workers[who := turn.worker]))
  {
  }

  /** Whatever turn keeps its promises keeps the invariant of the whole system. */
  lemma TurnInv(y: System, who: nat, turn: Turn)
    requires Inv(y) && who in y.workers && Guarantee(y.world, turn) && Entitled(turn.world, turn.worker)
    requires KeepsGrants(y.world, y.workers[who], turn.world)
    requires Poised(turn.worker) ==> GrantOf(turn.worker) >= y.world.nextId
    ensures Inv(System(turn.world, y.workers[who := turn.worker]))
  {
    OthersKeep(y, who, turn.world);
    GrantsDistinct(y, who, turn.worker);
    Reassemble(y, who, turn);
  }

  lemma DoInv(y: System, who: nat, reply: Reply)
    requires Inv(y) && who in y.workers
    ensures Inv(Step(y, Do(who, reply)))
  {
    ActOk(y.world, y.workers[who], reply);
    ActGrants(y.world, y.workers[who], reply);
    TurnInv(y, who, Act(y.world, y.workers[who], reply));
  }

  /** A worker that an event starts. */
  predicate Newcomer(x: Worker, e: Event) {
    || (e.SpawnApply? && x == Begin(ApplyRead(e.spec)))
    || (e.SpawnDestroy? && x == Destroy(DestroyRead))
    || (e.SpawnExpose? && x == Expose(ExposeRead(e.identity, e.recover)))
  }

  /** Where no worker takes a turn, the workers are the old ones and perhaps one that just starts. */
  lemma EventShape(y: System, e: Event)
    requires !(e.Do? && e.who in y.workers)
    ensures var z := Step(y, e);
            && z.world == Happen(y.world, e)
            && forall p :: p in z.workers ==>
                (p in y.workers && z.workers[p] == y.workers[p]) || Newcomer(z.workers[p], e)
  {
  }

  lemma DoWorld(y: System, who: nat, reply: Reply)
    requires who in y.workers
    ensures Step(y, Do(who, reply)).world == Act(y.world, y.workers[who], reply).world
  {
  }

  lemma WorkerInv(y: System, who: nat)
    requires Inv(y) && who in y.workers
    ensures Core(y.world) && WorkerOk(y.world, y.workers[who]) && Entitled(y.world, y.workers[who])
  {
  }

  lemma HappenInv(y: System, e: Event)
    requires Inv(y) && (e.Tombstone? || e.Materialise? || e.Vanish? || e.Establish?)
    ensures Inv(Step(y, e))
  {
    HappenOk(y.world, e);
    var g := Happen(y.world, e);
    forall p | p in y.workers ensures WorkerOk(g, y.workers[p]) && Entitled(g, y.workers[p]) {
      WorkerStable(y.world, g, y.workers[p]);
      HappenEntitled(y.world, e, y.workers[p]);
    }
  }

  /** The provider acts only on attempts that were already called. */
  lemma HappenEntitled(w: World, e: Event, x: Worker)
    requires Entitled(w, x)
    ensures Entitled(Happen(w, e), x)
  {
  }

  lemma SpawnInv(y: System, who: nat, x: Worker)
    requires Inv(y)
              && ((x.Begin? && x.beginner.ApplyRead?) || x == Destroy(DestroyRead)
              || (x.Expose? && x.exposer.ExposeRead?))
    ensures Inv(Spawn(y, who, x))
  {
    assert WorkerOk(y.world, x) && Entitled(y.world, x);
  }

  lemma StepInv(y: System, e: Event)
    requires Inv(y)
    ensures Inv(Step(y, e))
  {
    match e
    case SpawnApply(who, spec) => SpawnInv(y, who, Begin(ApplyRead(spec)));
    case SpawnDestroy(who) => SpawnInv(y, who, Destroy(DestroyRead));
    case SpawnExpose(who, identity, recover) => SpawnInv(y, who, Expose(ExposeRead(identity, recover)));
    case Do(who, reply) => if who in y.workers { DoInv(y, who, reply); }
    case _ => HappenInv(y, e);
  }

  /** The invariant holds in every state that any interleaving can reach. */
  lemma {:induction false} RunInv(events: seq<Event>)
    ensures Inv(Run(events))
  {
    if events != [] {
      RunInv(events[..|events| - 1]);
      StepInv(Run(events[..|events| - 1]), events[|events| - 1]);
    }
  }

  // ----- the theorems ----------------------------------------------------------------------

  /**
   No orphaned compute. Once the durable phase is `destroyed`, every replica
   intent is destroyed, no server is live, and no attempt of any operation, ever,
   can still produce one.
   */
  lemma NoOrphans(events: seq<Event>)
    ensures var w := Run(events).world;
            w.store.Some? && w.store.value.phase == Destroyed ==>
              && (w.store.value.creation.Some? ==> AllGone(w.store.value.creation.value))
              && w.live == {}
              && forall t :: t in w.creates ==> !Outstanding(w, t)
  {
    RunInv(events);
    var w := Run(events).world;
    if w.store.Some? && w.store.value.phase == Destroyed {
      NoneOutstanding(w);
      forall s | s in w.servers ensures s !in w.live {
        assert w.creates[w.servers[s]].status == Born(s) && !Outstanding(w, w.servers[s]);
      }
    }
  }

  /**
   Before that, at any moment: whatever is live or may still come alive belongs
   to the current operation, and to the one attempt its replica intent names.
   */
  lemma LiveIsAccounted(events: seq<Event>, t: nat)
    requires Outstanding(Run(events).world, t)
    ensures var w := Run(events).world;
            && Current(w, w.creates[t].op) && w.creates[t].replica < |w.store.value.creation.value.replicas|
            && var r := w.store.value.creation.value.replicas[w.creates[t].replica];
               r.attempt == t && r.phase !in {Pending, Gone}
                   && (Held(r.phase) ==> w.creates[t].status == Born(r.server))
  {
    RunInv(events);
    var w := Run(events).world;
    var c := w.store.value.creation.value;
    assert CreationOk(w, c);
    assert w.creates[t].op == c.op;
    var i := w.creates[t].replica;
    assert ReplicaOk(w, c.op, i, c.replicas[i]);
    assert At(w, t, c.op, i);
  }
}
