/**
 The inductive invariant of the lifecycle machine for compute. The proof is a
 rely-guarantee argument: every step keeps the shared invariant and `Evolves`,
 and every fact a worker relies on survives `Evolves`.
 */
module LifecycleSafety {
  import opened Base
  import opened LifecycleState
  import opened LifecycleMachine

  // ----- vocabulary ----------------------------------------------------------------

  /** Attempt `t` was granted for this operation and replica. */
  predicate At(w: World, t: nat, op: nat, index: nat) {
    t in w.creates && w.creates[t].op == op && w.creates[t].replica == index
  }

  /** The attempt owns a live server, or may still come to own one. */
  predicate Outstanding(w: World, t: nat) {
    t in w.creates
    && match w.creates[t].status
       case Granted => true
       case InFlight => true
       case Born(s) => s in w.live
       case Lost => false
  }

  /** Every attempt that is still outstanding owns a live server in `within`. */
  ghost predicate Covered(w: World, op: nat, index: nat, within: set<nat>) {
    forall t :: At(w, t, op, index) && Outstanding(w, t) ==>
        w.creates[t].status.Born? && w.creates[t].status.server in within
  }

  ghost predicate Settled(w: World, op: nat, index: nat) {
    Covered(w, op, index, {})
  }

  predicate Held(p: ReplicaPhase) {
    p in {Attached, Active, Proven, Cleaning}
  }

  // ----- shared invariant --------------------------------------------------------------

  ghost predicate Books(w: World) {
    && w.nextId > 0 && 0 !in w.creates
    && (forall t :: t in w.creates ==> t < w.nextId && w.creates[t].op < w.nextId && w.creates[t].op in w.specs)
    && (forall t :: t in w.creates && w.creates[t].status.Born? ==>
          w.creates[t].status.server in w.servers && w.servers[w.creates[t].status.server] == t)
    && (forall s :: s in w.servers ==>
        0 < s < w.nextId && w.servers[s] in w.creates && w.creates[w.servers[s]].status == Born(s))
    && (forall s :: s in w.live ==> s in w.servers)
    && (forall o :: o in w.specs ==> o < w.nextId)
  }

  /** The shape of a replica in any state that was ever durable. */
  predicate Shape(w: World, r: Replica) {
    && r.attempt < w.nextId
    && (r.phase == Pending ==> r.attempt == 0)
    && (r.phase == Launching ==> r.attempt != 0)
    && (Held(r.phase) ==> r.server != 0)
  }

  ghost predicate ReplicaOk(w: World, op: nat, index: nat, r: Replica) {
    && Shape(w, r)
    && forall t :: At(w, t, op, index) && Outstanding(w, t) ==>
         && t == r.attempt && r.phase != Gone
         && (Held(r.phase) ==> w.creates[t].status == Born(r.server))
  }

  ghost predicate CreationOk(w: World, c: Creation) {
    && 0 < c.op < w.nextId && c.op in w.specs && w.specs[c.op] == Spec(|c.replicas|, c.networks)
    && (forall i :: 0 <= i < |c.replicas| ==> ReplicaOk(w, c.op, i, c.replicas[i]))
    && (forall t :: t in w.creates && w.creates[t].op == c.op ==> w.creates[t].replica < |c.replicas|)
    && (forall t :: t in w.creates && w.creates[t].op != c.op ==> !Outstanding(w, t))
  }

  ghost predicate AllGone(c: Creation) {
    forall i :: 0 <= i < |c.replicas| ==> c.replicas[i].phase == Gone
  }

  ghost predicate PhasesOk(s: State) {
    && (s.creation.None? ==> s.phase == Destroyed)
    && (s.creation.Some? && s.creation.value.phase == Creating ==> s.phase == Creating)
    && (s.creation.Some? && s.phase == Destroyed ==> AllGone(s.creation.value))
  }

  ghost predicate StoreOk(w: World) {
    && (w.store.None? || w.store.value.creation.None? ==> w.creates == map[])
    && (w.store.Some? ==> PhasesOk(w.store.value))
    && (w.store.Some? && w.store.value.creation.Some? ==> CreationOk(w, w.store.value.creation.value))
  }

  // ----- what a worker relies on ----------------------------------------------------------

  predicate Current(w: World, op: nat) {
    w.store.Some? && w.store.value.creation.Some? && w.store.value.creation.value.op == op
  }

  predicate AttemptIs(w: World, op: nat, index: nat, attempt: nat) {
    Current(w, op) && HasReplica(w.store.value, index)
        && w.store.value.creation.value.replicas[index].attempt == attempt
  }

  ghost predicate SnapOk(w: World, s: State) {
    && s.creation.Some? && 0 < s.creation.value.op < w.nextId
    && s.creation.value.op in w.specs
    && w.specs[s.creation.value.op] == Spec(|s.creation.value.replicas|, s.creation.value.networks)
    && forall i :: 0 <= i < |s.creation.value.replicas| ==> Shape(w, s.creation.value.replicas[i])
  }

  ghost predicate ReadOk(w: World, r: Read) {
    && r.version <= w.version
    && (r.version == w.version ==> r.state == w.store)
    && (r.state.Some? && r.state.value.creation.Some? ==> SnapOk(w, r.state.value))
  }

  /** The server came from this replica, and from this very attempt while the attempt is current. */
  predicate Mine(w: World, op: nat, index: nat, attempt: nat, server: nat) {
    && server in w.servers && At(w, w.servers[server], op, index) && attempt < w.nextId
    && (attempt != 0 && AttemptIs(w, op, index, attempt) ==> w.servers[server] == attempt)
  }

  /** The operation can never acquire another create attempt. */
  predicate Fenced(w: World, op: nat) {
    op < w.nextId && w.store.Some? && w.store.value.creation.Some?
    && (Current(w, op) ==> w.store.value.creation.value.phase != Creating)
  }

  ghost predicate GoneBelow(w: World, op: nat, upto: nat) {
    Current(w, op) ==> forall i :: 0 <= i < upto && HasReplica(w.store.value, i) ==>
      w.store.value.creation.value.replicas[i].phase == Gone
  }

  ghost predicate JobOk(w: World, job: Job, upto: nat) {
    && SnapOk(w, job.snap) && job.cop == job.snap.creation.value.op
    && Fenced(w, job.cop) && GoneBelow(w, job.cop, upto)
    && var replicas := job.snap.creation.value.replicas;
       forall i :: 0 <= i < |replicas| && replicas[i].phase in {Pending, Gone} ==> Settled(w, job.cop, i)
  }

  ghost predicate SlotOk(w: World, snap: State, index: nat, server: nat) {
    && SnapOk(w, snap) && HasReplica(snap, index)
    && Mine(w, snap.creation.value.op, index, snap.creation.value.replicas[index].attempt, server)
  }

  ghost predicate PriorOk(prior: ReplicaPhase, attempt: nat) {
    prior != Gone && (prior == Pending ==> attempt == 0) && (prior == Launching ==> attempt != 0)
  }

  function Reach(job: Job, index: nat, m: Teardown): nat {
    match m
    case MarkGone(_) => index
    case EscalateDestroy => 0
    case _ => if job.snap.creation.Some? then |job.snap.creation.value.replicas| else 0
  }

  /** The server an Apply worker believes to belong to its attempt. */
  function ServerOf(x: Reconciler): Option<nat> {
    match x
    case Confirm(_, _, created) => if created != 0 then Some(created) else None
    case Wait(_, _, server) => Some(server)
    case Discard(_, _, server) => Some(server)
    case Persist(_, _, m, _) => if m.Attach? || m.MarkActive? then Some(m.server) else None
    case _ => None
  }

  predicate Launches(x: Reconciler) {
    x.Launch? || x.Launched? || x.Confirm? || (x.Persist? && x.mutation.Attach?)
  }

  ghost predicate MaybeRead(w: World, r: Option<Read>) {
    r.Some? ==> ReadOk(w, r.value)
  }

  ghost predicate ReconcilerOk(w: World, x: Reconciler) {
    && SnapOk(w, x.snap)
    && (ServerOf(x).Some? ==> SlotOk(w, x.snap, x.index, ServerOf(x).value))
    && (Launches(x) ==> HasReplica(x.snap, x.index) && x.snap.creation.value.replicas[x.index].attempt != 0)
    && (x.Launched? || x.Confirm? ==>
        At(w, x.snap.creation.value.replicas[x.index].attempt, x.snap.creation.value.op, x.index))
    && (x.Persist? && x.mutation.Exhaust? ==> x.mutation.server in w.servers && x.mutation.server !in w.live)
    && (x.Persist? ==> MaybeRead(w, x.read))
    && (x.AcquireWrite? ==> ReadOk(w, x.claim))
  }

  ghost predicate BeginnerOk(w: World, x: Beginner) {
    match x
    case ApplyIntent(_, version) =>
      version <= w.version && (version == w.version ==> w.store.None? || w.store.value.phase == Destroyed)
    case CleanClaim(op, index, attempt, server, read) => Mine(w, op, index, attempt, server) && MaybeRead(w, read)
    case CleanDelete(op, index, attempt, server, prior) => server in w.servers && PriorOk(prior, attempt)
    case CleanFinish(op, index, attempt, server, prior, deleted, read) =>
      server in w.servers && PriorOk(prior, attempt) && (deleted ==> server !in w.live) && MaybeRead(w, read)
    case _ => true
  }

  ghost predicate ExposerOk(w: World, x: Exposer) {
    match x
    case ExposeClaim(_, claim) => ReadOk(w, claim) && claim.state.Some? && Exposable(claim.state.value, false)
    case ExposePersist(_, _, read) => MaybeRead(w, read)
    case PolicyClaim(_, _, read) => MaybeRead(w, read)
    case PolicyFinish(_, _, _, read) => MaybeRead(w, read)
    case _ => true
  }

  ghost predicate DestroyerOk(w: World, x: Destroyer) {
    match x
    case DestroyRead => true
    case DestroyFence(claim) => ReadOk(w, claim) && claim.state.Some? && claim.state.value.phase != Destroyed
    case Prepare(job) => JobOk(w, job, 0)
    case Find(job, index) => JobOk(w, job, index)
    case Inspect(job, index, seen) => JobOk(w, job, index) && (seen != {} ==> Covered(w, job.cop, index, seen))
    case Delete(job, index, seen, todo) => JobOk(w, job, index) && Covered(w, job.cop, index, todo)
    case Policies(job) => JobOk(w, job, Reach(job, 0, FinishDestroy))
    case TearDown(job, index, m, read) =>
      && JobOk(w, job, Reach(job, index, m)) && MaybeRead(w, read)
      && (m.MarkGone? ==> m.index == index && Settled(w, job.cop, index))
  }

  ghost predicate WorkerOk(w: World, x: Worker) {
    match x
    case Stopped => true
    case Apply(r) => ReconcilerOk(w, r)
    case Begin(b) => BeginnerOk(w, b)
    case Destroy(d) => DestroyerOk(w, d)
    case Expose(e) => ExposerOk(w, e)
  }

  // ----- what every step guarantees ----------------------------------------------------------

  /** How one durable state may follow another within one creation operation. */
  ghost predicate Tame(nextId: nat, c: Creation, c': Creation) {
    && c'.op == c.op && c'.networks == c.networks && |c'.replicas| == |c.replicas|
    && (c.phase != Creating ==> c'.phase != Creating)
    && forall i :: 0 <= i < |c.replicas| ==>
         && (c.replicas[i].phase == Gone ==> c'.replicas[i].phase == Gone)
         && (c'.replicas[i].attempt == c.replicas[i].attempt || c'.replicas[i].attempt == 0
             || c'.replicas[i].attempt >= nextId)
  }

  ghost predicate Follows(nextId: nat, s: Option<State>, s': Option<State>) {
    s' == s ||
    (&& s'.Some?
     && (s.Some? && s.value.creation.Some? ==>
           s'.value.creation.Some? &&
           (Tame(nextId, s.value.creation.value, s'.value.creation.value) || s'.value.creation.value.op >= nextId))
     && (s.None? || s.value.creation.None? ==> s'.value.creation.None? || s'.value.creation.value.op >= nextId))
  }

  ghost predicate CreatesEvolve(w: World, w': World) {
    && (forall t :: t in w.creates ==>
          && t in w'.creates && w'.creates[t].op == w.creates[t].op && w'.creates[t].replica == w.creates[t].replica
          && w'.creates[t].network == w.creates[t].network
          && (Outstanding(w', t) ==> Outstanding(w, t))
          && (w.creates[t].status.Born? ==> w'.creates[t].status == w.creates[t].status))
    && (forall t :: t in w'.creates && t !in w.creates ==> t >= w.nextId && !Fenced(w, w'.creates[t].op))
  }

  ghost predicate Evolves(w: World, w': World) {
    && w.nextId <= w'.nextId && w.version <= w'.version
    && (w'.version == w.version ==> w'.store == w.store)
    && (forall o :: o in w.specs ==> o in w'.specs && w'.specs[o] == w.specs[o])
    && (forall s :: s in w.servers ==> s in w'.servers && w'.servers[s] == w.servers[s])
    && (forall s :: s in w'.live ==> s in w.live || s >= w.nextId)
    && CreatesEvolve(w, w')
    && Follows(w.nextId, w.store, w'.store)
  }

  // ----- facts survive ------------------------------------------------------------------------

  lemma SnapStable(w: World, w': World, s: State)
    requires Evolves(w, w') && SnapOk(w, s)
    ensures SnapOk(w', s)
  {
    forall i | 0 <= i < |s.creation.value.replicas| ensures Shape(w', s.creation.value.replicas[i]) {
      assert Shape(w, s.creation.value.replicas[i]);
    }
  }

  lemma ReadStable(w: World, w': World, r: Read)
    requires Evolves(w, w') && ReadOk(w, r)
    ensures ReadOk(w', r)
  {
    if r.state.Some? && r.state.value.creation.Some? { SnapStable(w, w', r.state.value); }
  }

  lemma MineStable(w: World, w': World, op: nat, index: nat, attempt: nat, server: nat)
    requires Evolves(w, w') && Mine(w, op, index, attempt, server) && op < w.nextId
    ensures Mine(w', op, index, attempt, server)
  {
    assert w'.servers[server] == w.servers[server];
    if attempt != 0 && AttemptIs(w', op, index, attempt) && w'.store != w.store {
      assert w.store.Some? && w.store.value.creation.Some?;
      var c, c' := w.store.value.creation.value, w'.store.value.creation.value;
      assert Tame(w.nextId, c, c');
      assert c.replicas[index].attempt == attempt;
    }
  }

  lemma FencedStable(w: World, w': World, op: nat)
    requires Evolves(w, w') && Fenced(w, op)
    ensures Fenced(w', op)
  {
  }

  lemma GoneStable(w: World, w': World, op: nat, upto: nat)
    requires Evolves(w, w') && GoneBelow(w, op, upto) && Fenced(w, op)
    ensures GoneBelow(w', op, upto)
  {
    if Current(w', op) && w'.store != w.store {
      var c, c' := w.store.value.creation.value, w'.store.value.creation.value;
      assert Tame(w.nextId, c, c');
      forall i | 0 <= i < upto && HasReplica(w'.store.value, i) ensures c'.replicas[i].phase == Gone {
        assert HasReplica(w.store.value, i);
      }
    }
  }

  lemma CoveredStable(w: World, w': World, op: nat, index: nat, within: set<nat>)
    requires Evolves(w, w') && Covered(w, op, index, within) && Fenced(w, op)
    ensures Covered(w', op, index, within)
  {
    forall t | At(w', t, op, index) && Outstanding(w', t)
      ensures w'.creates[t].status.Born? && w'.creates[t].status.server in within
    {
      assert t in w.creates;
      assert At(w, t, op, index) && Outstanding(w, t);
    }
  }

  lemma JobStable(w: World, w': World, job: Job, upto: nat)
    requires Evolves(w, w') && JobOk(w, job, upto)
    ensures JobOk(w', job, upto)
  {
    SnapStable(w, w', job.snap);
    FencedStable(w, w', job.cop);
    GoneStable(w, w', job.cop, upto);
    forall i | 0 <= i < |job.snap.creation.value.replicas|
        && job.snap.creation.value.replicas[i].phase in {Pending, Gone}
      ensures Settled(w', job.cop, i)
    {
      CoveredStable(w, w', job.cop, i, {});
    }
  }

  lemma SlotStable(w: World, w': World, snap: State, index: nat, server: nat)
    requires Evolves(w, w') && SlotOk(w, snap, index, server)
    ensures SlotOk(w', snap, index, server)
  {
    SnapStable(w, w', snap);
    MineStable(w, w', snap.creation.value.op, index, snap.creation.value.replicas[index].attempt, server);
  }

  lemma MaybeReadStable(w: World, w': World, r: Option<Read>)
    requires Evolves(w, w') && MaybeRead(w, r)
    ensures MaybeRead(w', r)
  {
    if r.Some? { ReadStable(w, w', r.value); }
  }

  lemma ReconcilerStable(w: World, w': World, x: Reconciler)
    requires Evolves(w, w') && ReconcilerOk(w, x) && Books(w)
    ensures ReconcilerOk(w', x)
  {
    SnapStable(w, w', x.snap);
    if ServerOf(x).Some? { SlotStable(w, w', x.snap, x.index, ServerOf(x).value); }
    if x.Persist? { MaybeReadStable(w, w', x.read); }
    if x.AcquireWrite? { ReadStable(w, w', x.claim); }
  }

  lemma BeginnerStable(w: World, w': World, x: Beginner)
    requires Evolves(w, w') && BeginnerOk(w, x) && Books(w)
    ensures BeginnerOk(w', x)
  {
    if x.CleanClaim? {
      assert w.creates[w.servers[x.server]].op < w.nextId;
      MineStable(w, w', x.op, x.index, x.attempt, x.server);
    }
    if x.CleanClaim? || x.CleanFinish? { MaybeReadStable(w, w', x.read); }
  }

  lemma ExposerStable(w: World, w': World, x: Exposer)
    requires Evolves(w, w') && ExposerOk(w, x)
    ensures ExposerOk(w', x)
  {
    if x.ExposeClaim? { ReadStable(w, w', x.claim); }
    if x.ExposePersist? || x.PolicyClaim? || x.PolicyFinish? { MaybeReadStable(w, w', x.read); }
  }

  lemma DestroyerStable(w: World, w': World, x: Destroyer)
    requires Evolves(w, w') && DestroyerOk(w, x)
    ensures DestroyerOk(w', x)
  {
    match x
    case DestroyRead =>
    case DestroyFence(claim) => ReadStable(w, w', claim);
    case Prepare(job) => JobStable(w, w', job, 0);
    case Find(job, index) => JobStable(w, w', job, index);
    case Inspect(job, index, seen) =>
      JobStable(w, w', job, index);
      if seen != {} { CoveredStable(w, w', job.cop, index, seen); }
    case Delete(job, index, _, todo) => JobStable(w, w', job, index); CoveredStable(w, w', job.cop, index, todo);
    case Policies(job) => JobStable(w, w', job, Reach(job, 0, FinishDestroy));
    case TearDown(job, index, m, read) =>
      JobStable(w, w', job, Reach(job, index, m));
      MaybeReadStable(w, w', read);
      if m.MarkGone? { CoveredStable(w, w', job.cop, index, {}); }
  }

  /** Rely: whatever the others do, a worker keeps what it knows. */
  lemma WorkerStable(w: World, w': World, x: Worker)
    requires Evolves(w, w') && WorkerOk(w, x) && Books(w)
    ensures WorkerOk(w', x)
  {
    match x
    case Stopped =>
    case Apply(r) => ReconcilerStable(w, w', r);
    case Begin(b) => BeginnerStable(w, w', b);
    case Destroy(d) => DestroyerStable(w, w', d);
    case Expose(e) => ExposerStable(w, w', e);
  }
}
