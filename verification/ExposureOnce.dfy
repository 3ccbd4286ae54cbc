/**
 The endpoint side of the lifecycle: an endpoint that is recorded as ready has
 its policy, and without an explicit operator recovery the provider is asked to
 expose an operation at most once.
 */
module ExposureOnce {
  import opened Base
  import opened LifecycleState
  import opened LifecycleMachine
  import opened LifecycleSafety
  import opened LifecycleSteps
  import opened LifecycleTeardown
  import opened Lifecycle
  import opened LifecycleCommits

  // ----- the durable exposure record ---------------------------------------------------------

  ghost predicate ExposureOk(s: State) {
    && (s.exposure.None? ==> s.policies == [])
    && (s.exposure.Some? ==> forall p :: p in s.policies ==> p.identity == s.exposure.value.identity)
    && (s.exposure.Some? && s.exposure.value.phase == Open ==> s.policies != [])
    && (s.phase == Destroying && s.exposure.Some? ==> s.exposure.value.phase in {Withdrawing, Withdrawn})
  }

  /** A write keeps the record sound, and never forgets that an exposure was opened. */
  ghost predicate KeepsExposure(s: State, s': State) {
    && ExposureOk(s') && (s.exposure.Some? ==> s'.exposure.Some?)
    && s'.creation.Some? == s.creation.Some?
    && (s.creation.Some? ==> s'.creation.value.op == s.creation.value.op)
  }

  lemma MutateKeeps(s: State, op: nat, index: nat, attempt: nat, m: Mutation)
    requires ExposureOk(s) && MutateCreation(s, op, index, attempt, m).Write?
    ensures KeepsExposure(s, MutateCreation(s, op, index, attempt, m).state)
  {
  }

  lemma CleanupKeeps(s: State, op: nat, index: nat, attempt: nat, server: nat, prior: ReplicaPhase, deleted: bool)
    requires ExposureOk(s)
    ensures var o := ClaimCleanup(s, op, index, attempt, server); o.Write? ==> KeepsExposure(s, o.state)
    ensures var o := FinishCleanup(s, op, index, attempt, server, prior, deleted);
              o.Write? ==> KeepsExposure(s, o.state)
  {
  }

  lemma FenceKeeps(s: State)
    requires ExposureOk(s)
    ensures KeepsExposure(s, TakeDestroyFence(s))
  {
  }

  lemma DestroyKeeps(s: State, cop: nat, eop: nat, m: Teardown)
    requires ExposureOk(s) && MutateDestroy(s, cop, eop, m).Write?
    ensures KeepsExposure(s, MutateDestroy(s, cop, eop, m).state)
  {
    if m.DropPolicy? { assert s.policies == [] ==> RemovePolicy(s.policies, m.policy) == []; }
  }

  lemma ExposureKeeps(s: State, eop: nat, m: ExposureMutation)
    requires ExposureOk(s) && MutateExposure(s, eop, m).Write?
    ensures KeepsExposure(s, MutateExposure(s, eop, m).state)
  {
  }

  lemma PolicyKeeps(s: State, eop: nat, policy: nat, deleted: bool)
    requires ExposureOk(s)
    ensures var o := ClaimPolicyCleanup(s, eop); o.Write? ==> KeepsExposure(s, o.state)
    ensures var o := FinishPolicyCleanup(s, eop, policy, deleted); o.Write? ==> KeepsExposure(s, o.state)
  {
  }

  // ----- claims ---------------------------------------------------------------------------------

  /**
   `claims` records which operations have a claimed exposure, and whether the
   claim was spent on its provider call.
   */
  ghost predicate ClaimsOk(w: World) {
    && (forall c :: c in w.claims ==> c < w.nextId)
    && (forall c :: c in w.claims && Current(w, c) ==> w.store.value.exposure.Some?)
    && NoDuplicates(w.exposeCalls)
    && (forall c :: c in w.exposeCalls ==> c in w.claims && w.claims[c])
  }

  ghost predicate EndpointOk(w: World) {
    (w.store.Some? ==> ExposureOk(w.store.value)) && ClaimsOk(w)
  }

  predicate Calling(x: Worker) { x.Expose? && x.exposer.ExposeCall? }

  predicate Claiming(x: Worker) { x.Expose? && x.exposer.ExposeClaim? }

  /** A worker about to call holds an unspent claim; one about to claim saw no exposure. */
  predicate Licensed(w: World, x: Worker) {
    && (Calling(x) ==> x.exposer.cop in w.claims && !w.claims[x.exposer.cop])
    && (Claiming(x) ==> x.exposer.claim.state.Some? && x.exposer.claim.state.value.exposure.None?)
  }

  ghost predicate DistinctClaims(z: map<nat, Worker>) {
    forall p, q :: p in z && q in z && p != q && Calling(z[p]) && Calling(z[q]) ==> z[p].exposer.cop != z[q].exposer.cop
  }

  ghost predicate EndpointInv(y: System) {
    && EndpointOk(y.world) && DistinctClaims(y.workers)
    && forall p :: p in y.workers ==> Licensed(y.world, y.workers[p])
  }

  // ----- turns that make neither a claim nor a call ------------------------------------------------

  ghost predicate EndpointQuiet(w: World, turn: Turn) {
    && turn.world.claims == w.claims && turn.world.exposeCalls == w.exposeCalls && turn.world.nextId >= w.nextId
    && Licensed(turn.world, turn.worker) && !Calling(turn.worker)
    && (|| turn.world.store == w.store
        || (w.store.Some? && turn.world.store.Some? && KeepsExposure(w.store.value, turn.world.store.value))
        || (&& turn.world.store.Some? && ExposureOk(turn.world.store.value)
            && (turn.world.store.value.creation.Some? ==> turn.world.store.value.creation.value.op >= w.nextId)))
  }

  lemma QuietOk(w: World, turn: Turn)
    requires EndpointOk(w) && EndpointQuiet(w, turn)
    ensures EndpointOk(turn.world)
  {
  }

  lemma PersistQuiet(w: World, x: Reconciler, reply: Reply)
    requires Core(w) && ReconcilerOk(w, x) && EndpointOk(w) && x.Persist?
    ensures EndpointQuiet(w, ActReconcile(w, x, reply))
  {
    PersistWrites(w, x, reply);
    var turn := ActReconcile(w, x, reply);
    if turn.world != w { QuietWrite(w, turn.world.store.value, turn.worker); }
  }

  lemma PersistWrites(w: World, x: Reconciler, reply: Reply)
    requires (w.store.Some? ==> ExposureOk(w.store.value)) && x.Persist? && x.snap.creation.Some?
    requires x.read.Some? && x.read.value.version == w.version ==> x.read.value.state == w.store
    ensures var turn := ActReconcile(w, x, reply);
            && !turn.worker.Expose?
            && (turn.world == w ||
                (&& w.store.Some? && turn.world.store.Some? && turn.world == Commit(w, turn.world.store.value)
                 && KeepsExposure(w.store.value, turn.world.store.value)))
  {
    if x.read.Some? && x.read.value.version == w.version && x.read.value.state.Some? {
      var attempt := if HasReplica(x.snap, x.index) then x.snap.creation.value.replicas[x.index].attempt else 0;
      if MutateCreation(w.store.value, x.snap.creation.value.op, x.index, attempt, x.mutation).Write? {
        MutateKeeps(w.store.value, x.snap.creation.value.op, x.index, attempt, x.mutation);
      }
    }
  }

  lemma QuietWrite(w: World, s: State, x: Worker)
    requires w.store.Some? && KeepsExposure(w.store.value, s) && !x.Expose?
    ensures EndpointQuiet(w, Turn(Commit(w, s), x))
  {
  }

  lemma AcquireQuiet(w: World, x: Reconciler, reply: Reply)
    requires Core(w) && ReconcilerOk(w, x) && EndpointOk(w) && x.AcquireWrite?
    ensures EndpointQuiet(w, ActReconcile(w, x, reply))
  {
  }

  lemma ReconcileQuiet(w: World, x: Reconciler, reply: Reply)
    requires Core(w) && ReconcilerOk(w, x) && EndpointOk(w)
    ensures EndpointQuiet(w, ActReconcile(w, x, reply))
  {
    if x.Persist? {
      PersistQuiet(w, x, reply);
    } else if x.AcquireWrite? {
      AcquireQuiet(w, x, reply);
    }
  }

  lemma BeginQuiet(w: World, x: Beginner, reply: Reply)
    requires EndpointOk(w) && ((x.CleanClaim? || x.CleanFinish?) && x.read.Some? ==> Fresh(w, x.read.value))
    ensures EndpointQuiet(w, ActBeginOrClean(w, x, reply))
  {
    if x.CleanClaim? {
      if w.store.Some? { CleanupKeeps(w.store.value, x.op, x.index, x.attempt, x.server, Pending, false); }
    } else if x.CleanFinish? {
      if w.store.Some? { CleanupKeeps(w.store.value, x.op, x.index, x.attempt, x.server, x.prior, x.deleted); }
    }
  }

  /** A read of the current version is the current state. */
  predicate Fresh(w: World, r: Read) {
    r.version == w.version ==> r.state == w.store
  }

  lemma FenceQuiet(w: World, claim: Read, reply: Reply)
    requires EndpointOk(w) && Fresh(w, claim)
    ensures EndpointQuiet(w, StepDestroyFence(w, claim, reply))
  {
    if w.store.Some? { FenceKeeps(w.store.value); }
  }

  lemma TearQuiet(w: World, job: Job, index: nat, m: Teardown, read: Option<Read>, reply: Reply)
    requires EndpointOk(w) && (read.Some? ==> Fresh(w, read.value))
    ensures EndpointQuiet(w, StepTearDown(w, job, index, m, read, reply))
  {
    if w.store.Some? && MutateDestroy(w.store.value, job.cop, job.eop, m).Write? {
      DestroyKeeps(w.store.value, job.cop, job.eop, m);
    }
  }

  lemma DestroyQuiet(w: World, x: Destroyer, reply: Reply)
    requires EndpointOk(w) && (x.DestroyFence? ==> Fresh(w, x.claim))
              && (x.TearDown? && x.read.Some? ==> Fresh(w, x.read.value))
    ensures EndpointQuiet(w, ActDestroy(w, x, reply))
  {
    match x
    case DestroyFence(claim) => FenceQuiet(w, claim, reply);
    case TearDown(job, index, m, read) => TearQuiet(w, job, index, m, read, reply);
    case _ =>
  }

  lemma ExposeQuiet(w: World, x: Exposer, reply: Reply)
    requires EndpointOk(w) && !x.ExposeClaim? && !x.ExposeCall?
    requires (x.ExposePersist? || x.PolicyClaim? || x.PolicyFinish?) && x.read.Some? ==> Fresh(w, x.read.value)
    ensures EndpointQuiet(w, ActExpose(w, x, reply))
  {
    if x.ExposePersist? && w.store.Some? && MutateExposure(w.store.value, x.eop, x.change).Write? {
      ExposureKeeps(w.store.value, x.eop, x.change);
    }
    if x.PolicyClaim? && w.store.Some? { PolicyKeeps(w.store.value, x.eop, x.policy, false); }
    if x.PolicyFinish? && w.store.Some? { PolicyKeeps(w.store.value, x.eop, x.policy, x.deleted); }
  }

  lemma ActQuiet(w: World, x: Worker, reply: Reply)
    requires Core(w) && WorkerOk(w, x) && EndpointOk(w) && !Claiming(x) && !Calling(x)
    ensures EndpointQuiet(w, Act(w, x, reply))
  {
    if reply != Crash {
      match x
      case Stopped =>
      case Apply(r) => ReconcileQuiet(w, r, reply);
      case Begin(b) => BeginQuiet(w, b, reply);
      case Destroy(d) => DestroyQuiet(w, d, reply);
      case Expose(e) => ExposeQuiet(w, e, reply);
    }
  }

  // ----- the claim and the call -----------------------------------------------------------------------

  /** A claim is made once per operation: the exposure it writes is never removed under that operation. */
  lemma ClaimOnce(w: World, x: Worker, reply: Reply)
    requires Core(w) && WorkerOk(w, x) && EndpointOk(w) && Licensed(w, x) && Claiming(x)
    ensures var turn := Act(w, x, reply);
            && EndpointOk(turn.world) && Licensed(turn.world, turn.worker) && turn.world.exposeCalls == w.exposeCalls
            && (forall c :: c in w.claims ==> c in turn.world.claims && turn.world.claims[c] == w.claims[c])
            && (Calling(turn.worker) ==> turn.worker.exposer.cop !in w.claims)
  {
    var claim := x.exposer.claim;
    if reply != Crash && claim.version == w.version && (reply.Ok? || reply.Unacked?) {
      assert CreationOk(w, w.store.value.creation.value);
      assert Current(w, w.store.value.creation.value.op);
      assert w.store.value.creation.value.op !in w.claims;
      assert MatchingIds([], x.exposer.identity) == [];
    }
  }

  lemma CallSpends(w: World, cop: nat, eop: nat)
    requires EndpointOk(w) && cop in w.claims && !w.claims[cop]
    ensures var turn := StepExposeCall(w, cop, eop);
            && EndpointOk(turn.world) && Licensed(turn.world, turn.worker) && !Calling(turn.worker)
            && (forall c :: c in w.claims && c != cop ==> c in turn.world.claims && turn.world.claims[c] == w.claims[c])
  {
    assert cop !in w.exposeCalls;
  }

  // ----- every step ---------------------------------------------------------------------------------------

  /** What any turn of `x` leaves to the others. */
  lemma TurnKeeps(w: World, x: Worker, reply: Reply)
    requires Core(w) && WorkerOk(w, x) && EndpointOk(w) && Licensed(w, x)
    ensures var turn := Act(w, x, reply);
            && EndpointOk(turn.world) && Licensed(turn.world, turn.worker)
            && (forall c :: c in w.claims && !(Calling(x) && c == x.exposer.cop) ==>
                c in turn.world.claims && turn.world.claims[c] == w.claims[c])
            && (Calling(turn.worker) ==> turn.worker.exposer.cop !in w.claims)
  {
    if Claiming(x) {
      ClaimOnce(w, x, reply);
    } else if Calling(x) {
      CallSpends(w, x.exposer.cop, x.exposer.eop);
    } else {
      ActQuiet(w, x, reply);
      QuietOk(w, Act(w, x, reply));
    }
  }

  lemma EndpointDo(y: System, who: nat, reply: Reply)
    requires Inv(y) && EndpointInv(y) && who in y.workers
    ensures EndpointInv(Step(y, Do(who, reply)))
  {
    var x := y.workers[who];
    var turn := Act(y.world, x, reply);
    TurnKeeps(y.world, x, reply);
    forall p | p in y.workers && p != who ensures Licensed(turn.world, y.workers[p]) {
      assert Licensed(y.world, y.workers[p]);
    }
    ClaimsStayDistinct(y, who, turn.worker);
  }

  lemma ClaimsStayDistinct(y: System, who: nat, x: Worker)
    requires EndpointInv(y) && who in y.workers && (Calling(x) ==> x.exposer.cop !in y.world.claims)
    ensures DistinctClaims(y.workers[who := x])
  {
    forall p | p in y.workers && Calling(y.workers[p]) ensures y.workers[p].exposer.cop in y.world.claims {
      assert Licensed(y.world, y.workers[p]);
    }
  }

  lemma HappenEndpointOk(w: World, e: Event)
    requires EndpointOk(w)
    ensures var g := Happen(w, e); EndpointOk(g) && g.claims == w.claims
  {
  }

  lemma EndpointHappen(y: System, e: Event)
    requires Inv(y) && EndpointInv(y) && !e.Do?
    ensures EndpointInv(Step(y, e))
  {
    var z := Step(y, e);
    EventShape(y, e);
    HappenEndpointOk(y.world, e);
    forall p | p in z.workers ensures Licensed(z.world, z.workers[p]) {
      if !Newcomer(z.workers[p], e) { assert Licensed(y.world, y.workers[p]); }
    }
  }

  lemma {:induction false} RunEndpoint(events: seq<Event>)
    ensures EndpointInv(Run(events))
  {
    if events != [] {
      var y, e := Run(events[..|events| - 1]), events[|events| - 1];
      RunEndpoint(events[..|events| - 1]);
      RunInv(events[..|events| - 1]);
      if e.Do? {
        if e.who in y.workers { EndpointDo(y, e.who, e.reply); }
      } else {
        EndpointHappen(y, e);
      }
    }
  }

  // ----- the theorems -----------------------------------------------------------------------------------

  /** Without operator recovery the provider expose call is made at most once per creation operation. */
  lemma ExposedOnce(events: seq<Event>)
    ensures NoDuplicates(Run(events).world.exposeCalls)
  {
    RunEndpoint(events);
  }

  /** An endpoint recorded as ready has a recorded policy with its name and ownership. */
  lemma ReadyHasPolicy(events: seq<Event>)
    ensures var w := Run(events).world;
            w.store.Some? && w.store.value.exposure.Some? && w.store.value.exposure.value.phase == Open ==>
              exists k :: 0 <= k < |w.store.value.policies|
                  && w.store.value.policies[k].identity == w.store.value.exposure.value.identity
  {
    RunEndpoint(events);
    var w := Run(events).world;
    if w.store.Some? && w.store.value.exposure.Some? && w.store.value.exposure.value.phase == Open {
      assert w.store.value.policies[0].identity == w.store.value.exposure.value.identity;
    }
  }
}
