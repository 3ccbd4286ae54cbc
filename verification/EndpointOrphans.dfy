/**
 No orphaned endpoints: the counterpart for network policies of what Lifecycle proves for
 servers. A claimed exposure is asked for at most once and makes at most one policy, at any
 later time. Explicit operator recovery may make more, and does not in the runs here.
 */
module EndpointOrphans {
  import opened Base
  import opened LifecycleState
  import opened LifecycleMachine
  import opened LifecycleSafety
  import opened LifecycleSteps
  import opened LifecycleTeardown
  import opened Lifecycle
  import opened ExposureOnce

  // ----- what is outstanding at the provider ---------------------------------------------------

  /** The exposure has an open policy, or may still come to have one. */
  predicate Outgoing(w: World, o: nat) {
    o in w.ends.calls && (w.ends.calls[o].Made? ==> w.ends.calls[o].policy in w.ends.open)
  }

  predicate Knows(w: World, policy: nat, eop: nat) {
    policy in w.ends.made && w.ends.made[policy] == eop
  }

  ghost predicate EndsBooks(w: World) {
    && (forall o :: o in w.ends.calls ==> 0 < o < w.nextId)
    && (forall o :: o in w.ends.calls && w.ends.calls[o].Made? ==> Knows(w, w.ends.calls[o].policy, o))
    && (forall p :: p in w.ends.made ==>
          0 < p < w.nextId && w.ends.made[p] in w.ends.calls && w.ends.calls[w.ends.made[p]] == Made(p))
    && (forall p :: p in w.ends.open ==> p in w.ends.made)
  }

  predicate Recorded(s: State, policy: nat) {
    exists p :: p in s.policies && p.id == policy
  }

  /** The exposure operation of a state; 0 if there is none. */
  function OpOf(s: State): nat {
    if s.exposure.Some? then s.exposure.value.op else 0
  }

  /** The stored exposure answers for what is outstanding: it is unresolved, or has it on record. */
  predicate Answers(w: World, s: State, o: nat) {
    && s.exposure.Some? && s.exposure.value.op == o && s.exposure.value.phase != Withdrawn
    && (s.exposure.value.unresolved
        || (o in w.ends.calls && w.ends.calls[o].Made? && Recorded(s, w.ends.calls[o].policy)))
  }

  ghost predicate RecordsOk(w: World, s: State) {
    && (s.exposure.Some? ==> s.exposure.value.op in w.ends.calls)
    && (forall p :: p in s.policies ==> Knows(w, p.id, OpOf(s)))
  }

  ghost predicate EndsOk(w: World) {
    && EndsBooks(w) && (w.store.Some? ==> RecordsOk(w, w.store.value))
    && forall o :: Outgoing(w, o) ==> w.store.Some? && w.store.value.phase != Destroyed && Answers(w, w.store.value, o)
  }

  // ----- what a worker relies on -----------------------------------------------------------------

  predicate Over(s: State) {
    s.exposure.Some? || s.phase !in {Creating, Ready}
  }

  /** The operation opens no exposure any more. */
  predicate Closed(w: World, cop: nat) {
    Current(w, cop) ==> Over(w.store.value)
  }

  predicate NeverExposed(w: World, cop: nat) {
    Current(w, cop) ==> w.store.value.exposure.None?
  }

  /** The snapshot that Destroy decides from answers for what is outstanding. */
  predicate SnapAnswers(w: World, job: Job) {
    job.snap.exposure.Some? && Outgoing(w, job.eop) ==>
      || job.snap.exposure.value.unresolved
      || (w.ends.calls[job.eop].Made? && Recorded(job.snap, w.ends.calls[job.eop].policy))
  }

  /** Whatever is outstanding is on Destroy's list of policies to delete. */
  predicate OnList(w: World, job: Job) {
    Outgoing(w, job.eop) ==> w.ends.calls[job.eop].Made? && w.ends.calls[job.eop].policy in job.policies
  }

  ghost predicate OneIdentity(s: State) {
    s.exposure.Some? ==> forall p :: p in s.policies ==> p.identity == s.exposure.value.identity
  }

  ghost predicate JobEnds(w: World, job: Job) {
    && Closed(w, job.cop) && job.eop == OpOf(job.snap)
    && (job.snap.exposure.None? ==> NeverExposed(w, job.cop))
    && (job.snap.exposure.Some? ==> job.eop in w.ends.calls)
    && (forall p :: p in job.snap.policies ==> Knows(w, p.id, job.eop)) && OneIdentity(job.snap)
    && forall p :: p in job.policies ==> Knows(w, p, job.eop)
  }

  ghost predicate DestroyerEnds(w: World, x: Destroyer) {
    match x
    case DestroyRead => true
    case DestroyFence(_) => true
    case Prepare(job) => JobEnds(w, job) && SnapAnswers(w, job)
    case Find(job, _) => JobEnds(w, job) && OnList(w, job)
    case Inspect(job, _, _) => JobEnds(w, job) && OnList(w, job)
    case Delete(job, _, _, _) => JobEnds(w, job) && OnList(w, job)
    case Policies(job) => JobEnds(w, job) && OnList(w, job)
    case TearDown(job, _, m, _) =>
      && JobEnds(w, job)
      && (m.MarkGone? || m.DropPolicy? ==> OnList(w, job))
      && (m.DropPolicy? ==> Knows(w, m.policy, job.eop) && m.policy !in w.ends.open)
      && (m.CloseExposure? || m.FinishDestroy? ==> !Outgoing(w, job.eop))
  }

  predicate ExposerEnds(w: World, x: Exposer) {
    match x
    case ExposePersist(eop, m, _) => m.Complete? ==> Knows(w, m.policy, eop)
    case PolicyClaim(eop, policy, _) => Knows(w, policy, eop)
    case PolicyDelete(eop, policy) => Knows(w, policy, eop)
    case PolicyFinish(eop, policy, deleted, _) => Knows(w, policy, eop) && (deleted ==> policy !in w.ends.open)
    case _ => true
  }

  ghost predicate WorkerEnds(w: World, x: Worker) {
    match x
    case Destroy(d) => DestroyerEnds(w, d)
    case Expose(e) => ExposerEnds(w, e)
    case _ => true
  }

  // ----- what every step guarantees ------------------------------------------------------------------

  ghost predicate EndsEvolve(w: World, g: World) {
    && w.nextId <= g.nextId
    && (forall o :: o in w.ends.calls ==>
        o in g.ends.calls && (w.ends.calls[o].Made? ==> g.ends.calls[o] == w.ends.calls[o]))
    && (forall o :: o in g.ends.calls && o !in w.ends.calls ==> o >= w.nextId)
    && (forall p :: p in w.ends.made ==> p in g.ends.made && g.ends.made[p] == w.ends.made[p])
    && (forall p :: p in g.ends.open ==> p in w.ends.open || p >= w.nextId)
  }

  /** An operation that is over stays over, and is not exposed any more. */
  predicate PhasesEvolve(w: World, g: World) {
    g.store.Some? && g.store.value.creation.Some? && g.store.value.creation.value.op < w.nextId ==>
      && Current(w, g.store.value.creation.value.op)
      && (Over(w.store.value) ==>
          Over(g.store.value) && (w.store.value.exposure.None? ==> g.store.value.exposure.None?))
  }

  ghost predicate EndsStep(w: World, g: World) {
    EndsEvolve(w, g) && PhasesEvolve(w, g) && EndsOk(g)
  }

  // ----- facts survive ----------------------------------------------------------------------------------

  lemma OutgoingShrinks(w: World, g: World, o: nat)
    requires EndsEvolve(w, g) && EndsBooks(w) && Outgoing(g, o) && o < w.nextId
    ensures Outgoing(w, o) && (w.ends.calls[o].Made? ==> g.ends.calls[o] == w.ends.calls[o])
  {
    assert o in w.ends.calls;
    if w.ends.calls[o].Made? { assert Knows(w, w.ends.calls[o].policy, o); }
  }

  lemma JobEndsStay(w: World, g: World, job: Job)
    requires EndsEvolve(w, g) && PhasesEvolve(w, g) && JobEnds(w, job) && job.cop < w.nextId
    ensures JobEnds(g, job)
  {
    forall p | p in job.snap.policies ensures Knows(g, p.id, job.eop) { assert Knows(w, p.id, job.eop); }
    forall p | p in job.policies ensures Knows(g, p, job.eop) { assert Knows(w, p, job.eop); }
  }

  lemma DestroyerStays(w: World, g: World, x: Destroyer)
    requires EndsEvolve(w, g) && PhasesEvolve(w, g) && EndsBooks(w) && DestroyerEnds(w, x) && DestroyerOk(w, x)
    ensures DestroyerEnds(g, x)
  {
    if !x.DestroyRead? && !x.DestroyFence? {
      var job := x.job;
      JobEndsStay(w, g, job);
      if Outgoing(g, job.eop) && job.eop in w.ends.calls { OutgoingShrinks(w, g, job.eop); }
    }
  }

  lemma ExposerStays(w: World, g: World, x: Exposer)
    requires EndsEvolve(w, g) && EndsBooks(w) && ExposerEnds(w, x)
    ensures ExposerEnds(g, x)
  {
  }

  lemma WorkerStays(w: World, g: World, x: Worker)
    requires EndsEvolve(w, g) && PhasesEvolve(w, g) && EndsBooks(w) && WorkerEnds(w, x) && WorkerOk(w, x)
    ensures WorkerEnds(g, x)
  {
    match x
    case Destroy(d) => DestroyerStays(w, g, d);
    case Expose(e) => ExposerStays(w, g, e);
    case _ =>
  }

  // ----- Apply and cleanup -------------------------------------------------------------------------------

  /** The write has nothing to do with endpoints. */
  predicate Aside(s: State, s': State) {
    && s'.exposure == s.exposure && s'.policies == s.policies && s'.phase != Destroyed
    && (Over(s) ==> Over(s')) && s'.creation.Some? == s.creation.Some?
    && (s.creation.Some? ==> s'.creation.value.op == s.creation.value.op)
  }

  /** The provider's side is as it was, and the store too, or written aside, or opened anew after its end. */
  ghost predicate AsideStep(w: World, g: World) {
    && g.ends == w.ends && g.nextId >= w.nextId
    && (|| g.store == w.store
        || (w.store.Some? && g.store.Some? && Aside(w.store.value, g.store.value))
        || (&& (w.store.None? || w.store.value.phase == Destroyed) && g.store.Some? && g.store.value.creation.Some?
            && g.store.value.creation.value.op >= w.nextId && g.store.value.exposure.None?
                && g.store.value.policies == []))
  }

  lemma AsideOk(w: World, g: World)
    requires EndsOk(w) && AsideStep(w, g)
              && (w.store.Some? && w.store.value.creation.None? ==> w.store.value.phase == Destroyed)
    requires w.store.Some? && w.store.value.creation.Some? && g.store.Some? ==> g.store.value.creation.Some?
    ensures EndsStep(w, g)
  {
    if g.store.Some? {
      forall p | p in g.store.value.policies ensures Knows(g, p.id, OpOf(g.store.value)) {
        assert Knows(w, p.id, OpOf(w.store.value));
      }
    }
    forall o | Outgoing(g, o) ensures g.store.Some? && g.store.value.phase != Destroyed
        && Answers(g, g.store.value, o) {
      assert Outgoing(w, o);
      assert Answers(w, w.store.value, o);
    }
  }

  lemma MutateAside(s: State, op: nat, index: nat, attempt: nat, m: Mutation)
    requires MutateCreation(s, op, index, attempt, m).Write?
    ensures Aside(s, MutateCreation(s, op, index, attempt, m).state)
  {
  }

  lemma CleanupAside(s: State, op: nat, index: nat, attempt: nat, server: nat, prior: ReplicaPhase, deleted: bool)
    ensures var o := ClaimCleanup(s, op, index, attempt, server); o.Write? ==> Aside(s, o.state)
    ensures var o := FinishCleanup(s, op, index, attempt, server, prior, deleted); o.Write? ==> Aside(s, o.state)
  {
  }

  predicate Silent(x: Worker) {
    !x.Destroy? && !x.Expose?
  }

  lemma PersistAside(w: World, x: Reconciler, reply: Reply)
    requires ReconcilerOk(w, x) && x.Persist?
    ensures var turn := StepPersist(w, x.snap, x.index, x.mutation, x.read, reply);
              AsideStep(w, turn.world) && Silent(turn.worker)
  {
    var g := StepPersist(w, x.snap, x.index, x.mutation, x.read, reply).world;
    if g != w {
      var o := MutateRead(x.snap, x.index, x.mutation, x.read.value);
      assert x.read.value.state == w.store && o.Write? && g == Commit(w, o.state);
      var attempt := if HasReplica(x.snap, x.index) then x.snap.creation.value.replicas[x.index].attempt else 0;
      MutateAside(w.store.value, x.snap.creation.value.op, x.index, attempt, x.mutation);
    }
  }

  lemma ReconcileAside(w: World, x: Reconciler, reply: Reply)
    requires ReconcilerOk(w, x)
    ensures var turn := ActReconcile(w, x, reply); AsideStep(w, turn.world) && Silent(turn.worker)
  {
    if x.Persist? { PersistAside(w, x, reply); }
  }

  lemma CleanAside(w: World, x: Beginner, reply: Reply)
    requires BeginnerOk(w, x) && (x.CleanClaim? || x.CleanFinish?)
    ensures var turn := ActBeginOrClean(w, x, reply); AsideStep(w, turn.world) && Silent(turn.worker)
  {
    if w.store.Some? {
      if x.CleanClaim? { CleanupAside(w.store.value, x.op, x.index, x.attempt, x.server, Pending, false); }
      if x.CleanFinish? { CleanupAside(w.store.value, x.op, x.index, x.attempt, x.server, x.prior, x.deleted); }
    }
  }

  lemma BeginAside(w: World, x: Beginner, reply: Reply)
    requires Core(w) && BeginnerOk(w, x)
    ensures var turn := ActBeginOrClean(w, x, reply); AsideStep(w, turn.world) && Silent(turn.worker)
  {
    if x.CleanClaim? || x.CleanFinish? { CleanAside(w, x, reply); }
  }

  // ----- Destroy -------------------------------------------------------------------------------------------

  lemma FreshJobEnds(w: World, s: State)
    requires EndsOk(w) && w.store == Some(s) && s.creation.Some? && Over(s) && OneIdentity(s)
    ensures JobEnds(w, JobFor(s)) && (s.phase != Destroyed ==> SnapAnswers(w, JobFor(s)))
  {
    var job := JobFor(s);
    if s.exposure.Some? && Outgoing(w, job.eop) { assert Answers(w, s, job.eop); }
  }

  lemma FenceEnds(w: World)
    requires EndsOk(w) && w.store.Some? && w.store.value.phase != Destroyed && w.store.value.creation.Some?
    requires OneIdentity(w.store.value)
    ensures var g := Commit(w, TakeDestroyFence(w.store.value));
            EndsStep(w, g) && JobEnds(g, JobFor(g.store.value)) && SnapAnswers(g, JobFor(g.store.value))
  {
    var s := w.store.value;
    var g := Commit(w, TakeDestroyFence(s));
    forall p | p in g.store.value.policies
        ensures Knows(g, p.id, OpOf(g.store.value)) { assert Knows(w, p.id, OpOf(s)); }
    forall o | Outgoing(g, o) ensures Answers(g, g.store.value, o) {
      assert Outgoing(w, o) && Answers(w, s, o);
      if !s.exposure.value.unresolved {
        var p :| p in s.policies && p.id == w.ends.calls[o].policy;
        assert p in g.store.value.policies;
      }
    }
    FreshJobEnds(g, g.store.value);
  }

  /** Deciding from the snapshot: what is outstanding is known, visible, or a reason to give up. */
  lemma PrepareEnds(w: World, job: Job, reply: Reply)
    requires EndsOk(w) && JobEnds(w, job) && SnapAnswers(w, job)
    ensures WorkerEnds(w, StepPrepare(w, job, reply).worker)
  {
    if job.snap.exposure.Some? {
      var known := KnownPolicies(job.snap, job.snap.exposure.value.identity);
      forall p | p in known ensures Knows(w, p, job.eop) {
        var k :| 0 <= k < |job.snap.policies| && job.snap.policies[k].id == p;
        assert job.snap.policies[k] in job.snap.policies;
      }
      SnapOnList(w, job, known);
    } else {
      assert !Outgoing(w, 0);
    }
  }

  lemma SnapOnList(w: World, job: Job, known: set<nat>)
    requires EndsBooks(w) && JobEnds(w, job) && SnapAnswers(w, job) && job.snap.exposure.Some?
    requires known == KnownPolicies(job.snap, job.snap.exposure.value.identity)
    requires OneIdentity(job.snap)
    ensures forall p :: Knows(w, p, job.eop) ==> OnList(w, job.(policies := known + {p}))
    ensures !(job.snap.exposure.value.unresolved && known == {}) ==> OnList(w, job.(policies := known))
  {
  }

  /** A write of Destroy: nothing outstanding loses its record. */
  lemma TearEnds(w: World, job: Job, m: Teardown)
    requires EndsOk(w) && JobEnds(w, job) && w.store.Some? && job.cop != 0
              && MutateDestroy(w.store.value, job.cop, job.eop, m).Write?
    requires m.DropPolicy? ==> m.policy !in w.ends.open
    requires m.CloseExposure? || m.FinishDestroy? ==> !Outgoing(w, job.eop)
    ensures EndsStep(w, Commit(w, MutateDestroy(w.store.value, job.cop, job.eop, m).state))
  {
    var s, s' := w.store.value, MutateDestroy(w.store.value, job.cop, job.eop, m).state;
    var g := Commit(w, s');
    forall p | p in s'.policies ensures Knows(g, p.id, OpOf(s')) { assert Knows(w, p.id, OpOf(s)); }
    forall o | Outgoing(g, o) ensures s'.phase != Destroyed && Answers(g, s', o) {
      assert Outgoing(w, o) && Answers(w, s, o);
      assert o == job.eop;
      if !s.exposure.value.unresolved {
        var p :| p in s.policies && p.id == w.ends.calls[o].policy;
        assert p in s'.policies;
      }
    }
  }

  lemma TornJobEnds(w: World, job: Job, m: Teardown)
    requires EndsOk(w) && JobEnds(w, job) && w.store.Some? && job.cop != 0
              && MutateDestroy(w.store.value, job.cop, job.eop, m).Write?
    requires EndsStep(w, Commit(w, MutateDestroy(w.store.value, job.cop, job.eop, m).state))
              && OneIdentity(w.store.value)
    requires job.cop < w.nextId
    ensures var s' := MutateDestroy(w.store.value, job.cop, job.eop, m).state;
            JobEnds(Commit(w, s'), job.(snap := s'))
  {
    var s' := MutateDestroy(w.store.value, job.cop, job.eop, m).state;
    JobEndsStay(w, Commit(w, s'), job);
    assert Current(w, job.cop);
    assert OpOf(s') == job.eop;
  }

  lemma TearDownSame(w: World, x: Destroyer, reply: Reply)
    requires x.TearDown? && DestroyerEnds(w, x)
    requires StepTearDown(w, x.job, x.index, x.teardown, x.read, reply).world == w
    ensures WorkerEnds(w, StepTearDown(w, x.job, x.index, x.teardown, x.read, reply).worker)
  {
  }

  lemma TearDownEnds(w: World, x: Destroyer, reply: Reply)
    requires Core(w) && EndsOk(w) && x.TearDown? && DestroyerOk(w, x) && DestroyerEnds(w, x)
    requires w.store.Some? ==> OneIdentity(w.store.value)
    ensures var turn := StepTearDown(w, x.job, x.index, x.teardown, x.read, reply);
              EndsStep(w, turn.world) && WorkerEnds(turn.world, turn.worker)
  {
    var turn := StepTearDown(w, x.job, x.index, x.teardown, x.read, reply);
    if turn.world != w {
      assert x.read.value.state == w.store;
      TearEnds(w, x.job, x.teardown);
      TornJobEnds(w, x.job, x.teardown);
    } else {
      TearDownSame(w, x, reply);
      SameEnds(w);
    }
  }

  lemma SameEnds(w: World)
    requires EndsOk(w)
    ensures EndsStep(w, w)
  {
  }

  lemma CloseEnds(w: World, policy: nat)
    requires EndsOk(w)
    ensures EndsStep(w, Close(w, policy))
  {
    var g := Close(w, policy);
    if w.store.Some? {
      forall p | p in w.store.value.policies
          ensures Knows(g, p.id, OpOf(w.store.value)) { assert Knows(w, p.id, OpOf(w.store.value)); }
    }
    forall o | Outgoing(g, o) ensures g.store.Some? && g.store.value.phase != Destroyed
        && Answers(g, g.store.value, o) {
      assert Outgoing(w, o) && Answers(w, w.store.value, o);
    }
  }

  /** The policy is closed now; it is still to be struck off the record. */
  lemma CloseJobEnds(w: World, job: Job, policy: nat)
    requires EndsOk(w) && JobEnds(w, job) && OnList(w, job) && job.cop < w.nextId && policy in job.policies
    ensures var g := Close(w, policy);
            EndsStep(w, g) && JobEnds(g, job) && OnList(g, job) && Knows(g, policy, job.eop) && policy !in g.ends.open
  {
    CloseEnds(w, policy);
    JobEndsStay(w, Close(w, policy), job);
    assert Knows(w, policy, job.eop);
  }

  predicate Closes(job: Job, reply: Reply) {
    job.policies != {} && (reply.See? || reply.Unacked?) && reply.which in job.policies
  }

  lemma PoliciesTurn(w: World, job: Job, reply: Reply)
    ensures StepPolicies(w, job, reply).world == if Closes(job, reply) then Close(w, reply.which) else w
  {
  }

  lemma PoliciesLeft(w: World, job: Job, reply: Reply)
    requires JobEnds(w, job) && OnList(w, job) && !Closes(job, reply)
    ensures WorkerEnds(w, StepPolicies(w, job, reply).worker)
  {
  }

  lemma PoliciesClosed(w: World, job: Job, reply: Reply)
    requires EndsOk(w) && JobEnds(w, job) && OnList(w, job) && job.cop < w.nextId && Closes(job, reply)
    ensures WorkerEnds(Close(w, reply.which), StepPolicies(w, job, reply).worker)
  {
    CloseJobEnds(w, job, reply.which);
  }

  lemma PoliciesEnds(w: World, job: Job, reply: Reply)
    requires EndsOk(w) && JobEnds(w, job) && OnList(w, job) && job.cop < w.nextId
    ensures var turn := StepPolicies(w, job, reply); EndsStep(w, turn.world) && WorkerEnds(turn.world, turn.worker)
  {
    PoliciesTurn(w, job, reply);
    if Closes(job, reply) {
      CloseEnds(w, reply.which);
      PoliciesClosed(w, job, reply);
    } else {
      SameEnds(w);
      PoliciesLeft(w, job, reply);
    }
  }

  /** Only the provider's policies, the store and the names matter here. */
  lemma LikeEnds(w: World, g: World)
    requires EndsOk(w) && g.store == w.store && g.ends == w.ends && g.nextId >= w.nextId
    ensures EndsStep(w, g)
  {
    if w.store.Some? {
      forall p | p in w.store.value.policies
          ensures Knows(g, p.id, OpOf(w.store.value)) { assert Knows(w, p.id, OpOf(w.store.value)); }
    }
    forall o | Outgoing(g, o) ensures g.store.Some? && g.store.value.phase != Destroyed
        && Answers(g, g.store.value, o) {
      assert Outgoing(w, o) && Answers(w, w.store.value, o);
    }
  }

  predicate Sweeps(x: Destroyer, job: Job) {
    || ((x.Find? || x.Inspect? || x.Delete? || x.Policies?) && x.job == job)
    || (x.TearDown? && x.job == job && (x.teardown.MarkGone? || x.teardown.EscalateDestroy?))
  }

  /** Looking for servers and deleting them. */
  lemma SweepTurn(w: World, x: Destroyer, reply: Reply)
    requires x.Find? || x.Inspect? || x.Delete?
    ensures var turn := ActDestroy(w, x, reply);
            && turn.world.store == w.store && turn.world.ends == w.ends && turn.world.nextId == w.nextId
            && (turn.worker.Stopped? || (turn.worker.Destroy? && Sweeps(turn.worker.destroyer, x.job)))
  {
  }

  lemma SweepEnds(w: World, x: Destroyer, reply: Reply)
    requires EndsOk(w) && DestroyerEnds(w, x) && (x.Find? || x.Inspect? || x.Delete?)
    ensures var turn := ActDestroy(w, x, reply); EndsStep(w, turn.world) && WorkerEnds(turn.world, turn.worker)
  {
    SweepTurn(w, x, reply);
    LikeEnds(w, ActDestroy(w, x, reply).world);
    LikeJob(w, ActDestroy(w, x, reply).world, x.job);
  }

  lemma LikeJob(w: World, g: World, job: Job)
    requires g.store == w.store && g.ends == w.ends && JobEnds(w, job)
    ensures JobEnds(g, job) && (OnList(w, job) ==> OnList(g, job))
  {
    assert forall p :: p in job.snap.policies ==> Knows(w, p.id, job.eop) ==> Knows(g, p.id, job.eop);
    assert forall p :: p in job.policies ==> Knows(w, p, job.eop) ==> Knows(g, p, job.eop);
  }

  lemma ReadEnds(w: World, reply: Reply)
    requires Core(w) && EndsOk(w) && (w.store.Some? ==> OneIdentity(w.store.value))
    ensures var turn := StepDestroyRead(w, reply); EndsStep(w, turn.world) && WorkerEnds(turn.world, turn.worker)
  {
    SameEnds(w);
    if w.store.Some? && w.store.value.phase == Destroying { FreshJobEnds(w, w.store.value); }
  }

  lemma FenceTurnEnds(w: World, claim: Read, reply: Reply)
    requires Core(w) && EndsOk(w) && DestroyerOk(w, DestroyFence(claim))
              && (w.store.Some? ==> OneIdentity(w.store.value))
    ensures var turn := StepDestroyFence(w, claim, reply);
              EndsStep(w, turn.world) && WorkerEnds(turn.world, turn.worker)
  {
    if claim.version == w.version && (reply.Ok? || reply.Unacked?) { FenceEnds(w); } else { SameEnds(w); }
  }

  lemma PrepareTurnEnds(w: World, job: Job, reply: Reply)
    requires EndsOk(w) && JobEnds(w, job) && SnapAnswers(w, job)
    ensures var turn := StepPrepare(w, job, reply); EndsStep(w, turn.world) && WorkerEnds(turn.world, turn.worker)
  {
    SameEnds(w);
    PrepareEnds(w, job, reply);
  }

  lemma DestroyEnds(w: World, x: Destroyer, reply: Reply)
    requires Core(w) && EndsOk(w) && DestroyerOk(w, x) && DestroyerEnds(w, x)
              && (w.store.Some? ==> OneIdentity(w.store.value))
    ensures var turn := ActDestroy(w, x, reply); EndsStep(w, turn.world) && WorkerEnds(turn.world, turn.worker)
  {
    match x
    case DestroyRead => ReadEnds(w, reply);
    case DestroyFence(claim) => FenceTurnEnds(w, claim, reply);
    case Prepare(job) => PrepareTurnEnds(w, job, reply);
    case Policies(job) => PoliciesEnds(w, job, reply);
    case TearDown(_, _, _, _) => TearDownEnds(w, x, reply);
    case _ => SweepEnds(w, x, reply);
  }

  // ----- expose ----------------------------------------------------------------------------------------------

  lemma ClaimEnds(w: World, identity: nat, cop: nat)
    requires EndsOk(w) && w.nextId > 0 && w.store.Some? && w.store.value.exposure.None? && w.store.value.phase == Ready
    requires w.store.value.policies == [] && |w.store.value.listed| == 1
    ensures EndsStep(w, WithClaim(w, OpenExposure(w.store.value, w.nextId, identity), cop))
  {
    var g := WithClaim(w, OpenExposure(w.store.value, w.nextId, identity), cop);
    assert EndsBooks(g);
    forall o | Outgoing(g, o) ensures Answers(g, g.store.value, o) {
      if o != w.nextId {
        assert Outgoing(w, o);
        assert false;
      }
    }
  }

  lemma CompleteEnds(w: World, eop: nat, policy: nat, recovering: bool)
    requires EndsOk(w) && w.store.Some? && Knows(w, policy, eop)
              && MutateExposure(w.store.value, eop, Complete(policy, recovering)).Write?
    ensures EndsStep(w, Commit(w, MutateExposure(w.store.value, eop, Complete(policy, recovering)).state))
  {
    var s, s' := w.store.value, MutateExposure(w.store.value, eop, Complete(policy, recovering)).state;
    var g := Commit(w, s');
    forall p | p in s'.policies ensures Knows(g, p.id, eop) {
      if p in s.policies { assert Knows(w, p.id, OpOf(s)); }
    }
    assert Recorded(s', policy) by {
      if k :| 0 <= k < |s.policies| && s.policies[k].id == policy {
        assert s'.policies[k] in s'.policies;
      } else {
        assert Policy(policy, s.exposure.value.identity) in s'.policies;
      }
    }
    forall o | Outgoing(g, o) ensures Answers(g, s', o) {
      assert Outgoing(w, o) && Answers(w, s, o);
      assert w.ends.calls[eop] == Made(policy);
    }
  }

  lemma NoteEnds(w: World, s': State)
    requires EndsOk(w) && w.store.Some? && s'.exposure.Some? && w.store.value.exposure.Some?
              && s'.policies == w.store.value.policies
    requires s'.exposure.value.op == w.store.value.exposure.value.op && s'.creation == w.store.value.creation
    requires w.store.value.exposure.value.phase != Withdrawn ==> s'.exposure.value.phase != Withdrawn
    requires w.store.value.exposure.value.unresolved ==> s'.exposure.value.unresolved
    requires s'.phase != Destroyed && (Over(w.store.value) ==> Over(s'))
    ensures EndsStep(w, Commit(w, s'))
  {
    var g := Commit(w, s');
    forall p | p in s'.policies ensures Knows(g, p.id, OpOf(s')) { assert Knows(w, p.id, OpOf(w.store.value)); }
    forall o | Outgoing(g, o) ensures Answers(g, s', o) {
      assert Outgoing(w, o) && Answers(w, w.store.value, o);
      if !w.store.value.exposure.value.unresolved {
        var p :| p in w.store.value.policies && p.id == w.ends.calls[o].policy;
        assert p in s'.policies;
      }
    }
  }

  lemma FinishPolicyEnds(w: World, eop: nat, policy: nat, deleted: bool)
    requires EndsOk(w) && w.store.Some? && Knows(w, policy, eop) && (deleted ==> policy !in w.ends.open)
    requires FinishPolicyCleanup(w.store.value, eop, policy, deleted).Write?
    ensures EndsStep(w, Commit(w, FinishPolicyCleanup(w.store.value, eop, policy, deleted).state))
  {
    var s, s' := w.store.value, FinishPolicyCleanup(w.store.value, eop, policy, deleted).state;
    var g := Commit(w, s');
    forall p | p in s'.policies ensures Knows(g, p.id, eop) { assert p in s.policies && Knows(w, p.id, OpOf(s)); }
    forall o | Outgoing(g, o) ensures Answers(g, s', o) {
      assert Outgoing(w, o) && Answers(w, s, o);
      assert w.ends.calls[eop] == Made(policy);
    }
  }

  lemma {:induction false} MatchingKnown(w: World, policies: seq<Policy>, identity: nat, eop: nat)
    requires forall p :: p in policies ==> Knows(w, p.id, eop)
    ensures forall id :: id in MatchingIds(policies, identity) ==> Knows(w, id, eop)
  {
    if policies != [] {
      assert policies[0] in policies && forall p :: p in policies[1..] ==> p in policies;
      MatchingKnown(w, policies[1..], identity, eop);
    }
  }

  lemma DecideEnds(w: World, s: State, identity: nat, recover: bool, claimed: bool)
    requires RecordsOk(w, s) && s.exposure.Some?
    ensures WorkerEnds(w, DecideExposure(s, identity, recover, claimed))
  {
    MatchingKnown(w, s.policies, identity, s.exposure.value.op);
  }

  lemma ExposeReadEnds(w: World, identity: nat, recover: bool, reply: Reply)
    requires EndsOk(w)
    ensures var turn := StepExposeRead(w, identity, recover, reply);
              EndsStep(w, turn.world) && WorkerEnds(turn.world, turn.worker)
  {
    SameEnds(w);
    if w.store.Some? && w.store.value.exposure.Some? { DecideEnds(w, w.store.value, identity, recover, false); }
  }

  lemma ExposeClaimEnds(w: World, identity: nat, claim: Read, reply: Reply)
    requires Core(w) && EndsOk(w) && ExposerOk(w, ExposeClaim(identity, claim))
    requires claim.state.Some? && claim.state.value.exposure.None? && (w.store.Some? ==> ExposureOk(w.store.value))
    ensures var turn := StepExposeClaim(w, identity, claim, reply);
              EndsStep(w, turn.world) && WorkerEnds(turn.world, turn.worker)
  {
    if claim.version == w.version && (reply.Ok? || reply.Unacked?) {
      var s := OpenExposure(w.store.value, w.nextId, identity);
      var cop := if s.creation.Some? then s.creation.value.op else 0;
      ClaimEnds(w, identity, cop);
      DecideEnds(WithClaim(w, s, cop), s, identity, false, true);
    } else {
      SameEnds(w);
    }
  }

  lemma ExposeCallEnds(w: World, cop: nat, eop: nat)
    requires EndsOk(w)
    ensures EndsStep(w, StepExposeCall(w, cop, eop).world)
  {
    var g := StepExposeCall(w, cop, eop).world;
    if w.store.Some? {
      forall p | p in w.store.value.policies
          ensures Knows(g, p.id, OpOf(w.store.value)) { assert Knows(w, p.id, OpOf(w.store.value)); }
    }
    forall o | Outgoing(g, o) ensures g.store.Some? && g.store.value.phase != Destroyed
        && Answers(g, g.store.value, o) {
      assert Outgoing(w, o) && Answers(w, w.store.value, o);
    }
  }

  lemma ExposePersistEnds(w: World, x: Exposer, reply: Reply)
    requires EndsOk(w) && x.ExposePersist? && ExposerOk(w, x) && ExposerEnds(w, x)
    ensures var turn := StepExposePersist(w, x.eop, x.change, x.read, reply);
              EndsStep(w, turn.world) && WorkerEnds(turn.world, turn.worker)
  {
    var turn := StepExposePersist(w, x.eop, x.change, x.read, reply);
    if turn.world != w {
      assert x.read.value.state == w.store;
      if x.change.Complete? {
        CompleteEnds(w, x.eop, x.change.policy, x.change.recovering);
      } else {
        NoteEnds(w, MutateExposure(w.store.value, x.eop, x.change).state);
      }
    } else {
      SameEnds(w);
    }
  }

  lemma PolicyClaimEnds(w: World, x: Exposer, reply: Reply)
    requires EndsOk(w) && x.PolicyClaim? && ExposerOk(w, x) && ExposerEnds(w, x)
    ensures var turn := StepPolicyClaim(w, x.eop, x.policy, x.read, reply);
              EndsStep(w, turn.world) && WorkerEnds(turn.world, turn.worker)
  {
    var turn := StepPolicyClaim(w, x.eop, x.policy, x.read, reply);
    if turn.world != w {
      assert x.read.value.state == w.store;
      NoteEnds(w, ClaimPolicyCleanup(w.store.value, x.eop).state);
    } else {
      SameEnds(w);
    }
  }

  lemma PolicyFinishEnds(w: World, x: Exposer, reply: Reply)
    requires EndsOk(w) && x.PolicyFinish? && ExposerOk(w, x) && ExposerEnds(w, x)
    ensures var turn := StepPolicyFinish(w, x.eop, x.policy, x.deleted, x.read, reply);
            EndsStep(w, turn.world) && WorkerEnds(turn.world, turn.worker)
  {
    var turn := StepPolicyFinish(w, x.eop, x.policy, x.deleted, x.read, reply);
    if turn.world != w {
      assert x.read.value.state == w.store;
      FinishPolicyEnds(w, x.eop, x.policy, x.deleted);
    } else {
      SameEnds(w);
    }
  }

  lemma PolicyDeleteEnds(w: World, eop: nat, policy: nat, reply: Reply)
    requires EndsOk(w) && Knows(w, policy, eop)
    ensures var turn := StepPolicyDelete(w, eop, policy, reply);
              EndsStep(w, turn.world) && WorkerEnds(turn.world, turn.worker)
  {
    SameEnds(w);
    CloseEnds(w, policy);
  }

  lemma ExposeEnds(w: World, x: Exposer, reply: Reply)
    requires Core(w) && EndsOk(w) && ExposerOk(w, x) && ExposerEnds(w, x)
              && (w.store.Some? ==> ExposureOk(w.store.value))
    requires x.ExposeClaim? ==> x.claim.state.Some? && x.claim.state.value.exposure.None?
    requires !(x.ExposeRetry? && reply.Ok?)
    ensures var turn := ActExpose(w, x, reply); EndsStep(w, turn.world) && WorkerEnds(turn.world, turn.worker)
  {
    match x
    case ExposeRead(identity, recover) => ExposeReadEnds(w, identity, recover, reply);
    case ExposeClaim(identity, claim) => ExposeClaimEnds(w, identity, claim, reply);
    case ExposeCall(cop, eop) => ExposeCallEnds(w, cop, eop);
    case ExposePersist(_, _, _) => ExposePersistEnds(w, x, reply);
    case PolicyClaim(_, _, _) => PolicyClaimEnds(w, x, reply);
    case PolicyDelete(eop, policy) => PolicyDeleteEnds(w, eop, policy, reply);
    case PolicyFinish(_, _, _, _) => PolicyFinishEnds(w, x, reply);
    case _ => SameEnds(w);
  }

  // ----- every run --------------------------------------------------------------------------------------------

  /** The provider makes a policy for a recovery, although the exposure has its own call. */
  predicate Remakes(x: Worker, reply: Reply) {
    x.Expose? && x.exposer.ExposeRetry? && reply.Ok?
  }

  lemma ActEnds(w: World, x: Worker, reply: Reply)
    requires Core(w) && EndsOk(w) && WorkerOk(w, x) && WorkerEnds(w, x)
              && (w.store.Some? ==> ExposureOk(w.store.value)) && Licensed(w, x) && !Remakes(x, reply)
    ensures var turn := Act(w, x, reply); EndsStep(w, turn.world) && WorkerEnds(turn.world, turn.worker)
  {
    if reply == Crash || x.Stopped? {
      SameEnds(w);
    } else {
      match x
      case Apply(r) =>
        ReconcileAside(w, r, reply);
        AsideOk(w, ActReconcile(w, r, reply).world);
      case Begin(b) =>
        BeginAside(w, b, reply);
        AsideOk(w, ActBeginOrClean(w, b, reply).world);
      case Destroy(d) => DestroyEnds(w, d, reply);
      case Expose(e) => ExposeEnds(w, e, reply);
    }
  }

  ghost predicate EndsInv(y: System) {
    EndsOk(y.world) && forall p :: p in y.workers ==> WorkerEnds(y.world, y.workers[p])
  }

  lemma DoEnds(y: System, who: nat, reply: Reply)
    requires Inv(y) && EndpointInv(y) && EndsInv(y) && who in y.workers && !Remakes(y.workers[who], reply)
    ensures EndsInv(Step(y, Do(who, reply)))
  {
    var turn := Act(y.world, y.workers[who], reply);
    WorkerInv(y, who);
    ActEnds(y.world, y.workers[who], reply);
    var z := Step(y, Do(who, reply));
    assert z == System(turn.world, y.workers[who := turn.worker]);
    forall p | p in z.workers ensures WorkerEnds(z.world, z.workers[p]) {
      if p != who {
        WorkerInv(y, p);
        WorkerStays(y.world, turn.world, y.workers[p]);
      }
    }
  }

  lemma EstablishEnds(w: World, eop: nat)
    requires EndsOk(w) && w.nextId > 0
    ensures EndsStep(w, EstablishPolicy(w, eop))
  {
    var g := EstablishPolicy(w, eop);
    if g == w {
      SameEnds(w);
    } else {
      assert EndsBooks(g);
      if w.store.Some? {
        forall p | p in w.store.value.policies
            ensures Knows(g, p.id, OpOf(w.store.value)) { assert Knows(w, p.id, OpOf(w.store.value)); }
      }
      forall o | Outgoing(g, o) ensures g.store.Some? && g.store.value.phase != Destroyed
          && Answers(g, g.store.value, o) {
        assert Outgoing(w, o) && Answers(w, w.store.value, o);
      }
    }
  }

  lemma HappenEnds(y: System, e: Event)
    requires Inv(y) && EndsInv(y) && !(e.Do? && e.who in y.workers)
    ensures EndsInv(Step(y, e))
  {
    var z := Step(y, e);
    EventShape(y, e);
    if e.Establish? {
      EstablishEnds(y.world, e.eop);
    } else if e.Tombstone? && y.world.store.None? {
      TombstoneEnds(y.world);
    } else {
      LikeEnds(y.world, z.world);
    }
    forall p | p in z.workers ensures WorkerEnds(z.world, z.workers[p]) {
      if !Newcomer(z.workers[p], e) {
        WorkerInv(y, p);
        WorkerStays(y.world, z.world, y.workers[p]);
      }
    }
  }

  lemma TombstoneEnds(w: World)
    requires EndsOk(w) && w.store.None?
    ensures EndsStep(w, Happen(w, Tombstone))
  {
    forall o ensures !Outgoing(w, o) {}
    var g := Happen(w, Tombstone);
    forall o ensures !Outgoing(g, o) { assert !Outgoing(w, o); }
  }

  predicate RemakesAt(y: System, e: Event) {
    e.Do? && e.who in y.workers && Remakes(y.workers[e.who], e.reply)
  }

  /** No recovery made a policy; it may have found one. */
  predicate NoRemake(events: seq<Event>) {
    forall n :: 0 <= n < |events| ==> !RemakesAt(Run(events[..n]), events[n])
  }

  lemma {:induction false} RunEnds(events: seq<Event>)
    requires NoRemake(events)
    ensures EndsInv(Run(events))
  {
    if events != [] {
      var front, last := events[..|events| - 1], events[|events| - 1];
      forall n | 0 <= n < |front| ensures !RemakesAt(Run(front[..n]), front[n]) {
        assert front[..n] == events[..n] && front[n] == events[n];
      }
      RunEnds(front);
      RunInv(front);
      RunEndpoint(front);
      assert !RemakesAt(Run(events[..|front|]), events[|front|]);
      if last.Do? && last.who in Run(front).workers {
        DoEnds(Run(front), last.who, last.reply);
      } else {
        HappenEnds(Run(front), last);
      }
    }
  }

  // ----- runs without any recovery ------------------------------------------------------------------------------

  predicate NoRecovery(events: seq<Event>) {
    forall i :: 0 <= i < |events| ==> !(events[i].SpawnExpose? && events[i].recover)
  }

  predicate Recovers(x: Worker) {
    x.Expose? && (x.exposer.ExposeRetry? || ((x.exposer.ExposeRead? || x.exposer.ExposeLookup?) && x.exposer.recover))
  }

  lemma ExposeNeverRecovers(w: World, x: Exposer, reply: Reply)
    requires !Recovers(Expose(x))
    ensures !Recovers(ActExpose(w, x, reply).worker)
  {
  }

  lemma NeverRecovers(w: World, x: Worker, reply: Reply)
    requires !Recovers(x)
    ensures !Recovers(Act(w, x, reply).worker)
  {
    if x.Expose? { ExposeNeverRecovers(w, x.exposer, reply); }
  }

  lemma {:induction false} NobodyRecovers(events: seq<Event>)
    requires NoRecovery(events)
    ensures forall p :: p in Run(events).workers ==> !Recovers(Run(events).workers[p])
  {
    if events != [] {
      var front, last := events[..|events| - 1], events[|events| - 1];
      NobodyRecovers(front);
      if last.Do? && last.who in Run(front).workers {
        NeverRecovers(Run(front).world, Run(front).workers[last.who], last.reply);
      }
    }
  }

  /** Nothing is made again where nobody asked for a recovery. */
  lemma NoRecoveryNoRemake(events: seq<Event>)
    requires NoRecovery(events)
    ensures NoRemake(events)
  {
    forall n | 0 <= n < |events| ensures !RemakesAt(Run(events[..n]), events[n]) {
      NobodyRecovers(events[..n]);
    }
  }

  // ----- the theorem --------------------------------------------------------------------------------------------

  /**
   No orphaned endpoints. In every run in which no operator recovery made a policy of its
   own: once the durable phase is `destroyed`, no managed policy is open and no exposure,
   of any operation ever, can still make one.
   */
  lemma NoOrphanedEndpoints(events: seq<Event>)
    requires NoRemake(events)
    ensures var w := Run(events).world;
            w.store.Some? && w.store.value.phase == Destroyed ==> w.ends.open == {} && forall o :: !Outgoing(w, o)
  {
    RunEnds(events);
    var w := Run(events).world;
    if w.store.Some? && w.store.value.phase == Destroyed {
      forall o ensures !Outgoing(w, o) {}
      forall p | p in w.ends.open ensures false {
        assert Outgoing(w, w.ends.made[p]);
      }
    }
  }

  /** Before that, whatever is open or may still open belongs to the one exposure on record, which answers for it. */
  lemma OpenIsAnswered(events: seq<Event>, o: nat)
    requires NoRemake(events) && Outgoing(Run(events).world, o)
    ensures var w := Run(events).world; w.store.Some? && Answers(w, w.store.value, o)
  {
    RunEnds(events);
  }
}
