/** Guarantee, continued: Destroy, exposure and the provider's own moves. */
module LifecycleTeardown {
  import opened Base
  import opened LifecycleState
  import opened LifecycleMachine
  import opened LifecycleSafety
  import opened LifecycleSteps

  // ----- Destroy -----------------------------------------------------------------------

  /** A state read while `destroying` tells Destroy what is already settled. */
  lemma FreshJob(w: World, upto: nat)
    requires Core(w) && w.store.Some? && w.store.value.creation.Some? && w.store.value.creation.value.phase != Creating
    requires GoneBelow(w, w.store.value.creation.value.op, upto)
    ensures JobOk(w, JobFor(w.store.value), upto)
  {
    StoreSnap(w);
    var c := w.store.value.creation.value;
    assert CreationOk(w, c);
    forall i | 0 <= i < |c.replicas| && c.replicas[i].phase in {Pending, Gone} ensures Settled(w, c.op, i) {
      assert ReplicaOk(w, c.op, i, c.replicas[i]);
    }
  }

  lemma JobPolicies(w: World, job: Job, upto: nat, policies: set<nat>)
    requires JobOk(w, job, upto)
    ensures JobOk(w, job.(policies := policies), upto)
  {
    forall i | 0 <= i < |job.snap.creation.value.replicas|
        && job.snap.creation.value.replicas[i].phase in {Pending, Gone}
      ensures Settled(w, job.cop, i) {}
  }

  lemma JobDown(w: World, job: Job, upto: nat, less: nat)
    requires JobOk(w, job, upto) && less <= upto
    ensures JobOk(w, job, less)
  {
  }

  lemma SurrenderOk(w: World, job: Job, upto: nat)
    requires Core(w) && JobOk(w, job, upto)
    ensures Guarantee(w, Turn(w, Surrender(job)))
  {
    JobDown(w, job, upto, 0);
    Stay(w, Surrender(job));
  }

  lemma DestroyReadOk(w: World, reply: Reply)
    requires Core(w)
    ensures Guarantee(w, ActDestroy(w, DestroyRead, reply))
  {
    if reply == Ok && w.store.Some? && w.store.value.phase == Destroying {
      FreshJob(w, 0);
      Stay(w, Destroy(Prepare(JobFor(w.store.value))));
    } else {
      FreshRead(w);
      Stay(w, StepDestroyRead(w, reply).worker);
    }
  }

  lemma FenceCore(w: World)
    requires Core(w) && w.store.Some? && w.store.value.phase != Destroyed
    ensures var g := Commit(w, TakeDestroyFence(w.store.value));
            Evolves(w, g) && Core(g) && JobOk(g, JobFor(g.store.value), 0)
  {
    KeepCore(w, TakeDestroyFence(w.store.value));
    FreshJob(Commit(w, TakeDestroyFence(w.store.value)), 0);
  }

  lemma DestroyFenceOk(w: World, claim: Read, reply: Reply)
    requires Core(w) && WorkerOk(w, Destroy(DestroyFence(claim)))
    ensures Guarantee(w, ActDestroy(w, DestroyFence(claim), reply))
  {
    if claim.version == w.version && (reply.Ok? || reply.Unacked?) {
      FenceCore(w);
      var g := Commit(w, TakeDestroyFence(w.store.value));
      Take(w, g, Destroy(Prepare(JobFor(g.store.value))));
      Halt(w, g);
    } else {
      Stay(w, Stopped);
    }
  }

  lemma PrepareOk(w: World, job: Job, reply: Reply)
    requires Core(w) && WorkerOk(w, Destroy(Prepare(job)))
    ensures Guarantee(w, ActDestroy(w, Prepare(job), reply))
  {
    SurrenderOk(w, job, 0);
    if job.snap.exposure.None? {
      if job.snap.policies == [] { Stay(w, Destroy(Find(job, 0))); }
    } else {
      var known := KnownPolicies(job.snap, job.snap.exposure.value.identity);
      var policies := if reply.See? then known + {reply.which} else known;
      JobPolicies(w, job, 0, policies);
      Stay(w, Destroy(Find(job.(policies := policies), 0)));
      Stay(w, Destroy(Prepare(job)));
    }
  }

  /** A live server settles the question: it is the one outstanding server of its replica. */
  lemma SeenCovers(w: World, op: nat, index: nat, seen: set<nat>, server: nat)
    requires Core(w) && server in seen && server in w.live && Owned(w, server, op, index)
    ensures Covered(w, op, index, seen)
  {
    var t := w.servers[server];
    assert w.creates[t].status == Born(server);
    assert Outstanding(w, t) && At(w, t, op, index);
    var c := w.store.value.creation.value;
    assert CreationOk(w, c);
    assert c.op == op;
    assert ReplicaOk(w, op, index, c.replicas[index]);
    forall u | At(w, u, op, index) && Outstanding(w, u)
      ensures w.creates[u].status.Born? && w.creates[u].status.server in seen
    {
      assert u == t;
    }
  }

  lemma FindSawOk(w: World, job: Job, index: nat, found: set<nat>)
    requires Core(w) && JobOk(w, job, index)
    requires found <= w.live && forall s :: s in found ==> Owned(w, s, job.cop, index)
    ensures Guarantee(w, Turn(w, Destroy(Inspect(job, index, found))))
  {
    if found != {} {
      var s :| s in found;
      SeenCovers(w, job.cop, index, found, s);
    }
    Stay(w, Destroy(Inspect(job, index, found)));
  }

  lemma SweptOk(w: World, job: Job, index: nat)
    requires Core(w) && JobOk(w, job, index) && !HasReplica(job.snap, index)
    ensures Guarantee(w, Turn(w, Destroy(Policies(job))))
  {
    JobDown(w, job, index, Reach(job, 0, FinishDestroy));
    Stay(w, Destroy(Policies(job)));
  }

  lemma FindOk(w: World, job: Job, index: nat, reply: Reply)
    requires Core(w) && WorkerOk(w, Destroy(Find(job, index)))
    ensures Guarantee(w, ActDestroy(w, Find(job, index), reply))
  {
    if !HasReplica(job.snap, index) {
      SweptOk(w, job, index);
    } else if reply.SeeAll? && reply.servers <= w.live
        && forall s :: s in reply.servers ==> Owned(w, s, job.cop, index) {
      FindSawOk(w, job, index, reply.servers);
    } else if reply.Err? {
      SurrenderOk(w, job, index);
    } else {
      Stay(w, Destroy(Find(job, index)));
    }
  }

  lemma JudgeOk(w: World, job: Job, index: nat, seen: set<nat>)
    requires Core(w) && JobOk(w, job, index) && HasReplica(job.snap, index)
              && (seen != {} ==> Covered(w, job.cop, index, seen))
    ensures Guarantee(w, Turn(w, Judge(job, index, seen)))
  {
    var r := job.snap.creation.value.replicas[index];
    assert Shape(w, r);
    if Judge(job, index, seen) == Surrender(job) {
      SurrenderOk(w, job, index);
    } else {
      assert seen == {} ==> Settled(w, job.cop, index);
      Stay(w, Destroy(Delete(job, index, seen, seen)));
    }
  }

  lemma InspectOk(w: World, job: Job, index: nat, seen: set<nat>, reply: Reply)
    requires Core(w) && WorkerOk(w, Destroy(Inspect(job, index, seen)))
    ensures Guarantee(w, ActDestroy(w, Inspect(job, index, seen), reply))
  {
    if !HasReplica(job.snap, index) {
      Stay(w, Stopped);
    } else {
      var r := job.snap.creation.value.replicas[index];
      if r.server == 0 || reply.Absent? {
        JudgeOk(w, job, index, seen);
      } else if reply.Ok? && r.server in w.live && Owned(w, r.server, job.cop, index) {
        SeenCovers(w, job.cop, index, seen + {r.server}, r.server);
        JudgeOk(w, job, index, seen + {r.server});
      } else if reply.Err? {
        SurrenderOk(w, job, index);
      } else {
        Stay(w, Destroy(Inspect(job, index, seen)));
      }
    }
  }

  lemma DeletedOk(w: World, job: Job, index: nat, seen: set<nat>, todo: set<nat>, server: nat)
    requires Core(w) && WorkerOk(w, Destroy(Delete(job, index, seen, todo)))
    ensures Guarantee(w, Turn(Erase(w, server), Destroy(Delete(job, index, seen, todo - {server}))))
    ensures Guarantee(w, Turn(Erase(w, server), Surrender(job)))
  {
    EraseCore(w, server);
    var g := Erase(w, server);
    JobStable(w, g, job, index);
    CoveredStable(w, g, job.cop, index, todo);
    assert Covered(g, job.cop, index, todo - {server});
    Take(w, g, Destroy(Delete(job, index, seen, todo - {server})));
    SurrenderOk(g, job, index);
    Take(w, g, Surrender(job));
  }

  lemma DeleteOk(w: World, job: Job, index: nat, seen: set<nat>, todo: set<nat>, reply: Reply)
    requires Core(w) && WorkerOk(w, Destroy(Delete(job, index, seen, todo)))
    ensures Guarantee(w, ActDestroy(w, Delete(job, index, seen, todo), reply))
  {
    if todo == {} {
      Stay(w, Destroy(TearDown(job, index, MarkGone(index), None)));
    } else if (reply.See? || reply.Unacked?) {
      if reply.which in todo { DeletedOk(w, job, index, seen, todo, reply.which); }
      else { Stay(w, Destroy(Delete(job, index, seen, todo))); }
    } else {
      SurrenderOk(w, job, index);
    }
  }

  lemma PoliciesOk(w: World, job: Job, reply: Reply)
    requires Core(w) && WorkerOk(w, Destroy(Policies(job)))
    ensures Guarantee(w, ActDestroy(w, Policies(job), reply))
  {
    if job.policies == {} {
      Stay(w, StepPolicies(w, job, reply).worker);
    } else if (reply.See? || reply.Unacked?) && reply.which in job.policies {
      CloseOk(w, job, reply.which);
    } else if reply.See? || reply.Unacked? {
      Stay(w, Destroy(Policies(job)));
    } else {
      SurrenderOk(w, job, Reach(job, 0, FinishDestroy));
    }
  }

  /** Deleting a policy changes nothing that Destroy knows of the compute. */
  lemma CloseOk(w: World, job: Job, policy: nat)
    requires Core(w) && JobOk(w, job, Reach(job, 0, FinishDestroy))
    ensures Guarantee(w, Turn(Close(w, policy), Destroy(TearDown(job, 0, DropPolicy(policy), None))))
    ensures Guarantee(w, Turn(Close(w, policy), Surrender(job)))
  {
    var g := Close(w, policy);
    SideCore(w, g);
    JobStable(w, g, job, Reach(job, 0, FinishDestroy));
    Take(w, g, Destroy(TearDown(job, 0, DropPolicy(policy), None)));
    SurrenderOk(g, job, Reach(job, 0, FinishDestroy));
    Take(w, g, Surrender(job));
  }

  /** Nothing that is known of the compute depends on the endpoints. */
  lemma SideCore(w: World, g: World)
    requires Core(w) && g.nextId >= w.nextId
    requires g == w.(claims := g.claims, exposeCalls := g.exposeCalls, ends := g.ends, nextId := g.nextId)
    ensures Evolves(w, g) && Core(g)
  {
    CreatesCore(w, g);
  }

  /** The writes of Destroy that touch no replica. */
  lemma TearKeepCore(w: World, job: Job, m: Teardown)
    requires Core(w) && JobOk(w, job, Reach(job, 0, m)) && w.store.Some? && !m.MarkGone?
    requires MutateDestroy(w.store.value, job.cop, job.eop, m).Write?
    ensures var s := MutateDestroy(w.store.value, job.cop, job.eop, m).state;
            Evolves(w, Commit(w, s)) && Core(Commit(w, s)) && SnapOk(Commit(w, s), s)
  {
    var s := MutateDestroy(w.store.value, job.cop, job.eop, m).state;
    var c := w.store.value.creation.value;
    assert CreationOk(w, c);
    assert m.FinishDestroy? ==> AllGone(c);
    KeepCore(w, s);
    StoreSnap(Commit(w, s));
  }

  lemma TearGoneCore(w: World, job: Job, index: nat)
    requires Core(w) && JobOk(w, job, index) && w.store.Some? && Settled(w, job.cop, index)
    requires MutateDestroy(w.store.value, job.cop, job.eop, MarkGone(index)).Write?
    ensures var s := MutateDestroy(w.store.value, job.cop, job.eop, MarkGone(index)).state;
            && Evolves(w, Commit(w, s)) && Core(Commit(w, s))
            && JobOk(Commit(w, s), job.(snap := s), index + 1)
  {
    var s := MutateDestroy(w.store.value, job.cop, job.eop, MarkGone(index)).state;
    var c := w.store.value.creation.value;
    assert CreationOk(w, c);
    assert ReplicaOk(w, c.op, index, c.replicas[index]);
    var r := s.creation.value.replicas[index];
    assert ReplicaOk(w, c.op, index, r);
    ReplaceCore(w, s, index, r);
    var g := Commit(w, s);
    GoneStable(w, g, job.cop, index);
    FreshJob(g, index + 1);
    JobAs(g, JobFor(s), job.(snap := s), index + 1);
  }

  lemma JobAs(w: World, job: Job, other: Job, upto: nat)
    requires JobOk(w, job, upto) && other.snap == job.snap && other.cop == job.cop
    ensures JobOk(w, other, upto)
  {
    forall i | 0 <= i < |job.snap.creation.value.replicas|
        && job.snap.creation.value.replicas[i].phase in {Pending, Gone}
      ensures Settled(w, job.cop, i) {}
  }

  /** After one of those writes Destroy goes on with the state it wrote. */
  lemma TearKeptJob(w: World, job: Job, m: Teardown, s: State)
    requires Core(w) && JobOk(w, job, Reach(job, 0, m)) && w.store.Some? && (m.DropPolicy? || m.CloseExposure?)
    requires MutateDestroy(w.store.value, job.cop, job.eop, m) == Write(s)
    ensures JobOk(Commit(w, s), job.(snap := s), Reach(job.(snap := s), 0, FinishDestroy))
  {
    TearKeepCore(w, job, m);
    var g := Commit(w, s);
    GoneStable(w, g, job.cop, Reach(job, 0, m));
    FreshJob(g, Reach(job.(snap := s), 0, FinishDestroy));
    JobAs(g, JobFor(s), job.(snap := s), Reach(job.(snap := s), 0, FinishDestroy));
  }

  lemma TearWriteOk(w: World, job: Job, index: nat, m: Teardown, s: State)
    requires Core(w) && WorkerOk(w, Destroy(TearDown(job, index, m, None))) && w.store.Some?
    requires MutateDestroy(w.store.value, job.cop, job.eop, m) == Write(s)
    ensures Evolves(w, Commit(w, s)) && Core(Commit(w, s))
    ensures WorkerOk(Commit(w, s), ContinueTearDown(job, s, index, m))
  {
    match m
    case MarkGone(_) =>
      TearGoneCore(w, job, index);
    case DropPolicy(p) =>
      TearKeepCore(w, job, m);
      TearKeptJob(w, job, m, s);
      JobPolicies(Commit(w, s), job.(snap := s), Reach(job.(snap := s), 0, FinishDestroy), job.policies - {p});
    case CloseExposure =>
      TearKeepCore(w, job, m);
      TearKeptJob(w, job, m, s);
    case _ =>
      TearKeepCore(w, job, m);
  }

  lemma TearFree(w: World, job: Job, index: nat, m: Teardown, read: Option<Read>)
    requires Core(w) && WorkerOk(w, Destroy(TearDown(job, index, m, read)))
    ensures WorkerOk(w, Destroy(TearDown(job, index, m, None)))
    ensures WorkerOk(w, Destroy(TearDown(job, index, m, Some(Read(w.version, w.store)))))
  {
    FreshRead(w);
  }

  lemma TearDownOk(w: World, job: Job, index: nat, m: Teardown, read: Option<Read>, reply: Reply)
    requires Core(w) && WorkerOk(w, Destroy(TearDown(job, index, m, read)))
    ensures Guarantee(w, ActDestroy(w, TearDown(job, index, m, read), reply))
  {
    TearFree(w, job, index, m, read);
    if read.Some? && read.value.state.Some? && read.value.version == w.version && (reply.Ok? || reply.Unacked?)
       && MutateDestroy(read.value.state.value, job.cop, job.eop, m).Write? {
      var s := MutateDestroy(w.store.value, job.cop, job.eop, m).state;
      TearWriteOk(w, job, index, m, s);
      Take(w, Commit(w, s), ContinueTearDown(job, s, index, m));
      Halt(w, Commit(w, s));
    } else {
      Stay(w, StepTearDown(w, job, index, m, read, reply).worker);
    }
  }

  // ----- exposure -----------------------------------------------------------------------

  /** Exposure writes leave the creation alone and never touch a fenced state. */
  lemma ExposureCore(w: World, s: State)
    requires Core(w) && w.store.Some? && s.creation == w.store.value.creation
    requires w.store.value.phase in {Ready, Escalated, Cleanup} && s.phase in {Ready, Escalated, Cleanup}
    ensures Evolves(w, Commit(w, s)) && Core(Commit(w, s))
  {
    KeepCore(w, s);
  }

  lemma Harmless(w: World, x: Worker)
    requires Core(w) && (x.Stopped? || x.Expose?)
    requires x.Expose? ==> !x.exposer.ExposeClaim?
    requires x.Expose? && (x.exposer.ExposePersist? || x.exposer.PolicyClaim? || x.exposer.PolicyFinish?) ==>
               x.exposer.read in {None, Some(Read(w.version, w.store))}
    ensures WorkerOk(w, x)
  {
    FreshRead(w);
  }

  lemma ExposeReadOk(w: World, identity: nat, recover: bool, reply: Reply)
    requires Core(w)
    ensures Guarantee(w, ActExpose(w, ExposeRead(identity, recover), reply))
  {
    var x := StepExposeRead(w, identity, recover, reply).worker;
    if x.Expose? && x.exposer.ExposeClaim? { FreshRead(w); } else { Harmless(w, x); }
    Stay(w, x);
  }

  function WithClaim(w: World, s: State, cop: nat): World {
    Commit(w, s).(nextId := w.nextId + 1, claims := w.claims[cop := false],
                  ends := w.ends.(calls := w.ends.calls[w.nextId := Due]))
  }

  lemma ClaimCore(w: World, s: State, cop: nat)
    requires Core(w) && w.store.Some? && s.creation == w.store.value.creation
    requires w.store.value.phase == Ready && s.phase == Ready
    ensures Evolves(w, WithClaim(w, s, cop)) && Core(WithClaim(w, s, cop))
  {
    ExposureCore(w, s);
    var g := Commit(w, s);
    var h := WithClaim(w, s, cop);
    CreatesCore(g, h);
    assert Evolves(w, h);
  }

  lemma ExposeClaimOk(w: World, identity: nat, claim: Read, reply: Reply)
    requires Core(w) && WorkerOk(w, Expose(ExposeClaim(identity, claim)))
    ensures Guarantee(w, ActExpose(w, ExposeClaim(identity, claim), reply))
  {
    if claim.version == w.version && (reply.Ok? || reply.Unacked?) {
      var s := OpenExposure(w.store.value, w.nextId, identity);
      var cop := if s.creation.Some? then s.creation.value.op else 0;
      ClaimCore(w, s, cop);
      var x := StepExposeClaim(w, identity, claim, reply).worker;
      Harmless(WithClaim(w, s, cop), x);
      Take(w, WithClaim(w, s, cop), x);
    } else {
      Stay(w, Stopped);
    }
  }

  lemma ExposeCallOk(w: World, cop: nat, eop: nat, reply: Reply)
    requires Core(w)
    ensures Guarantee(w, ActExpose(w, ExposeCall(cop, eop), reply))
  {
    var turn := StepExposeCall(w, cop, eop);
    SideCore(w, turn.world);
    Harmless(turn.world, turn.worker);
    Take(w, turn.world, turn.worker);
  }

  /** The steps that only deal with the provider's policies. */
  lemma ExposeSideOk(w: World, x: Exposer, reply: Reply)
    requires Core(w) && (x.ExposeCalled? || x.ExposeLookup? || x.ExposeRetry? || x.PolicyDelete?)
    ensures Guarantee(w, ActExpose(w, x, reply))
  {
    var turn := ActExpose(w, x, reply);
    SideCore(w, turn.world);
    Harmless(turn.world, turn.worker);
    Take(w, turn.world, turn.worker);
  }

  lemma ExposePersistOk(w: World, eop: nat, m: ExposureMutation, read: Option<Read>, reply: Reply)
    requires Core(w) && WorkerOk(w, Expose(ExposePersist(eop, m, read)))
    ensures Guarantee(w, ActExpose(w, ExposePersist(eop, m, read), reply))
  {
    var turn := StepExposePersist(w, eop, m, read, reply);
    if read.Some? && read.value.state.Some? && read.value.version == w.version && (reply.Ok? || reply.Unacked?)
       && MutateExposure(read.value.state.value, eop, m).Write? {
      ExposureCore(w, MutateExposure(w.store.value, eop, m).state);
      Halt(w, turn.world);
    } else {
      Harmless(w, turn.worker);
      Stay(w, turn.worker);
    }
  }

  lemma PolicyClaimOk(w: World, eop: nat, policy: nat, read: Option<Read>, reply: Reply)
    requires Core(w) && WorkerOk(w, Expose(PolicyClaim(eop, policy, read)))
    ensures Guarantee(w, ActExpose(w, PolicyClaim(eop, policy, read), reply))
  {
    var turn := StepPolicyClaim(w, eop, policy, read, reply);
    if read.Some? && read.value.state.Some? && read.value.version == w.version && (reply.Ok? || reply.Unacked?)
       && ClaimPolicyCleanup(read.value.state.value, eop).Write? {
      ExposureCore(w, ClaimPolicyCleanup(w.store.value, eop).state);
      Take(w, turn.world, Expose(PolicyDelete(eop, policy)));
      Halt(w, turn.world);
    } else {
      Harmless(w, turn.worker);
      Stay(w, turn.worker);
    }
  }

  lemma PolicyFinishOk(w: World, eop: nat, policy: nat, deleted: bool, read: Option<Read>, reply: Reply)
    requires Core(w) && WorkerOk(w, Expose(PolicyFinish(eop, policy, deleted, read)))
    ensures Guarantee(w, ActExpose(w, PolicyFinish(eop, policy, deleted, read), reply))
  {
    var turn := StepPolicyFinish(w, eop, policy, deleted, read, reply);
    if read.Some? && read.value.state.Some? && read.value.version == w.version && (reply.Ok? || reply.Unacked?)
       && FinishPolicyCleanup(read.value.state.value, eop, policy, deleted).Write? {
      ExposureCore(w, FinishPolicyCleanup(w.store.value, eop, policy, deleted).state);
      Halt(w, turn.world);
    } else {
      Harmless(w, turn.worker);
      Stay(w, turn.worker);
    }
  }

  // ----- the provider and the tombstone ----------------------------------------------------

  lemma HappenOk(w: World, e: Event)
    requires Core(w)
    ensures Evolves(w, Happen(w, e)) && Core(Happen(w, e))
  {
    match e
    case Materialise(t) => DeliverOk(w, t);
    case Vanish(t) => VanishOk(w, t);
    case Establish(eop) => SideCore(w, EstablishPolicy(w, eop));
    case _ => EvolvesRefl(w);
  }

  lemma VanishOk(w: World, t: nat)
    requires Core(w)
    ensures Evolves(w, Happen(w, Vanish(t))) && Core(Happen(w, Vanish(t)))
  {
    if t in w.creates && w.creates[t].status == InFlight {
      SetStatusCore(w, t, Lost, w.calls);
    } else {
      EvolvesRefl(w);
    }
  }

  lemma DeliverOk(w: World, t: nat)
    requires Core(w)
    ensures Evolves(w, Deliver(w, t)) && Core(Deliver(w, t))
  {
    if t in w.creates && w.creates[t].status == InFlight {
      CreatesCore(w, Deliver(w, t));
    } else {
      EvolvesRefl(w);
    }
  }
}
