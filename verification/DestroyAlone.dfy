/**
 A Destroy left alone ends the sandbox: exactly if for every replica there is a server to delete, or surely
 none, and the exposure is resolved or its policy can be seen. Otherwise it escalates.
 */
module DestroyAlone {
  import opened Base
  import opened LifecycleState
  import opened LifecycleMachine
  import opened LifecycleSafety
  import opened Lifecycle
  import opened LifecycleCommits
  import opened ExposureOnce
  import opened LifecycleAlone

  // ----- what can be cleared -----------------------------------------------------------------------------

  /** Nothing of replica `i` can be lost sight of: it is gone, has a live server, or never got one. */
  ghost predicate Findable(w: World, s: State, i: nat)
    requires HasReplica(s, i)
  {
    var r := s.creation.value.replicas[i];
    || r.phase == Gone || OwnLive(w, s.creation.value.op, i) != {}
    || (r.phase != Launching && r.server == 0)
  }

  ghost predicate AllFindable(w: World, s: State, from: nat) {
    forall i: nat :: from <= i && HasReplica(s, i) ==> Findable(w, s, i)
  }

  function ExposureOp(s: State): nat {
    if s.exposure.Some? then s.exposure.value.op else 0
  }

  /** A call whose outcome nobody has recorded may have been made for this exposure. */
  predicate Uncertain(s: State, e: Exposure) {
    e.unresolved || (s.phase != Destroying && e.phase in {Opening, Withdrawing, Closing})
  }

  /** There was no exposure, or its outcome is certain, or a policy of it is on record or can be seen. */
  ghost predicate Withdrawable(w: World, s: State) {
    match s.exposure
    case None => s.policies == []
    case Some(e) =>
      Uncertain(s, e) ==>
        || (exists k :: 0 <= k < |s.policies| && s.policies[k].identity == e.identity)
        || exists p :: Opened(w, p, e.op)
  }

  ghost predicate Clearable(w: World) {
    w.store.Some? && AllFindable(w, w.store.value, 0) && Withdrawable(w, w.store.value)
  }

  // ----- the fence -----------------------------------------------------------------------------------------

  function FenceState(s: State): State {
    if s.phase == Destroying then s else TakeDestroyFence(s)
  }

  function FenceWorld(w: World): World
    requires w.store.Some?
  {
    if w.store.value.phase == Destroying then w else Commit(w, TakeDestroyFence(w.store.value))
  }

  lemma Fences(w: World)
    requires w.store.Some? && w.store.value.phase != Destroyed
    ensures Leads(Turn(w, Destroy(DestroyRead)),
              Turn(FenceWorld(w), Destroy(Prepare(JobFor(FenceState(w.store.value))))))
  {
    var s := w.store.value;
    if s.phase == Destroying {
      LeadsOne(Turn(w, Destroy(DestroyRead)), Turn(w, Destroy(Prepare(JobFor(s)))));
    } else {
      var mid := Turn(w, Destroy(DestroyFence(Read(w.version, w.store))));
      LeadsOne(Turn(w, Destroy(DestroyRead)), mid);
      LeadsOne(mid, Turn(FenceWorld(w), Destroy(Prepare(JobFor(TakeDestroyFence(s))))));
      LeadsOn(Turn(w, Destroy(DestroyRead)), mid, Turn(FenceWorld(w), Destroy(Prepare(JobFor(TakeDestroyFence(s))))));
    }
  }

  /** Destroy stands on what is stored, behind its fence. */
  predicate OnStore(w: World, job: Job) {
    && w.store == Some(job.snap) && job.snap.phase == Destroying && job.snap.creation.Some?
    && job.cop == job.snap.creation.value.op && job.eop == ExposureOp(job.snap)
  }

  ghost predicate Resolved(w: World, s: State) {
    match s.exposure
    case None => s.policies == []
    case Some(e) => e.unresolved ==> KnownPolicies(s, e.identity) != {} || exists p :: Opened(w, p, e.op)
  }

  lemma FenceKeeps(w: World)
    requires w.store.Some? && w.store.value.creation.Some? && w.store.value.phase != Destroyed
    ensures var g := FenceWorld(w);
            && OnStore(g, JobFor(FenceState(w.store.value))) && g.live == w.live && g.ends == w.ends
            && (AllFindable(g, g.store.value, 0) <==> AllFindable(w, w.store.value, 0))
  {
    var g := FenceWorld(w);
    assert forall op, i :: OwnLive(g, op, i) == OwnLive(w, op, i);
    forall i: nat ensures HasReplica(g.store.value, i) <==> HasReplica(w.store.value, i) {}
    forall i: nat | HasReplica(w.store.value, i)
      ensures Findable(g, g.store.value, i) <==> Findable(w, w.store.value, i) {}
  }

  // ----- giving up --------------------------------------------------------------------------------------------

  /** Destroy leaves the sandbox to an operator. */
  lemma Surrenders(w: World, job: Job) returns (g: World)
    requires OnStore(w, job)
    ensures Leads(Turn(w, Surrender(job)), Turn(g, Stopped))
    ensures g.store.Some? && g.store.value.phase == Escalated
  {
    g := TearsDown(w, job, 0, EscalateDestroy);
  }

  lemma TearsDown(w: World, job: Job, index: nat, m: Teardown) returns (g: World)
    requires OnStore(w, job) && MutateDestroy(job.snap, job.cop, job.eop, m).Write?
    ensures g == Commit(w, MutateDestroy(job.snap, job.cop, job.eop, m).state)
    ensures Leads(Turn(w, Destroy(TearDown(job, index, m, None))),
              Turn(g, ContinueTearDown(job, g.store.value, index, m)))
  {
    g := Commit(w, MutateDestroy(job.snap, job.cop, job.eop, m).state);
    var a := Turn(w, Destroy(TearDown(job, index, m, None)));
    var b := Turn(w, Destroy(TearDown(job, index, m, Some(Read(w.version, w.store)))));
    var c := Turn(g, ContinueTearDown(job, g.store.value, index, m));
    LeadsOne(a, b);
    LeadsOne(b, c);
    LeadsOn(a, b, c);
  }

  // ----- before the first delete ---------------------------------------------------------------------------------

  lemma Prepares(w: World, job: Job) returns (policies: set<nat>)
    requires OnStore(w, job) && Resolved(w, job.snap)
    ensures Leads(Turn(w, Destroy(Prepare(job))), Turn(w, Destroy(Find(job.(policies := policies), 0))))
  {
    var next := SoloStep(Turn(w, Destroy(Prepare(job))));
    if job.snap.exposure.None? {
      policies := job.policies;
    } else {
      var known := KnownPolicies(job.snap, job.snap.exposure.value.identity);
      if p :| Opened(w, p, job.eop) {
        var q :| FavourDestroy(w, Prepare(job)) == See(q) && Opened(w, q, job.eop);
        policies := known + {q};
      } else {
        policies := known;
      }
    }
    LeadsOne(Turn(w, Destroy(Prepare(job))), Turn(w, Destroy(Find(job.(policies := policies), 0))));
  }

  lemma Unprepared(w: World, job: Job)
    requires OnStore(w, job) && !Resolved(w, job.snap)
    ensures Leads(Turn(w, Destroy(Prepare(job))), Turn(w, Surrender(job)))
  {
    LeadsOne(Turn(w, Destroy(Prepare(job))), Turn(w, Surrender(job)));
  }

  // ----- one replica ----------------------------------------------------------------------------------------------

  function Marked(s: State, i: nat): State
    requires HasReplica(s, i)
  {
    SetReplica(s, i, s.creation.value.replicas[i].(phase := Gone)).(listed := MarkDeleted(s.listed, i))
  }

  /** What looking for the servers of replica `i` comes to. */
  lemma Looks(w: World, job: Job, i: nat)
    requires OnStore(w, job) && HasReplica(job.snap, i)
    ensures Leads(Turn(w, Destroy(Find(job, i))), Turn(w, Judge(job, i, OwnLive(w, job.cop, i))))
  {
    var seen := OwnLive(w, job.cop, i);
    var a, b := Turn(w, Destroy(Find(job, i))), Turn(w, Destroy(Inspect(job, i, seen)));
    var c := Turn(w, Judge(job, i, seen));
    LeadsOne(a, b);
    var r := job.snap.creation.value.replicas[i];
    if r.server in seen { assert seen + {r.server} == seen; }
    LeadsOne(b, c);
    LeadsOn(a, b, c);
  }

  lemma {:induction false} Deletes(w: World, job: Job, i: nat, seen: set<nat>, todo: set<nat>)
    ensures Leads(Turn(w, Destroy(Delete(job, i, seen, todo))),
              Turn(w.(live := w.live - todo), Destroy(Delete(job, i, seen, {}))))
    decreases |todo|
  {
    var a := Turn(w, Destroy(Delete(job, i, seen, todo)));
    if todo == {} {
      assert w.live - todo == w.live;
      LeadsSame(a);
    } else {
      var s :| FavourDestroy(w, Delete(job, i, seen, todo)) == See(s) && s in todo;
      var w' := Erase(w, s);
      var b := Turn(w', Destroy(Delete(job, i, seen, todo - {s})));
      LeadsOne(a, b);
      Deletes(w', job, i, seen, todo - {s});
      assert w'.live - (todo - {s}) == w.live - todo;
      LeadsOn(a, b, Turn(w.(live := w.live - todo), Destroy(Delete(job, i, seen, {}))));
    }
  }

  function Swept(w: World, s: State, gone: set<nat>): World {
    Commit(w.(live := w.live - gone), s)
  }

  /** Its servers are deleted and it is marked. */
  lemma Clears(w: World, job: Job, i: nat)
    requires OnStore(w, job) && HasReplica(job.snap, i) && Findable(w, job.snap, i)
    ensures Leads(Turn(w, Destroy(Find(job, i))),
              Turn(Swept(w, Marked(job.snap, i), OwnLive(w, job.cop, i)),
                Destroy(Find(job.(snap := Marked(job.snap, i)), i + 1))))
  {
    var seen := OwnLive(w, job.cop, i);
    var w' := w.(live := w.live - seen);
    var a, b := Turn(w, Destroy(Find(job, i))), Turn(w, Destroy(Delete(job, i, seen, seen)));
    var c, d := Turn(w', Destroy(Delete(job, i, seen, {}))), Turn(w', Destroy(TearDown(job, i, MarkGone(i), None)));
    Looks(w, job, i);
    Deletes(w, job, i, seen, seen);
    LeadsOn(a, b, c);
    LeadsOne(c, d);
    LeadsOn(a, c, d);
    var g := TearsDown(w', job, i, MarkGone(i));
    LeadsOn(a, d, Turn(g, Destroy(Find(job.(snap := Marked(job.snap, i)), i + 1))));
  }

  lemma Loses(w: World, job: Job, i: nat)
    requires OnStore(w, job) && HasReplica(job.snap, i) && !Findable(w, job.snap, i)
    ensures Leads(Turn(w, Destroy(Find(job, i))), Turn(w, Surrender(job)))
  {
    Looks(w, job, i);
  }

  /** The other replicas' servers are still there. */
  lemma OthersLive(w: World, s: State, op: nat, i: nat, j: nat)
    requires i != j
    ensures OwnLive(Swept(w, s, OwnLive(w, op, i)), op, j) == OwnLive(w, op, j)
  {
  }

  lemma FindableLater(w: World, job: Job, i: nat)
    requires OnStore(w, job) && HasReplica(job.snap, i) && Findable(w, job.snap, i)
    ensures var s := Marked(job.snap, i);
            var g := Swept(w, s, OwnLive(w, job.cop, i));
            && OnStore(g, job.(snap := s)) && g.ends == w.ends
            && (AllFindable(g, s, i + 1) <==> AllFindable(w, job.snap, i))
  {
    var s := Marked(job.snap, i);
    var g := Swept(w, s, OwnLive(w, job.cop, i));
    forall j: nat | i < j && HasReplica(s, j)
      ensures Findable(g, s, j) <==> Findable(w, job.snap, j)
    {
      OthersLive(w, s, job.cop, i, j);
    }
    forall j: nat ensures HasReplica(s, j) <==> HasReplica(job.snap, j) {}
  }

  // ----- all replicas ----------------------------------------------------------------------------------------------

  /** From replica `i` on: all are cleared, or Destroy surrenders at the first that cannot be. */
  lemma {:induction false} ClearsAll(w: World, job: Job, i: nat) returns (g: World, after: Job)
    requires OnStore(w, job) && i <= |job.snap.creation.value.replicas|
    ensures OnStore(g, after) && g.ends == w.ends && after.policies == job.policies
    ensures after.snap.exposure == job.snap.exposure
    ensures if AllFindable(w, job.snap, i)
            then Leads(Turn(w, Destroy(Find(job, i))), Turn(g, Destroy(Policies(after))))
            else Leads(Turn(w, Destroy(Find(job, i))), Turn(g, Surrender(after)))
    decreases |job.snap.creation.value.replicas| - i
  {
    var a := Turn(w, Destroy(Find(job, i)));
    if !HasReplica(job.snap, i) {
      g, after := w, job;
      LeadsOne(a, Turn(w, Destroy(Policies(job))));
    } else if !Findable(w, job.snap, i) {
      g, after := w, job;
      Loses(w, job, i);
    } else {
      var s := Marked(job.snap, i);
      var w', job' := Swept(w, s, OwnLive(w, job.cop, i)), job.(snap := s);
      Clears(w, job, i);
      FindableLater(w, job, i);
      g, after := ClearsAll(w', job', i + 1);
      var b := Turn(w', Destroy(Find(job', i + 1)));
      if AllFindable(w, job.snap, i) {
        LeadsOn(a, b, Turn(g, Destroy(Policies(after))));
      } else {
        LeadsOn(a, b, Turn(g, Surrender(after)));
      }
    }
  }

  // ----- policies and the end -----------------------------------------------------------------------------

  lemma Drops(w: World, job: Job, p: nat) returns (g: World, after: Job)
    requires OnStore(w, job) && p in job.policies && FavourDestroy(w, Policies(job)) == See(p)
    ensures OnStore(g, after) && after.policies == job.policies - {p}
    ensures Leads(Turn(w, Destroy(Policies(job))), Turn(g, Destroy(Policies(after))))
  {
    var w' := Close(w, p);
    var a, b := Turn(w, Destroy(Policies(job))), Turn(w', Destroy(TearDown(job, 0, DropPolicy(p), None)));
    LeadsOne(a, b);
    g := TearsDown(w', job, 0, DropPolicy(p));
    after := job.(snap := g.store.value, policies := job.policies - {p});
    LeadsOn(a, b, Turn(g, Destroy(Policies(after))));
  }

  lemma {:induction false} DropsAll(w: World, job: Job) returns (g: World, after: Job)
    requires OnStore(w, job)
    ensures OnStore(g, after) && after.policies == {}
    ensures Leads(Turn(w, Destroy(Policies(job))), Turn(g, Destroy(Policies(after))))
    decreases |job.policies|
  {
    if job.policies == {} {
      g, after := w, job;
      LeadsSame(Turn(w, Destroy(Policies(job))));
    } else {
      var p :| FavourDestroy(w, Policies(job)) == See(p) && p in job.policies;
      var w', job' := Drops(w, job, p);
      g, after := DropsAll(w', job');
      LeadsOn(Turn(w, Destroy(Policies(job))), Turn(w', Destroy(Policies(job'))), Turn(g, Destroy(Policies(after))));
    }
  }

  lemma Closes(w: World, job: Job) returns (g: World, after: Job)
    requires OnStore(w, job) && job.policies == {}
    ensures OnStore(g, after)
    ensures Leads(Turn(w, Destroy(Policies(job))), Turn(g, Destroy(TearDown(after, 0, FinishDestroy, None))))
  {
    var a := Turn(w, Destroy(Policies(job)));
    if job.snap.exposure.Some? && job.snap.exposure.value.phase != Withdrawn {
      var b := Turn(w, Destroy(TearDown(job, 0, CloseExposure, None)));
      LeadsOne(a, b);
      g := TearsDown(w, job, 0, CloseExposure);
      after := job.(snap := g.store.value);
      LeadsOn(a, b, Turn(g, Destroy(TearDown(after, 0, FinishDestroy, None))));
    } else {
      g, after := w, job;
      LeadsOne(a, Turn(w, Destroy(TearDown(job, 0, FinishDestroy, None))));
    }
  }

  lemma Ends(w: World, job: Job) returns (g: World)
    requires OnStore(w, job)
    ensures Leads(Turn(w, Destroy(Policies(job))), Turn(g, Stopped))
    ensures g.store.Some? && g.store.value.phase == Destroyed
  {
    var a := Turn(w, Destroy(Policies(job)));
    var w1, job1 := DropsAll(w, job);
    var w2, job2 := Closes(w1, job1);
    var c := Turn(w2, Destroy(TearDown(job2, 0, FinishDestroy, None)));
    LeadsOn(a, Turn(w1, Destroy(Policies(job1))), c);
    g := TearsDown(w2, job2, 0, FinishDestroy);
    LeadsOn(a, c, Turn(g, Stopped));
  }

  // ----- the whole call -------------------------------------------------------------------------------------------

  /** Behind its fence, a Destroy left alone ends as the state found lets it. */
  lemma Finishes(w: World, job: Job) returns (g: World)
    requires OnStore(w, job)
    ensures Leads(Turn(w, Destroy(Prepare(job))), Turn(g, Stopped)) && g.store.Some?
    ensures g.store.value.phase ==
              if Resolved(w, job.snap) && AllFindable(w, job.snap, 0) then Destroyed else Escalated
  {
    var a := Turn(w, Destroy(Prepare(job)));
    if !Resolved(w, job.snap) {
      Unprepared(w, job);
      g := Surrenders(w, job);
      LeadsOn(a, Turn(w, Surrender(job)), Turn(g, Stopped));
    } else {
      var policies := Prepares(w, job);
      var job1 := job.(policies := policies);
      var b := Turn(w, Destroy(Find(job1, 0)));
      var w2, job2 := ClearsAll(w, job1, 0);
      if AllFindable(w, job.snap, 0) {
        var c := Turn(w2, Destroy(Policies(job2)));
        LeadsOn(a, b, c);
        g := Ends(w2, job2);
        LeadsOn(a, c, Turn(g, Stopped));
      } else {
        var c := Turn(w2, Surrender(job2));
        LeadsOn(a, b, c);
        g := Surrenders(w2, job2);
        LeadsOn(a, c, Turn(g, Stopped));
      }
    }
  }

  lemma KnownAre(s: State, identity: nat)
    ensures KnownPolicies(s, identity) != {} <==>
              exists k :: 0 <= k < |s.policies| && s.policies[k].identity == identity
  {
    if k :| 0 <= k < |s.policies| && s.policies[k].identity == identity {
      assert s.policies[k].id in KnownPolicies(s, identity);
    }
  }

  lemma ResolvedFence(w: World)
    requires w.store.Some?
    ensures Resolved(FenceWorld(w), FenceState(w.store.value)) <==> Withdrawable(w, w.store.value)
  {
    var s, t := w.store.value, FenceState(w.store.value);
    if s.exposure.Some? {
      var e := s.exposure.value;
      assert t.policies == s.policies;
      KnownAre(t, e.identity);
      assert forall p :: Opened(FenceWorld(w), p, e.op) <==> Opened(w, p, e.op);
    }
  }

  lemma FromRead(w: World) returns (g: World)
    requires w.store.Some? && w.store.value.creation.Some? && w.store.value.phase != Destroyed
    ensures Leads(Turn(w, Destroy(DestroyRead)), Turn(g, Stopped)) && g.store.Some?
    ensures g.store.value.phase ==
              if Resolved(FenceWorld(w), FenceState(w.store.value)) && AllFindable(w, w.store.value, 0)
              then Destroyed else Escalated
  {
    var job := JobFor(FenceState(w.store.value));
    Fences(w);
    FenceKeeps(w);
    g := Finishes(FenceWorld(w), job);
    LeadsOn(Turn(w, Destroy(DestroyRead)), Turn(FenceWorld(w), Destroy(Prepare(job))), Turn(g, Stopped));
  }

  // ----- in every run -----------------------------------------------------------------------------------------------

  lemma HasCreation(events: seq<Event>)
    requires Run(events).world.store.Some? && Run(events).world.store.value.phase != Destroyed
    ensures Run(events).world.store.value.creation.Some?
  {
    RunInv(events);
    assert PhasesOk(Run(events).world.store.value);
  }

  /** A destroyed state that follows a creation has nothing left of it. */
  lemma NothingLeft(events: seq<Event>, more: seq<Event>)
    requires Run(events).world.store.Some? && Run(events).world.store.value.creation.Some?
    requires Run(events + more).world.store.Some? && Run(events + more).world.store.value.phase == Destroyed
    ensures var z := Run(events + more).world;
            z.live == {} && z.store.value.creation.Some? && AllGone(z.store.value.creation.value)
  {
    NoOrphans(events + more);
    RunLater(events, more);
  }

  lemma Spawned(events: seq<Event>, who: nat)
    requires who !in Run(events).workers
    ensures var y := Run(events + [SpawnDestroy(who)]);
            who in y.workers && y.world == Run(events).world && y.workers[who] == Destroy(DestroyRead)
  {
    RunNext(events, SpawnDestroy(who));
  }

  /** How a Destroy that found this world ends. */
  ghost predicate EndsAs(w: World, z: World) {
    && z.store.Some? && z.store.value.phase == (if Clearable(w) then Destroyed else Escalated)
    && (Clearable(w) ==> z.live == {} && z.store.value.creation.Some? && AllGone(z.store.value.creation.value))
  }

  lemma EndsFrom(events: seq<Event>, who: nat) returns (script: seq<Event>)
    requires who in Run(events).workers && Run(events).workers[who] == Destroy(DestroyRead)
    requires Run(events).world.store.Some? && Run(events).world.store.value.phase != Destroyed
    ensures AllFavoured(events, script, who) && EndsAs(Run(events).world, Run(events + script).world)
  {
    var w := Run(events).world;
    HasCreation(events);
    ResolvedFence(w);
    var g := FromRead(w);
    script := LeadsRun(events, who, Turn(g, Stopped));
    if Clearable(w) { NothingLeft(events, script); }
  }

  /**
   From every reachable state, a Destroy left alone ends: in `destroyed`, with every replica gone and no server
   live, exactly if what it finds can be cleared; else it escalates.
   */
  lemma DestroyEnds(events: seq<Event>, who: nat) returns (script: seq<Event>)
    requires who !in Run(events).workers
    requires Run(events).world.store.Some? && Run(events).world.store.value.phase != Destroyed
    ensures AllFavoured(events + [SpawnDestroy(who)], script, who)
    ensures EndsAs(Run(events).world, Run(events + [SpawnDestroy(who)] + script).world)
  {
    Spawned(events, who);
    script := EndsFrom(events + [SpawnDestroy(who)], who);
  }

  /**
   In particular, a ready sandbox, all of whose replicas have a live server of their own, never exposed or
   with an endpoint on record, is destroyed.
   */
  lemma ReadyIsDestroyed(events: seq<Event>, who: nat) returns (script: seq<Event>)
    requires who !in Run(events).workers && Run(events).world.store.Some?
    requires var w := Run(events).world;
             var s := w.store.value;
             && s.phase == Ready && s.creation.Some?
             && (forall i: nat :: HasReplica(s, i) ==>
                   s.creation.value.replicas[i].phase == Proven && OwnLive(w, s.creation.value.op, i) != {})
             && (s.exposure.Some? ==> s.exposure.value.phase == Open)
    ensures AllFavoured(events + [SpawnDestroy(who)], script, who)
    ensures var z := Run(events + [SpawnDestroy(who)] + script).world;
            && z.store.Some? && z.store.value.phase == Destroyed && z.live == {}
            && z.store.value.creation.Some? && AllGone(z.store.value.creation.value)
  {
    RunEndpoint(events);
    var s := Run(events).world.store.value;
    assert ExposureOk(s);
    if s.exposure.Some? { assert s.policies[0] in s.policies && s.policies[0].identity == s.exposure.value.identity; }
    script := DestroyEnds(events, who);
  }
}
