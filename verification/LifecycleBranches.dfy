/**
 The branches that workers take when they meet something else than success, and the cleanups behind a lost
 fence, as long as nobody interferes.
 */
module LifecycleBranches {
  import opened Base
  import opened LifecycleState
  import opened LifecycleMachine
  import opened LifecycleAlone

  /** The worker stands at `r`, on what is stored and being created. */
  predicate Stands(y: System, who: nat, r: Reconciler) {
    && who in y.workers && y.workers[who] == Apply(r)
    && y.world.store == Some(r.snap) && BothCreating(r.snap) && HasReplica(r.snap, r.index)
  }

  lemma StepIs(events: seq<Event>, who: nat, reply: Reply)
    requires who in Run(events).workers
    ensures var y, z := Run(events), Run(events + [Do(who, reply)]);
            var turn := Act(y.world, y.workers[who], reply);
            who in z.workers && z.world == turn.world && z.workers[who] == turn.worker
  {
    RunNext(events, Do(who, reply));
  }

  lemma WholeTurns(w: World, snap: State, index: nat, m: Mutation)
    requires w.store == Some(snap) && BothCreating(snap) && !m.Slot() && MutateWhole(snap, m).Write?
    ensures var read := Some(Read(w.version, w.store));
            && Act(w, Apply(Persist(snap, index, m, None)), Ok) == Turn(w, Apply(Persist(snap, index, m, read)))
            && Act(w, Apply(Persist(snap, index, m, read)), Ok).world == Commit(w, MutateWhole(snap, m).state)
  {
  }

  /** A transition of the whole state: a read and a write. */
  lemma Whole(events: seq<Event>, who: nat, snap: State, index: nat, m: Mutation)
    requires who in Run(events).workers && Run(events).workers[who] == Apply(Persist(snap, index, m, None))
    requires Run(events).world.store == Some(snap) && BothCreating(snap)
    requires !m.Slot() && MutateWhole(snap, m).Write?
    ensures Run(events + [Do(who, Ok)] + [Do(who, Ok)]).world ==
              Commit(Run(events).world, MutateWhole(snap, m).state)
  {
    WholeTurns(Run(events).world, snap, index, m);
    StepIs(events, who, Ok);
    StepIs(events + [Do(who, Ok)], who, Ok);
  }

  /** A proof that fails fails the sandbox; no replica is touched. */
  lemma FailedProofFails(events: seq<Event>, who: nat, snap: State, i: nat)
    requires Stands(Run(events), who, Proof(snap, i))
    ensures var z := Run(events + [Do(who, Err)] + [Do(who, Ok)] + [Do(who, Ok)]).world;
            && z.store.Some? && z.store.value.phase == Failed && z.store.value.creation.Some?
            && z.store.value.creation.value.phase == Failed
            && z.store.value.creation.value.replicas == snap.creation.value.replicas
  {
    StepIs(events, who, Err);
    Whole(events + [Do(who, Err)], who, snap, i, RecordFailure(true));
  }

  /** A lookup that finds more than there may be escalates. */
  lemma AmbiguityEscalates(events: seq<Event>, who: nat, snap: State, i: nat, created: nat)
    requires Stands(Run(events), who, Lookup(snap, i)) || Stands(Run(events), who, Confirm(snap, i, created))
    ensures var z := Run(events + [Do(who, Ambiguous)] + [Do(who, Ok)] + [Do(who, Ok)]).world;
            && z.store.Some? && z.store.value.phase == Escalated && z.store.value.creation.Some?
            && z.store.value.creation.value.phase == Escalated
            && z.store.value.creation.value.replicas == snap.creation.value.replicas
  {
    StepIs(events, who, Ambiguous);
    Whole(events + [Do(who, Ambiguous)], who, snap, i, Escalate);
  }

  function Exhausted(snap: State, i: nat, server: nat): State
    requires HasReplica(snap, i)
  {
    SetReplica(snap, i, Replica(snap.creation.value.replicas[i].network + 1, 0, Pending, 0))
      .(listed := RemoveListed(snap.listed, server))
  }

  lemma ExhaustTurns(w: World, snap: State, i: nat, server: nat)
    requires w.store == Some(snap) && BothCreating(snap) && HasReplica(snap, i)
    requires snap.creation.value.replicas[i].phase in {Attached, Active}
    requires snap.creation.value.replicas[i].server == server
    ensures var x, read := Apply(Persist(snap, i, Exhaust(server), None)), Some(Read(w.version, w.store));
            && Act(w, x, Ok) == Turn(w, Apply(Persist(snap, i, Exhaust(server), read)))
            && Act(w, Apply(Persist(snap, i, Exhaust(server), read)), Ok) ==
                 Turn(Commit(w, Exhausted(snap, i, server)), Apply(Scan(Exhausted(snap, i, server), i)))
  {
  }

  lemma Exhausts(events: seq<Event>, who: nat, snap: State, i: nat, server: nat)
    requires who in Run(events).workers
    requires Run(events).workers[who] == Apply(Persist(snap, i, Exhaust(server), None))
    requires Run(events).world.store == Some(snap) && BothCreating(snap) && HasReplica(snap, i)
    requires snap.creation.value.replicas[i].phase in {Attached, Active}
    requires snap.creation.value.replicas[i].server == server
    ensures var s := Exhausted(snap, i, server);
            var y, z := Run(events), Run(events + [Do(who, Ok)] + [Do(who, Ok)]);
            z.world == Commit(y.world, s) && who in z.workers && z.workers[who] == Apply(Scan(s, i))
  {
    ExhaustTurns(Run(events).world, snap, i, server);
    StepIs(events, who, Ok);
    StepIs(events + [Do(who, Ok)], who, Ok);
  }

  /** A server without an address is deleted and its replica starts again on the next network. */
  lemma NoAddressMovesOn(events: seq<Event>, who: nat, snap: State, i: nat, server: nat)
    requires Stands(Run(events), who, Wait(snap, i, server))
    requires snap.creation.value.replicas[i].phase in {Attached, Active}
    requires snap.creation.value.replicas[i].server == server
    ensures var z := Run(events + [Do(who, NoAddress)] + [Do(who, Ok)] + [Do(who, Ok)] + [Do(who, Ok)]);
            && server !in z.world.live && z.world.store.Some? && HasReplica(z.world.store.value, i)
            && z.world.store.value.creation.value.replicas[i] ==
                 Replica(snap.creation.value.replicas[i].network + 1, 0, Pending, 0)
            && who in z.workers && z.workers[who] == Apply(Scan(z.world.store.value, i))
  {
    StepIs(events, who, NoAddress);
    StepIs(events + [Do(who, NoAddress)], who, Ok);
    Exhausts(events + [Do(who, NoAddress)] + [Do(who, Ok)], who, snap, i, server);
  }

  // ----- cleanups --------------------------------------------------------------------------------------------

  /** A cleanup of this attempt's server stands before its claim, on an escalated state that names the attempt. */
  predicate MayClean(w: World, op: nat, index: nat, attempt: nat) {
    && w.store.Some? && w.store.value.phase == Escalated && HasReplica(w.store.value, index)
    && w.store.value.creation.value.op == op && w.store.value.creation.value.replicas[index].attempt == attempt
    && w.store.value.creation.value.replicas[index].phase != Gone
  }

  function Cleaning(w: World, index: nat, server: nat): World
    requires w.store.Some? && HasReplica(w.store.value, index)
  {
    var r := w.store.value.creation.value.replicas[index];
    Commit(w, SetReplica(w.store.value, index, r.(phase := ReplicaPhase.Cleaning, server := server)).(phase := Cleanup))
  }

  lemma ClaimTurns(w: World, op: nat, index: nat, attempt: nat, server: nat)
    requires MayClean(w, op, index, attempt)
    ensures var read, prior := Some(Read(w.version, w.store)), w.store.value.creation.value.replicas[index].phase;
            && Act(w, Begin(CleanClaim(op, index, attempt, server, None)), Ok) ==
                 Turn(w, Begin(CleanClaim(op, index, attempt, server, read)))
            && Act(w, Begin(CleanClaim(op, index, attempt, server, read)), Ok) ==
                 Turn(Cleaning(w, index, server), Begin(CleanDelete(op, index, attempt, server, prior)))
  {
  }

  lemma FinishTurns(w: World, op: nat, index: nat, attempt: nat, server: nat, prior: ReplicaPhase)
    requires w.store.Some? && w.store.value.phase == Cleanup && HasReplica(w.store.value, index)
    requires w.store.value.creation.value.op == op
    requires var r := w.store.value.creation.value.replicas[index];
             r.attempt == attempt && r.phase == ReplicaPhase.Cleaning && r.server == server
    ensures var x := Begin(CleanFinish(op, index, attempt, server, prior, true, None));
            var y := Begin(CleanFinish(op, index, attempt, server, prior, true, Some(Read(w.version, w.store))));
            && Act(w, x, Ok) == Turn(w, y) && Act(w, y, Ok).worker == Stopped
            && var z := Act(w, y, Ok).world;
               && z.live == w.live && z.store.Some? && z.store.value.phase == Escalated
               && HasReplica(z.store.value, index) && z.store.value.creation.value.replicas[index].phase == Gone
  {
  }

  lemma DeleteTurn(w: World, op: nat, index: nat, attempt: nat, server: nat, prior: ReplicaPhase)
    ensures Act(w, Begin(CleanDelete(op, index, attempt, server, prior)), Ok) ==
              Turn(Erase(w, server), Begin(CleanFinish(op, index, attempt, server, prior, true, None)))
  {
  }

  lemma TwoSteps(events: seq<Event>, who: nat, a: Turn, b: Turn)
    requires who in Run(events).workers && Act(Run(events).world, Run(events).workers[who], Ok) == a
    requires Act(a.world, a.worker, Ok) == b
    ensures var z := Run(events + [Do(who, Ok)] + [Do(who, Ok)]);
            who in z.workers && z.world == b.world && z.workers[who] == b.worker
  {
    StepIs(events, who, Ok);
    StepIs(events + [Do(who, Ok)], who, Ok);
  }

  /** A cleanup that meets no failure deletes its server and leaves the replica destroyed. */
  lemma CleanupClears(events: seq<Event>, who: nat, op: nat, index: nat, attempt: nat, server: nat)
    requires who in Run(events).workers
    requires Run(events).workers[who] == Begin(CleanClaim(op, index, attempt, server, None))
    requires MayClean(Run(events).world, op, index, attempt)
    ensures var z := Run(events + [Do(who, Ok)] + [Do(who, Ok)] + [Do(who, Ok)] + [Do(who, Ok)] + [Do(who, Ok)]).world;
            && server !in z.live && z.store.Some? && z.store.value.phase == Escalated
            && HasReplica(z.store.value, index) && z.store.value.creation.value.replicas[index].phase == Gone
  {
    var w := Run(events).world;
    var prior := w.store.value.creation.value.replicas[index].phase;
    var read := Some(Read(w.version, w.store));
    ClaimTurns(w, op, index, attempt, server);
    TwoSteps(events, who, Turn(w, Begin(CleanClaim(op, index, attempt, server, read))),
        Turn(Cleaning(w, index, server), Begin(CleanDelete(op, index, attempt, server, prior))));
    var e2 := events + [Do(who, Ok)] + [Do(who, Ok)];
    DeleteTurn(Cleaning(w, index, server), op, index, attempt, server, prior);
    StepIs(e2, who, Ok);
    CleanupEnds(e2 + [Do(who, Ok)], who, op, index, attempt, server, prior);
  }

  lemma CleanupEnds(events: seq<Event>, who: nat, op: nat, index: nat, attempt: nat, server: nat, prior: ReplicaPhase)
    requires who in Run(events).workers
    requires Run(events).workers[who] == Begin(CleanFinish(op, index, attempt, server, prior, true, None))
    requires var w := Run(events).world;
             && w.store.Some? && w.store.value.phase == Cleanup && HasReplica(w.store.value, index)
             && w.store.value.creation.value.op == op && server !in w.live
             && var r := w.store.value.creation.value.replicas[index];
                r.attempt == attempt && r.phase == ReplicaPhase.Cleaning && r.server == server
    ensures var z := Run(events + [Do(who, Ok)] + [Do(who, Ok)]).world;
            && server !in z.live && z.store.Some? && z.store.value.phase == Escalated
            && HasReplica(z.store.value, index) && z.store.value.creation.value.replicas[index].phase == Gone
  {
    var w := Run(events).world;
    var y := Begin(CleanFinish(op, index, attempt, server, prior, true, Some(Read(w.version, w.store))));
    FinishTurns(w, op, index, attempt, server, prior);
    TwoSteps(events, who, Turn(w, y), Act(w, y, Ok));
  }
}
