/** Guarantee: every step of every worker keeps the invariant of LifecycleSafety. */
module LifecycleSteps {
  import opened Base
  import opened LifecycleState
  import opened LifecycleMachine
  import opened LifecycleSafety

  ghost predicate Core(w: World) {
    Books(w) && StoreOk(w)
  }

  /** What a turn taken in `w` promises to everybody else. */
  ghost predicate Guarantee(w: World, turn: Turn) {
    Evolves(w, turn.world) && Core(turn.world) && WorkerOk(turn.world, turn.worker)
  }

  lemma EvolvesRefl(w: World)
    ensures Evolves(w, w)
  {
  }

  lemma Take(w: World, g: World, x: Worker)
    requires Evolves(w, g) && Core(g) && WorkerOk(g, x)
    ensures Guarantee(w, Turn(g, x))
  {
  }

  lemma Stay(w: World, x: Worker)
    requires Core(w) && WorkerOk(w, x)
    ensures Guarantee(w, Turn(w, x))
  {
    EvolvesRefl(w);
  }

  lemma Halt(w: World, g: World)
    requires Evolves(w, g) && Core(g)
    ensures Guarantee(w, Turn(g, Stopped))
  {
  }

  /** Writes that are about no server at all. */
  lemma PersistFree(w: World, snap: State, index: nat, m: Mutation)
    requires SnapOk(w, snap) && m in {Escalate, RecordFailure(false), RecordFailure(true), FinishCreation, MarkProven}
    ensures WorkerOk(w, Apply(Persist(snap, index, m, None)))
  {
  }

  lemma SlotFree(w: World, snap: State, index: nat, server: nat)
    requires SlotOk(w, snap, index, server)
    ensures WorkerOk(w, Apply(Wait(snap, index, server))) && WorkerOk(w, Apply(Discard(snap, index, server)))
    ensures WorkerOk(w, Apply(Persist(snap, index, MarkActive(server), None)))
  {
  }

  lemma AttachFree(w: World, snap: State, index: nat, server: nat)
    requires SlotOk(w, snap, index, server) && snap.creation.value.replicas[index].attempt != 0
    ensures WorkerOk(w, Apply(Persist(snap, index, Attach(server), None)))
  {
  }

  /** A write within one operation. */
  lemma CommitCore(w: World, s: State)
    requires Core(w) && w.store.Some? && w.store.value.creation.Some? && s.creation.Some? && PhasesOk(s)
    requires Tame(w.nextId, w.store.value.creation.value, s.creation.value)
    requires forall i :: 0 <= i < |s.creation.value.replicas| ==>
              ReplicaOk(w, s.creation.value.op, i, s.creation.value.replicas[i])
    ensures Evolves(w, Commit(w, s)) && Core(Commit(w, s))
  {
    var g := Commit(w, s);
    var c := s.creation.value;
    assert CreationOk(w, w.store.value.creation.value);
    forall i | 0 <= i < |c.replicas| ensures ReplicaOk(g, c.op, i, c.replicas[i]) {
      assert ReplicaOk(w, c.op, i, c.replicas[i]);
      forall t | At(g, t, c.op, i) && Outstanding(g, t) ensures At(w, t, c.op, i) && Outstanding(w, t) {}
    }
    forall t | t in g.creates && g.creates[t].op != c.op ensures !Outstanding(g, t) {
      assert !Outstanding(w, t);
    }
  }

  /** A write that replaces one replica. */
  lemma ReplaceCore(w: World, s: State, index: nat, r: Replica)
    requires Core(w) && w.store.Some? && HasReplica(w.store.value, index) && PhasesOk(s)
    requires s.creation.Some? && s.creation.value.op == w.store.value.creation.value.op
    requires s.creation.value.networks == w.store.value.creation.value.networks
    requires s.creation.value.replicas == w.store.value.creation.value.replicas[index := r]
    requires w.store.value.creation.value.phase != Creating ==> s.creation.value.phase != Creating
    requires ReplicaOk(w, s.creation.value.op, index, r)
    requires w.store.value.creation.value.replicas[index].phase == Gone ==> r.phase == Gone
    requires r.attempt == w.store.value.creation.value.replicas[index].attempt || r.attempt == 0
    ensures Evolves(w, Commit(w, s)) && Core(Commit(w, s))
  {
    var c, c' := w.store.value.creation.value, s.creation.value;
    assert CreationOk(w, c);
    forall i | 0 <= i < |c'.replicas| ensures ReplicaOk(w, c'.op, i, c'.replicas[i]) {
      assert ReplicaOk(w, c.op, i, c.replicas[i]);
    }
    CommitCore(w, s);
  }

  /** A write that leaves every replica alone. */
  lemma KeepCore(w: World, s: State)
    requires Core(w) && w.store.Some? && w.store.value.creation.Some? && PhasesOk(s)
    requires s.creation.Some? && s.creation.value.op == w.store.value.creation.value.op
    requires s.creation.value.networks == w.store.value.creation.value.networks
    requires s.creation.value.replicas == w.store.value.creation.value.replicas
    requires w.store.value.creation.value.phase != Creating ==> s.creation.value.phase != Creating
    ensures Evolves(w, Commit(w, s)) && Core(Commit(w, s))
  {
    assert CreationOk(w, w.store.value.creation.value);
    CommitCore(w, s);
  }

  lemma StoreSnap(w: World)
    requires Core(w) && w.store.Some? && w.store.value.creation.Some?
    ensures SnapOk(w, w.store.value)
    ensures ReadOk(w, Read(w.version, w.store))
  {
    var c := w.store.value.creation.value;
    assert CreationOk(w, c);
    forall i | 0 <= i < |c.replicas| ensures Shape(w, c.replicas[i]) {
      assert ReplicaOk(w, c.op, i, c.replicas[i]);
    }
  }

  lemma FreshRead(w: World)
    requires Core(w)
    ensures ReadOk(w, Read(w.version, w.store))
  {
    if w.store.Some? && w.store.value.creation.Some? { StoreSnap(w); }
  }

  /** Whatever lookup returns a live server has found the server of the current attempt. */
  lemma SeenIsMine(w: World, op: nat, index: nat, attempt: nat, server: nat)
    requires Core(w) && server in w.live && Owned(w, server, op, index) && attempt < w.nextId
    ensures Mine(w, op, index, attempt, server)
  {
    var t := w.servers[server];
    assert w.creates[t].status == Born(server);
    assert At(w, t, op, index) && Outstanding(w, t);
    if AttemptIs(w, op, index, attempt) {
      assert ReplicaOk(w, op, index, w.store.value.creation.value.replicas[index]);
    }
  }

  // ----- Apply ---------------------------------------------------------------------------

  lemma ApplyReadOk(w: World, spec: Spec, reply: Reply)
    requires Core(w)
    ensures Guarantee(w, ActBeginOrClean(w, ApplyRead(spec), reply))
  {
    EvolvesRefl(w);
    if w.store.Some? && w.store.value.creation.Some? { StoreSnap(w); }
  }

  lemma NoneOutstanding(w: World)
    requires Core(w) && (w.store.None? || w.store.value.phase == Destroyed)
    ensures forall t :: t in w.creates ==> !Outstanding(w, t)
  {
    forall t | t in w.creates ensures !Outstanding(w, t) {
      var c := w.store.value.creation.value;
      assert CreationOk(w, c);
      if w.creates[t].op == c.op {
        var i := w.creates[t].replica;
        assert ReplicaOk(w, c.op, i, c.replicas[i]);
        assert Outstanding(w, t) ==> At(w, t, c.op, i);
      }
    }
  }

  function WithIntent(w: World, spec: Spec): World {
    Commit(w, NewIntent(w.nextId, spec.replicas, spec.networks)).(nextId := w.nextId + 1,
        specs := w.specs[w.nextId := spec])
  }

  lemma NewIntentCore(w: World, spec: Spec)
    requires Core(w) && (w.store.None? || w.store.value.phase == Destroyed)
    ensures var g := WithIntent(w, spec); Evolves(w, g) && Core(g) && SnapOk(g, g.store.value)
  {
    NoneOutstanding(w);
    var g := WithIntent(w, spec);
    forall t | t in g.creates ensures !Outstanding(g, t) && g.creates[t].op != w.nextId {
      assert !Outstanding(w, t);
    }
    var c := g.store.value.creation.value;
    forall i | 0 <= i < |c.replicas| ensures ReplicaOk(g, c.op, i, c.replicas[i]) {}
    assert CreationOk(g, c);
    assert Core(g);
    StoreSnap(g);
  }

  lemma ApplyIntentOk(w: World, spec: Spec, version: nat, reply: Reply)
    requires Core(w) && WorkerOk(w, Begin(ApplyIntent(spec, version)))
    ensures Guarantee(w, ActBeginOrClean(w, ApplyIntent(spec, version), reply))
  {
    EvolvesRefl(w);
    if version == w.version && (reply.Ok? || reply.Unacked?) {
      NewIntentCore(w, spec);
      assert StepApplyIntent(w, spec, version, reply).world == WithIntent(w, spec);
    }
  }

  lemma ScanOk(w: World, snap: State, index: nat, reply: Reply)
    requires Core(w) && WorkerOk(w, Apply(Scan(snap, index)))
    ensures Guarantee(w, ActReconcile(w, Scan(snap, index), reply))
  {
    Stay(w, NextScan(snap, index));
  }

  lemma LookupFound(w: World, snap: State, index: nat, server: nat)
    requires Core(w) && WorkerOk(w, Apply(Lookup(snap, index))) && HasReplica(snap, index)
    requires server in w.live && Owned(w, server, snap.creation.value.op, index)
    ensures Guarantee(w, StepLookup(w, snap, index, See(server)))
  {
    assert Shape(w, snap.creation.value.replicas[index]);
    SeenIsMine(w, snap.creation.value.op, index, snap.creation.value.replicas[index].attempt, server);
    SlotFree(w, snap, index, server);
    if snap.creation.value.replicas[index].phase == Launching { AttachFree(w, snap, index, server); }
    Stay(w, StepLookup(w, snap, index, See(server)).worker);
  }

  lemma LookupOk(w: World, snap: State, index: nat, reply: Reply)
    requires Core(w) && WorkerOk(w, Apply(Lookup(snap, index)))
    ensures Guarantee(w, ActReconcile(w, Lookup(snap, index), reply))
  {
    if HasReplica(snap, index) && reply.See? && reply.which in w.live
        && Owned(w, reply.which, snap.creation.value.op, index) {
      LookupFound(w, snap, index, reply.which);
    } else {
      PersistFree(w, snap, index, Escalate);
      PersistFree(w, snap, index, RecordFailure(false));
      Stay(w, StepLookup(w, snap, index, reply).worker);
    }
  }

  lemma AcquireReadOk(w: World, snap: State, index: nat, reply: Reply)
    requires Core(w) && WorkerOk(w, Apply(AcquireRead(snap, index)))
    ensures Guarantee(w, ActReconcile(w, AcquireRead(snap, index), reply))
  {
    FreshRead(w);
    Stay(w, if reply.Ok? then Apply(AcquireWrite(snap, index, Read(w.version, w.store))) else Stopped);
  }

  function WithGrant(w: World, s: State, grant: Create): World {
    Commit(w, s).(nextId := w.nextId + 1, creates := w.creates[w.nextId := grant])
  }

  lemma GrantReplicas(w: World, g: World, op: nat, index: nat, c: Creation, c': Creation)
    requires CreationOk(w, c) && Books(w) && c.op == op && index < |c.replicas| && c.replicas[index].phase == Pending
    requires c'.replicas == c.replicas[index := c.replicas[index].(phase := Launching, attempt := w.nextId)]
    requires g.nextId == w.nextId + 1 && g.live == w.live
    requires exists n :: g.creates == w.creates[w.nextId := Create(op, index, n, Granted)]
    ensures forall i :: 0 <= i < |c'.replicas| ==> ReplicaOk(g, op, i, c'.replicas[i])
  {
    forall i | 0 <= i < |c'.replicas| ensures ReplicaOk(g, op, i, c'.replicas[i]) {
      assert ReplicaOk(w, op, i, c.replicas[i]);
      forall t | At(g, t, op, i) && Outstanding(g, t) && t != w.nextId ensures At(w, t, op, i) && Outstanding(w, t) {}
    }
  }

  /** The only step that makes room for another server. */
  lemma GrantCore(w: World, op: nat, index: nat)
    requires Core(w) && w.store.Some? && Acquire(w.store.value, op, index, w.nextId).Write?
    ensures var s := Acquire(w.store.value, op, index, w.nextId).state;
            var g := WithGrant(w, s, Create(op, index, s.creation.value.replicas[index].network, Granted));
            Evolves(w, g) && Core(g) && SnapOk(g, s)
  {
    var s := Acquire(w.store.value, op, index, w.nextId).state;
    var g := WithGrant(w, s, Create(op, index, s.creation.value.replicas[index].network, Granted));
    var c, c' := w.store.value.creation.value, s.creation.value;
    assert CreationOk(w, c);
    assert ReplicaOk(w, op, index, c.replicas[index]);
    forall t | t in w.creates ensures Outstanding(g, t) == Outstanding(w, t) {}
    GrantReplicas(w, g, op, index, c, c');
    assert CreationOk(g, c');
    assert Tame(w.nextId, c, c');
    assert Core(g);
    StoreSnap(g);
  }

  lemma AcquireWriteOk(w: World, snap: State, index: nat, claim: Read, reply: Reply)
    requires Core(w) && WorkerOk(w, Apply(AcquireWrite(snap, index, claim)))
    ensures Guarantee(w, ActReconcile(w, AcquireWrite(snap, index, claim), reply))
  {
    EvolvesRefl(w);
    if HasReplica(snap, index) && claim.state.Some? && claim.version == w.version && (reply.Ok? || reply.Unacked?) {
      var op := snap.creation.value.op;
      if Acquire(claim.state.value, op, index, w.nextId).Write? { GrantCore(w, op, index); }
    }
  }

  lemma LaunchStepOk(w: World, snap: State, index: nat)
    requires Core(w) && WorkerOk(w, Apply(Launch(snap, index)))
    requires var a := snap.creation.value.replicas[index].attempt;
             At(w, a, snap.creation.value.op, index) && w.creates[a].status == Granted
    ensures Guarantee(w, StepLaunch(w, snap, index))
  {
    var a := snap.creation.value.replicas[index].attempt;
    var turn := StepLaunch(w, snap, index);
    if turn.worker != Stopped {
      SetStatusCore(w, a, InFlight, turn.world.calls);
      LaunchedFree(w, turn.world, snap, index);
      Take(w, turn.world, Apply(Launched(snap, index)));
    } else {
      Stay(w, Stopped);
    }
  }

  lemma LaunchOk(w: World, snap: State, index: nat, reply: Reply)
    requires Core(w) && WorkerOk(w, Apply(Launch(snap, index)))
    requires var a := snap.creation.value.replicas[index].attempt;
             At(w, a, snap.creation.value.op, index) && w.creates[a].status == Granted
    ensures Guarantee(w, ActReconcile(w, Launch(snap, index), reply))
  {
    LaunchStepOk(w, snap, index);
  }

  lemma LaunchedFree(w: World, g: World, snap: State, index: nat)
    requires Evolves(w, g) && WorkerOk(w, Apply(Launch(snap, index)))
    requires At(w, snap.creation.value.replicas[index].attempt, snap.creation.value.op, index)
    ensures WorkerOk(g, Apply(Launched(snap, index)))
  {
    SnapStable(w, g, snap);
  }

  /** Calling the provider, or losing a call, of one attempt. */
  lemma SetStatusCore(w: World, t: nat, status: CreateStatus, calls: seq<Call>)
    requires Core(w) && t in w.creates && w.creates[t].status in {Granted, InFlight} && status in {InFlight, Lost}
    ensures var g := w.(creates := w.creates[t := w.creates[t].(status := status)], calls := calls);
            Evolves(w, g) && Core(g)
  {
    CreatesCore(w, w.(creates := w.creates[t := w.creates[t].(status := status)], calls := calls));
  }

  /** A change of one create's status that makes nothing outstanding that was not. */
  lemma CreatesCore(w: World, g: World)
    requires Core(w) && g.store == w.store && g.version == w.version && g.specs == w.specs && g.nextId >= w.nextId
    requires g.creates.Keys == w.creates.Keys
    requires forall t :: t in w.creates ==>
               && g.creates[t].op == w.creates[t].op && g.creates[t].replica == w.creates[t].replica
                   && g.creates[t].network == w.creates[t].network
               && (g.creates[t].status != w.creates[t].status ==> w.creates[t].status in {Granted, InFlight})
    requires forall t :: t in w.creates && g.creates[t].status != w.creates[t].status && g.creates[t].status.Born? ==>
               g.creates[t].status.server >= w.nextId
    requires forall s :: s in g.live ==> s in w.live || s >= w.nextId
    requires forall s :: s in w.servers ==> s in g.servers && g.servers[s] == w.servers[s]
    requires Books(g)
    ensures Evolves(w, g) && Core(g)
  {
    forall t | t in w.creates ensures Outstanding(g, t) ==> Outstanding(w, t) {
      if w.creates[t].status.Born? { assert w.creates[t].status.server in w.servers; }
    }
    if w.store.Some? && w.store.value.creation.Some? {
      var c := w.store.value.creation.value;
      assert CreationOk(w, c);
      forall i | 0 <= i < |c.replicas| ensures ReplicaOk(g, c.op, i, c.replicas[i]) {
        assert ReplicaOk(w, c.op, i, c.replicas[i]);
        forall t | At(g, t, c.op, i) && Outstanding(g, t) ensures At(w, t, c.op, i) && Outstanding(w, t) {}
      }
      assert CreationOk(g, c);
    }
  }

  lemma LaunchedOk(w: World, snap: State, index: nat, reply: Reply)
    requires Core(w) && WorkerOk(w, Apply(Launched(snap, index)))
    ensures Guarantee(w, ActReconcile(w, Launched(snap, index), reply))
  {
    EvolvesRefl(w);
    assert Shape(w, snap.creation.value.replicas[index]);
  }

  lemma ConfirmFound(w: World, snap: State, index: nat, created: nat, server: nat)
    requires Core(w) && WorkerOk(w, Apply(Confirm(snap, index, created)))
    requires server in w.live && Owned(w, server, snap.creation.value.op, index)
    ensures Guarantee(w, StepConfirm(w, snap, index, created, See(server)))
  {
    assert Shape(w, snap.creation.value.replicas[index]);
    SeenIsMine(w, snap.creation.value.op, index, snap.creation.value.replicas[index].attempt, server);
    AttachFree(w, snap, index, server);
    Stay(w, Apply(Persist(snap, index, Attach(server), None)));
  }

  lemma ConfirmOk(w: World, snap: State, index: nat, created: nat, reply: Reply)
    requires Core(w) && WorkerOk(w, Apply(Confirm(snap, index, created)))
    ensures Guarantee(w, ActReconcile(w, Confirm(snap, index, created), reply))
  {
    if reply.See? && reply.which in w.live && Owned(w, reply.which, snap.creation.value.op, index) {
      ConfirmFound(w, snap, index, created, reply.which);
    } else {
      PersistFree(w, snap, index, Escalate);
      if created != 0 { AttachFree(w, snap, index, created); }
      Stay(w, StepConfirm(w, snap, index, created, reply).worker);
    }
  }

  lemma EraseCore(w: World, server: nat)
    requires Core(w)
    ensures Evolves(w, Erase(w, server)) && Core(Erase(w, server))
  {
    CreatesCore(w, Erase(w, server));
  }

  lemma DiscardErased(w: World, snap: State, index: nat, server: nat)
    requires Core(w) && SlotOk(w, snap, index, server)
    ensures Guarantee(w, Turn(Erase(w, server), Apply(Persist(snap, index, Exhaust(server), None))))
  {
    EraseCore(w, server);
    SnapStable(w, Erase(w, server), snap);
    Take(w, Erase(w, server), Apply(Persist(snap, index, Exhaust(server), None)));
  }

  lemma DiscardOk(w: World, snap: State, index: nat, server: nat, reply: Reply)
    requires Core(w) && WorkerOk(w, Apply(Discard(snap, index, server)))
    ensures Guarantee(w, ActReconcile(w, Discard(snap, index, server), reply))
  {
    if reply.Ok? {
      DiscardErased(w, snap, index, server);
    } else if reply.Unacked? {
      EraseHalt(w, server);
    } else {
      Stay(w, Stopped);
    }
  }

  lemma EraseHalt(w: World, server: nat)
    requires Core(w)
    ensures Guarantee(w, Turn(Erase(w, server), Stopped))
  {
    EraseCore(w, server);
    Halt(w, Erase(w, server));
  }

  lemma WaitOk(w: World, snap: State, index: nat, server: nat, reply: Reply)
    requires Core(w) && WorkerOk(w, Apply(Wait(snap, index, server)))
    ensures Guarantee(w, ActReconcile(w, Wait(snap, index, server), reply))
  {
    SlotFree(w, snap, index, server);
    PersistFree(w, snap, index, RecordFailure(false));
    Stay(w, StepWait(w, snap, index, server, reply).worker);
  }

  lemma ProofOk(w: World, snap: State, index: nat, reply: Reply)
    requires Core(w) && WorkerOk(w, Apply(Proof(snap, index)))
    ensures Guarantee(w, ActReconcile(w, Proof(snap, index), reply))
  {
    PersistFree(w, snap, index, MarkProven);
    PersistFree(w, snap, index, RecordFailure(false));
    PersistFree(w, snap, index, RecordFailure(true));
    Stay(w, StepProof(w, snap, index, reply).worker);
  }

  /** A transition of one replica, committed against the state it was computed from. */
  /** The replica that a slot transition writes is in order again. */
  lemma SlotReplica(w: World, snap: State, index: nat, m: Mutation)
    requires Core(w) && m.Slot() && WorkerOk(w, Apply(Persist(snap, index, m, None)))
    requires MutateRead(snap, index, m, Read(w.version, w.store)).Write?
    ensures var s := MutateRead(snap, index, m, Read(w.version, w.store)).state;
            && s.creation.Some? && index < |s.creation.value.replicas|
            && ReplicaOk(w, w.store.value.creation.value.op, index, s.creation.value.replicas[index])
  {
    var c := w.store.value.creation.value;
    assert CreationOk(w, c);
    assert ReplicaOk(w, c.op, index, c.replicas[index]);
  }

  lemma SlotWriteCore(w: World, snap: State, index: nat, m: Mutation)
    requires Core(w) && m.Slot() && WorkerOk(w, Apply(Persist(snap, index, m, None)))
    requires MutateRead(snap, index, m, Read(w.version, w.store)).Write?
    ensures var s := MutateRead(snap, index, m, Read(w.version, w.store)).state;
            Evolves(w, Commit(w, s)) && Core(Commit(w, s)) && SnapOk(Commit(w, s), s)
                && Current(Commit(w, s), snap.creation.value.op)
  {
    var s := MutateRead(snap, index, m, Read(w.version, w.store)).state;
    SlotReplica(w, snap, index, m);
    ReplaceCore(w, s, index, s.creation.value.replicas[index]);
    StoreSnap(Commit(w, s));
  }

  lemma WholeWriteCore(w: World, snap: State, index: nat, m: Mutation)
    requires Core(w) && !m.Slot() && WorkerOk(w, Apply(Persist(snap, index, m, None)))
    requires MutateRead(snap, index, m, Read(w.version, w.store)).Write?
    ensures var s := MutateRead(snap, index, m, Read(w.version, w.store)).state;
            Evolves(w, Commit(w, s)) && Core(Commit(w, s)) && SnapOk(Commit(w, s), s)
                && Current(Commit(w, s), snap.creation.value.op)
  {
    var s := MutateRead(snap, index, m, Read(w.version, w.store)).state;
    KeepCore(w, s);
    StoreSnap(Commit(w, s));
  }

  lemma AbandonOk(w: World, snap: State, index: nat, m: Mutation, fenced: bool)
    requires Core(w) && WorkerOk(w, Apply(Persist(snap, index, m, None)))
    ensures WorkerOk(w, Abandon(snap, index, m, fenced))
  {
  }

  /** After a transition that committed or was already there, the worker holds the newer state. */
  lemma ContinueOk(w: World, snap: State, s: State, index: nat, m: Mutation)
    requires Core(w) && WorkerOk(w, Apply(Persist(snap, index, m, None))) && SnapOk(w, s)
    requires s.creation.value.op == snap.creation.value.op
    requires m.Attach? ==>
              HasReplica(s, index)
              && s.creation.value.replicas[index].attempt == snap.creation.value.replicas[index].attempt
    ensures WorkerOk(w, Continue(s, index, m))
  {
  }

  /** The compare-and-swap of mutateCreationState, when nothing was written in between. */
  lemma PersistWriteOk(w: World, snap: State, index: nat, m: Mutation, s: State)
    requires Core(w) && WorkerOk(w, Apply(Persist(snap, index, m, None))) && (m.Slot() ==> HasReplica(snap, index))
    requires MutateRead(snap, index, m, Read(w.version, w.store)) == Write(s)
    ensures Guarantee(w, Turn(Commit(w, s), Continue(s, index, m)))
    ensures Guarantee(w, Turn(Commit(w, s), Abandon(snap, index, m, false)))
  {
    if m.Slot() { SlotWriteCore(w, snap, index, m); } else { WholeWriteCore(w, snap, index, m); }
    var g := Commit(w, s);
    WorkerStable(w, g, Apply(Persist(snap, index, m, None)));
    AbandonOk(g, snap, index, m, false);
    ContinueOk(g, snap, s, index, m);
  }

  lemma PersistKeepOk(w: World, snap: State, index: nat, m: Mutation, r: Read)
    requires Core(w) && WorkerOk(w, Apply(Persist(snap, index, m, Some(r)))) && (m.Slot() ==> HasReplica(snap, index))
    requires MutateRead(snap, index, m, r).Keep?
    ensures WorkerOk(w, Continue(r.state.value, index, m))
  {
    ContinueOk(w, snap, r.state.value, index, m);
  }

  lemma PersistReadOk(w: World, snap: State, index: nat, m: Mutation, reply: Reply)
    requires Core(w) && WorkerOk(w, Apply(Persist(snap, index, m, None))) && (m.Slot() ==> HasReplica(snap, index))
    ensures Guarantee(w, StepPersist(w, snap, index, m, None, reply))
  {
    if reply.Ok? {
      FreshRead(w);
      Stay(w, Apply(Persist(snap, index, m, Some(Read(w.version, w.store)))));
    } else {
      AbandonOk(w, snap, index, m, false);
      Stay(w, Abandon(snap, index, m, false));
    }
  }

  lemma Forget(w: World, snap: State, index: nat, m: Mutation, r: Read)
    requires WorkerOk(w, Apply(Persist(snap, index, m, Some(r))))
    ensures WorkerOk(w, Apply(Persist(snap, index, m, None)))
  {
  }

  lemma PersistConflictOk(w: World, snap: State, index: nat, m: Mutation, r: Read, reply: Reply)
    requires Core(w) && WorkerOk(w, Apply(Persist(snap, index, m, Some(r)))) && (m.Slot() ==> HasReplica(snap, index))
    requires MutateRead(snap, index, m, r).Write? && (r.version != w.version || !(reply.Ok? || reply.Unacked?))
    ensures Guarantee(w, StepPersist(w, snap, index, m, Some(r), reply))
  {
    Forget(w, snap, index, m, r);
    AbandonOk(w, snap, index, m, false);
    Stay(w, Apply(Persist(snap, index, m, None)));
    Stay(w, Abandon(snap, index, m, false));
  }

  lemma PersistFencedOk(w: World, snap: State, index: nat, m: Mutation, r: Read, reply: Reply)
    requires Core(w) && WorkerOk(w, Apply(Persist(snap, index, m, None))) && (m.Slot() ==> HasReplica(snap, index))
    requires MutateRead(snap, index, m, r).Fence?
    ensures Guarantee(w, StepPersist(w, snap, index, m, Some(r), reply))
  {
    AbandonOk(w, snap, index, m, true);
    Stay(w, Abandon(snap, index, m, true));
  }

  lemma PersistSettledOk(w: World, snap: State, index: nat, m: Mutation, r: Read, reply: Reply)
    requires Core(w) && WorkerOk(w, Apply(Persist(snap, index, m, Some(r)))) && (m.Slot() ==> HasReplica(snap, index))
    requires !MutateRead(snap, index, m, r).Write?
    ensures Guarantee(w, StepPersist(w, snap, index, m, Some(r), reply))
  {
    if MutateRead(snap, index, m, r).Fence? {
      Forget(w, snap, index, m, r);
      PersistFencedOk(w, snap, index, m, r, reply);
    } else {
      PersistKeepOk(w, snap, index, m, r);
      Stay(w, Continue(r.state.value, index, m));
    }
  }

  lemma PersistCommitOk(w: World, snap: State, index: nat, m: Mutation, r: Read, reply: Reply)
    requires Core(w) && WorkerOk(w, Apply(Persist(snap, index, m, Some(r)))) && (m.Slot() ==> HasReplica(snap, index))
    requires MutateRead(snap, index, m, r).Write?
    ensures Guarantee(w, StepPersist(w, snap, index, m, Some(r), reply))
  {
    if r.version == w.version && (reply.Ok? || reply.Unacked?) {
      Forget(w, snap, index, m, r);
      PersistWriteOk(w, snap, index, m, MutateRead(snap, index, m, r).state);
    } else {
      PersistConflictOk(w, snap, index, m, r, reply);
    }
  }

  lemma PersistOk(w: World, snap: State, index: nat, m: Mutation, read: Option<Read>, reply: Reply)
    requires Core(w) && WorkerOk(w, Apply(Persist(snap, index, m, read)))
    ensures Guarantee(w, ActReconcile(w, Persist(snap, index, m, read), reply))
  {
    if m.Slot() && !HasReplica(snap, index) {
      Stay(w, Stopped);
    } else if read.None? {
      PersistReadOk(w, snap, index, m, reply);
    } else if MutateRead(snap, index, m, read.value).Write? {
      PersistCommitOk(w, snap, index, m, read.value, reply);
    } else {
      PersistSettledOk(w, snap, index, m, read.value, reply);
    }
  }

  // ----- cleanup ---------------------------------------------------------------------------

  lemma CleanWriteCore(w: World, op: nat, index: nat, attempt: nat, server: nat)
    requires Core(w) && Mine(w, op, index, attempt, server) && w.store.Some?
    requires ClaimCleanup(w.store.value, op, index, attempt, server).Write?
    ensures var s := ClaimCleanup(w.store.value, op, index, attempt, server).state;
              Evolves(w, Commit(w, s)) && Core(Commit(w, s))
    ensures PriorOk(w.store.value.creation.value.replicas[index].phase, attempt)
  {
    var s := ClaimCleanup(w.store.value, op, index, attempt, server).state;
    var c := w.store.value.creation.value;
    assert CreationOk(w, c);
    assert ReplicaOk(w, op, index, c.replicas[index]);
    var r := s.creation.value.replicas[index];
    assert ReplicaOk(w, op, index, r);
    ReplaceCore(w, s, index, r);
  }

  lemma CleanClaimedOk(w: World, op: nat, index: nat, attempt: nat, server: nat)
    requires Core(w) && Mine(w, op, index, attempt, server) && w.store.Some?
    requires ClaimCleanup(w.store.value, op, index, attempt, server).Write?
    ensures var g := Commit(w, ClaimCleanup(w.store.value, op, index, attempt, server).state);
            && Guarantee(w,
                Turn(g, Begin(CleanDelete(op, index, attempt, server,
                w.store.value.creation.value.replicas[index].phase))))
            && Guarantee(w, Turn(g, Stopped))
  {
    CleanWriteCore(w, op, index, attempt, server);
    var g := Commit(w, ClaimCleanup(w.store.value, op, index, attempt, server).state);
    Take(w, g, Begin(CleanDelete(op, index, attempt, server, w.store.value.creation.value.replicas[index].phase)));
    Halt(w, g);
  }

  lemma CleanClaimFree(w: World, op: nat, index: nat, attempt: nat, server: nat)
    requires Core(w) && Mine(w, op, index, attempt, server)
    ensures WorkerOk(w, Begin(CleanClaim(op, index, attempt, server, None)))
    ensures WorkerOk(w, Begin(CleanClaim(op, index, attempt, server, Some(Read(w.version, w.store)))))
  {
    FreshRead(w);
  }

  lemma CleanClaimOk(w: World, op: nat, index: nat, attempt: nat, server: nat, read: Option<Read>, reply: Reply)
    requires Core(w) && WorkerOk(w, Begin(CleanClaim(op, index, attempt, server, read)))
    ensures Guarantee(w, ActBeginOrClean(w, CleanClaim(op, index, attempt, server, read), reply))
  {
    if read.Some? && read.value.state.Some? && read.value.version == w.version && (reply.Ok? || reply.Unacked?)
       && ClaimCleanup(read.value.state.value, op, index, attempt, server).Write? {
      CleanClaimedOk(w, op, index, attempt, server);
    } else {
      CleanClaimFree(w, op, index, attempt, server);
      Stay(w, StepCleanClaim(w, op, index, attempt, server, read, reply).worker);
    }
  }

  lemma CleanFinishFree(w: World, op: nat, index: nat, attempt: nat, server: nat, prior: ReplicaPhase, deleted: bool)
    requires server in w.servers && PriorOk(prior, attempt) && (deleted ==> server !in w.live)
    ensures WorkerOk(w, Begin(CleanFinish(op, index, attempt, server, prior, deleted, None)))
  {
  }

  lemma CleanFinishRead(w: World, op: nat, index: nat, attempt: nat, server: nat, prior: ReplicaPhase, deleted: bool)
    requires Core(w) && WorkerOk(w, Begin(CleanFinish(op, index, attempt, server, prior, deleted, None)))
    ensures WorkerOk(w, Begin(CleanFinish(op, index, attempt, server, prior, deleted, Some(Read(w.version, w.store)))))
  {
    FreshRead(w);
  }

  lemma CleanDeleteOk(w: World, op: nat, index: nat, attempt: nat, server: nat, prior: ReplicaPhase, reply: Reply)
    requires Core(w) && WorkerOk(w, Begin(CleanDelete(op, index, attempt, server, prior)))
    ensures Guarantee(w, ActBeginOrClean(w, CleanDelete(op, index, attempt, server, prior), reply))
  {
    if reply.Ok? || reply.Unacked? {
      EraseCore(w, server);
      CleanFinishFree(Erase(w, server), op, index, attempt, server, prior, reply.Ok?);
      Take(w, Erase(w, server), Begin(CleanFinish(op, index, attempt, server, prior, reply.Ok?, None)));
    } else {
      CleanFinishFree(w, op, index, attempt, server, prior, false);
      Stay(w, Begin(CleanFinish(op, index, attempt, server, prior, false, None)));
    }
  }

  lemma CleanFinishCore(w: World, op: nat, index: nat, attempt: nat, server: nat, prior: ReplicaPhase, deleted: bool)
    requires Core(w) && server in w.servers && PriorOk(prior, attempt) && (deleted ==> server !in w.live)
              && w.store.Some?
    requires FinishCleanup(w.store.value, op, index, attempt, server, prior, deleted).Write?
    ensures var s := FinishCleanup(w.store.value, op, index, attempt, server, prior, deleted).state;
            Evolves(w, Commit(w, s)) && Core(Commit(w, s))
  {
    var s := FinishCleanup(w.store.value, op, index, attempt, server, prior, deleted).state;
    var c := w.store.value.creation.value;
    assert CreationOk(w, c);
    assert ReplicaOk(w, op, index, c.replicas[index]);
    var r := s.creation.value.replicas[index];
    assert ReplicaOk(w, op, index, r);
    ReplaceCore(w, s, index, r);
  }

  /** Which deletes failed is for the record only. */
  lemma SparedCore(w: World, g: World, h: World)
    requires Evolves(w, g) && Core(g) && h == g.(spared := h.spared)
    ensures Evolves(w, h) && Core(h)
  {
    if h.store.Some? && h.store.value.creation.Some? {
      var c := h.store.value.creation.value;
      assert CreationOk(g, c);
      forall i | 0 <= i < |c.replicas| ensures ReplicaOk(h, c.op, i, c.replicas[i]) {
        assert ReplicaOk(g, c.op, i, c.replicas[i]);
        assert forall t :: At(h, t, c.op, i) && Outstanding(h, t) ==> At(g, t, c.op, i) && Outstanding(g, t);
      }
      assert forall t :: t in h.creates ==> (Outstanding(h, t) <==> Outstanding(g, t));
    }
  }

  lemma CleanFinishedOk(w: World, op: nat, index: nat, attempt: nat, server: nat, prior: ReplicaPhase, deleted: bool,
                        read: Read, reply: Reply)
    requires Core(w) && WorkerOk(w, Begin(CleanFinish(op, index, attempt, server, prior, deleted, Some(read))))
    requires read.state.Some? && read.version == w.version && (reply.Ok? || reply.Unacked?)
    requires FinishCleanup(read.state.value, op, index, attempt, server, prior, deleted).Write?
    ensures Guarantee(w, StepCleanFinish(w, op, index, attempt, server, prior, deleted, Some(read), reply))
  {
    CleanFinishCore(w, op, index, attempt, server, prior, deleted);
    var s := FinishCleanup(w.store.value, op, index, attempt, server, prior, deleted).state;
    SparedCore(w, Commit(w, s), Cleaned(w, s, attempt, deleted));
    Halt(w, Cleaned(w, s, attempt, deleted));
  }

  lemma CleanUnfinishedOk(w: World, op: nat, index: nat, attempt: nat, server: nat, prior: ReplicaPhase, deleted: bool,
                          read: Option<Read>, reply: Reply)
    requires Core(w) && WorkerOk(w, Begin(CleanFinish(op, index, attempt, server, prior, deleted, None)))
    requires !(read.Some? && read.value.state.Some? && read.value.version == w.version && (reply.Ok? || reply.Unacked?)
               && FinishCleanup(read.value.state.value, op, index, attempt, server, prior, deleted).Write?)
    ensures Guarantee(w, StepCleanFinish(w, op, index, attempt, server, prior, deleted, read, reply))
  {
    CleanFinishRead(w, op, index, attempt, server, prior, deleted);
    Stay(w, StepCleanFinish(w, op, index, attempt, server, prior, deleted, read, reply).worker);
  }

  lemma CleanFinishOk(w: World, op: nat, index: nat, attempt: nat, server: nat, prior: ReplicaPhase, deleted: bool,
                      read: Option<Read>, reply: Reply)
    requires Core(w) && WorkerOk(w, Begin(CleanFinish(op, index, attempt, server, prior, deleted, read)))
    ensures Guarantee(w, ActBeginOrClean(w, CleanFinish(op, index, attempt, server, prior, deleted, read), reply))
  {
    if read.Some? && read.value.state.Some? && read.value.version == w.version && (reply.Ok? || reply.Unacked?)
       && FinishCleanup(read.value.state.value, op, index, attempt, server, prior, deleted).Write? {
      CleanFinishedOk(w, op, index, attempt, server, prior, deleted, read.value, reply);
    } else {
      CleanUnfinishedOk(w, op, index, attempt, server, prior, deleted, read, reply);
    }
  }
}
