/**
 The provider create is called at most once for each operation, replica and
 network, under any number of racing or stopped workers.
 */
module CreateBound {
  import opened Base
  import opened LifecycleState
  import opened LifecycleMachine
  import opened LifecycleSafety
  import opened LifecycleSteps
  import opened LifecycleTeardown
  import opened Lifecycle
  import opened LifecycleCommits

  // ----- the invariant ---------------------------------------------------------------------

  predicate SameSlot(a: Create, b: Create) {
    a.op == b.op && a.replica == b.replica && a.network == b.network
  }

  /** No network of a replica is ever granted twice. */
  ghost predicate GrantedOnce(w: World) {
    forall t, u :: t in w.creates && u in w.creates && SameSlot(w.creates[t], w.creates[u]) ==> t == u
  }

  /** Every grant of the current operation lies behind its replica, or is the replica's own. */
  ghost predicate Behind(w: World) {
    w.store.Some? && w.store.value.creation.Some? ==>
      var c := w.store.value.creation.value;
      forall t :: t in w.creates && w.creates[t].op == c.op && w.creates[t].replica < |c.replicas| ==>
        var r := c.replicas[w.creates[t].replica];
        w.creates[t].network < r.network || (w.creates[t].network == r.network && t == r.attempt)
  }

  predicate Called(c: Create, call: Call) {
    c.status != Granted && call == Call(c.op, c.replica, c.network)
  }

  /** Every logged call was made under a grant for it, within the declared networks. */
  ghost predicate Logged(w: World) {
    && NoDuplicates(w.calls)
    && (forall call :: call in w.calls ==> exists t :: t in w.creates && Called(w.creates[t], call))
    && (forall t :: t in w.creates && w.creates[t].status != Granted && w.creates[t].op in w.specs ==>
          && w.creates[t].network < w.specs[w.creates[t].op].networks
          && w.creates[t].replica < w.specs[w.creates[t].op].replicas)
  }

  ghost predicate Bounded(w: World) {
    GrantedOnce(w) && Behind(w) && Logged(w)
  }

  // ----- every step keeps it -----------------------------------------------------------------

  lemma WritesBounded(w: World, g: World)
    requires Bounded(w) && Core(w) && Core(g) && Evolves(w, g) && Writes(w, g) && g.creates == w.creates
              && g.calls == w.calls
    ensures Bounded(g)
  {
    assert forall t :: t in w.creates ==> w.creates[t].op < w.nextId && w.creates[t].op in w.specs;
    if g.store != w.store && w.store.Some? && w.store.value.creation.Some?
        && g.store.value.creation.value.op < w.nextId {
      BehindKept(w, g, w.store.value.creation.value, g.store.value.creation.value);
    }
  }

  lemma BehindKept(w: World, g: World, c: Creation, c': Creation)
    requires Bounded(w) && Slips(c, c') && g.creates == w.creates
    requires w.store.Some? && w.store.value.creation == Some(c) && g.store.Some? && g.store.value.creation == Some(c')
    ensures Behind(g)
  {
    forall t | t in g.creates && g.creates[t].op == c'.op && g.creates[t].replica < |c'.replicas|
      ensures var r := c'.replicas[g.creates[t].replica];
              g.creates[t].network < r.network || (g.creates[t].network == r.network && t == r.attempt)
    {
      assert Slip(c.replicas[w.creates[t].replica], c'.replicas[w.creates[t].replica]);
    }
  }

  function Granting(w: World, op: nat, index: nat): World
    requires w.store.Some? && Acquire(w.store.value, op, index, w.nextId).Write?
    requires var s := Acquire(w.store.value, op, index, w.nextId).state;
              s.creation.Some? && index < |s.creation.value.replicas|
  {
    var s := Acquire(w.store.value, op, index, w.nextId).state;
    WithGrant(w, s, Create(op, index, s.creation.value.replicas[index].network, Granted))
  }

  /** A pending replica has outrun every earlier grant, so its network is new. */
  lemma GrantIsNew(w: World, op: nat, index: nat)
    requires GrantedOnce(w) && Behind(w) && Core(w) && w.store.Some?
              && Acquire(w.store.value, op, index, w.nextId).Write?
    ensures GrantedOnce(Granting(w, op, index)) && Behind(Granting(w, op, index))
  {
    AcquireAscends(w.store.value, op, index, w.nextId);
    var c := w.store.value.creation.value;
    assert CreationOk(w, c);
    assert ReplicaOk(w, op, index, c.replicas[index]);
    assert w.nextId !in w.creates;
  }

  lemma GrantLogged(w: World, op: nat, index: nat)
    requires Logged(w) && Core(w) && w.store.Some? && Acquire(w.store.value, op, index, w.nextId).Write?
    ensures Logged(Granting(w, op, index))
  {
    var g := Granting(w, op, index);
    assert w.nextId !in w.creates;
    forall call | call in g.calls ensures exists t :: t in g.creates && Called(g.creates[t], call) {
      var t :| t in w.creates && Called(w.creates[t], call);
      assert t in g.creates && Called(g.creates[t], call);
    }
  }

  lemma GrantBounded(w: World, op: nat, index: nat)
    requires Bounded(w) && Core(w) && w.store.Some? && Acquire(w.store.value, op, index, w.nextId).Write?
    ensures Bounded(Granting(w, op, index))
  {
    GrantIsNew(w, op, index);
    GrantLogged(w, op, index);
  }

  lemma GrabBounded(w: World, x: Worker, reply: Reply)
    requires Bounded(w) && Core(w) && WorkerOk(w, x) && Grabs(x)
    ensures Bounded(Act(w, x, reply).world)
  {
    var r := x.reconciler;
    if reply != Crash && HasReplica(r.snap, r.index) && r.claim.state.Some? && r.claim.version == w.version
        && (reply.Ok? || reply.Unacked?) {
      if Acquire(r.claim.state.value, r.snap.creation.value.op, r.index, w.nextId).Write? {
        GrantBounded(w, r.snap.creation.value.op, r.index);
      }
    }
  }

  /** A change of status that no call record depends on. */
  lemma StatusBounded(w: World, g: World, a: nat, status: CreateStatus)
    requires Bounded(w) && g.store == w.store && g.specs == w.specs && g.calls == w.calls
    requires a in w.creates && w.creates[a].status != Granted
    requires status != Granted && g.creates == w.creates[a := w.creates[a].(status := status)]
    ensures Bounded(g)
  {
    forall call | call in g.calls ensures exists t :: t in g.creates && Called(g.creates[t], call) {
      var t :| t in w.creates && Called(w.creates[t], call);
      assert t in g.creates && Called(g.creates[t], call);
    }
  }

  /** The provider call: its grant was never used, so neither was its slot. */
  lemma LaunchBounded(w: World, snap: State, index: nat)
    requires Bounded(w) && SnapOk(w, snap) && HasReplica(snap, index)
    requires var r := snap.creation.value.replicas[index];
             At(w, r.attempt, snap.creation.value.op, index) && w.creates[r.attempt].status == Granted
                 && w.creates[r.attempt].network == r.network
    ensures Bounded(StepLaunch(w, snap, index).world)
  {
    var r := snap.creation.value.replicas[index];
    var g := StepLaunch(w, snap, index).world;
    if g != w {
      var call := Call(snap.creation.value.op, index, r.network);
      NeverCalled(w, r.attempt, call);
      assert Called(g.creates[r.attempt], call);
      forall k | k in g.calls ensures exists t :: t in g.creates && Called(g.creates[t], k) {
        if k in w.calls {
          var t :| t in w.creates && Called(w.creates[t], k);
          assert t in g.creates && Called(g.creates[t], k);
        }
      }
    }
  }

  lemma NeverCalled(w: World, a: nat, call: Call)
    requires Bounded(w) && a in w.creates && w.creates[a].status == Granted
    requires call == Call(w.creates[a].op, w.creates[a].replica, w.creates[a].network)
    ensures call !in w.calls
  {
    if call in w.calls {
      var t :| t in w.creates && Called(w.creates[t], call);
      assert SameSlot(w.creates[t], w.creates[a]);
    }
  }

  lemma ActBounded(w: World, x: Worker, reply: Reply)
    requires Bounded(w) && Core(w) && WorkerOk(w, x) && Entitled(w, x)
    ensures Bounded(Act(w, x, reply).world)
  {
    if Grabs(x) {
      GrabBounded(w, x, reply);
    } else if Poised(x) {
      LaunchBounded(w, x.reconciler.snap, x.reconciler.index);
    } else if reply != Crash {
      ActOk(w, x, reply);
      ActWrites(w, x, reply);
      ActFrame(w, x, reply);
      WritesBounded(w, Act(w, x, reply).world);
    }
  }

  lemma ActFrame(w: World, x: Worker, reply: Reply)
    requires !Grabs(x) && !Poised(x)
    ensures LeavesCreates(w, Act(w, x, reply)) || reply == Crash
  {
    match x
    case Stopped =>
    case Apply(r) => ReconcileFrame(w, r, reply);
    case Begin(b) => BeginFrame(w, b, reply);
    case Destroy(d) => DestroyFrame(w, d, reply);
    case Expose(e) => ExposeFrame(w, e, reply);
  }

  lemma SameBounded(w: World, g: World)
    requires Bounded(w) && g.store == w.store && g.specs == w.specs && g.calls == w.calls && g.creates == w.creates
    ensures Bounded(g)
  {
  }

  lemma TombstoneBounded(w: World)
    requires Bounded(w) && (w.store.None? ==> w.creates == map[])
    ensures Bounded(Happen(w, Tombstone))
  {
  }

  lemma DeliverBounded(w: World, t: nat)
    requires Bounded(w)
    ensures Bounded(Deliver(w, t))
  {
    if t in w.creates && w.creates[t].status == InFlight { StatusBounded(w, Deliver(w, t), t, Born(w.nextId)); }
  }

  lemma VanishBounded(w: World, t: nat)
    requires Bounded(w)
    ensures Bounded(Happen(w, Vanish(t)))
  {
    if t in w.creates && w.creates[t].status == InFlight { StatusBounded(w, Happen(w, Vanish(t)), t, Lost); }
  }

  lemma EstablishBounded(w: World, eop: nat)
    requires Bounded(w)
    ensures Bounded(EstablishPolicy(w, eop))
  {
    SameBounded(w, EstablishPolicy(w, eop));
  }

  lemma DoBounded(y: System, who: nat, reply: Reply)
    requires Bounded(y.world) && who in y.workers
    requires Core(y.world) && WorkerOk(y.world, y.workers[who]) && Entitled(y.world, y.workers[who])
    ensures Bounded(Step(y, Do(who, reply)).world)
  {
    DoWorld(y, who, reply);
    ActBounded(y.world, y.workers[who], reply);
  }

  lemma StepBounded(y: System, e: Event)
    requires Inv(y) && Bounded(y.world)
    ensures Bounded(Step(y, e).world)
  {
    if e.Do? && e.who in y.workers {
      WorkerInv(y, e.who);
      DoBounded(y, e.who, e.reply);
    } else if e.Tombstone? {
      TombstoneBounded(y.world);
    } else if e.Materialise? {
      DeliverBounded(y.world, e.attempt);
    } else if e.Vanish? {
      VanishBounded(y.world, e.attempt);
    } else if e.Establish? {
      EstablishBounded(y.world, e.eop);
    } else {
      assert Step(y, e).world == y.world;
    }
  }

  lemma {:induction false} RunBounded(events: seq<Event>)
    ensures Bounded(Run(events).world)
  {
    if events != [] {
      RunBounded(events[..|events| - 1]);
      RunInv(events[..|events| - 1]);
      StepBounded(Run(events[..|events| - 1]), events[|events| - 1]);
    }
  }

  // ----- the theorems -------------------------------------------------------------------------

  /** In every run, no (operation, replica, network) reaches the provider twice. */
  lemma CreatedOncePerNetwork(events: seq<Event>)
    ensures NoDuplicates(Run(events).world.calls)
    ensures forall call :: call in Run(events).world.calls ==>
              && call.op in Run(events).world.specs
              && call.replica < Run(events).world.specs[call.op].replicas
              && call.network < Run(events).world.specs[call.op].networks
  {
    RunBounded(events);
    RunInv(events);
    var w := Run(events).world;
    forall call | call in w.calls
      ensures call.op in w.specs && call.replica < w.specs[call.op].replicas && call.network < w.specs[call.op].networks
    {
      var t :| t in w.creates && Called(w.creates[t], call);
    }
  }

  function CallsOf(calls: seq<Call>, op: nat): seq<Call> {
    if calls == [] then []
    else if calls[|calls| - 1].op == op then CallsOf(calls[..|calls| - 1], op) + [calls[|calls| - 1]]
    else CallsOf(calls[..|calls| - 1], op)
  }

  lemma {:induction false} CallsOfDistinct(calls: seq<Call>, op: nat)
    requires NoDuplicates(calls)
    ensures NoDuplicates(CallsOf(calls, op))
    ensures forall call :: call in CallsOf(calls, op) <==> call in calls && call.op == op
  {
    if calls != [] {
      var front, last := calls[..|calls| - 1], calls[|calls| - 1];
      CallsOfDistinct(front, op);
      assert calls == front + [last];
      assert last !in front;
    }
  }

  /** The calls one operation could make: a grid of replicas by networks. */
  ghost function Grid(op: nat, replicas: nat, networks: nat): (g: set<Call>)
    ensures forall call :: call in g <==> call.op == op && call.replica < replicas && call.network < networks
    ensures |g| == replicas * networks
  {
    if replicas == 0 then {}
    else
      var row := Row(op, replicas - 1, networks);
      Grid(op, replicas - 1, networks) + row
  }

  ghost function Row(op: nat, replica: nat, networks: nat): (g: set<Call>)
    ensures forall call :: call in g <==> call.op == op && call.replica == replica && call.network < networks
    ensures |g| == networks
  {
    if networks == 0 then {} else Row(op, replica, networks - 1) + {Call(op, replica, networks - 1)}
  }

  /** So one operation never makes more provider creates than replicas times networks. */
  lemma CreateCallBound(events: seq<Event>, op: nat)
    requires op in Run(events).world.specs
    ensures var w := Run(events).world;
            |CallsOf(w.calls, op)| <= w.specs[op].replicas * w.specs[op].networks
  {
    var w := Run(events).world;
    CreatedOncePerNetwork(events);
    CallsOfDistinct(w.calls, op);
    DistinctBound(CallsOf(w.calls, op), Grid(op, w.specs[op].replicas, w.specs[op].networks));
  }
}
