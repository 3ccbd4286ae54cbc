/**
 Two runs of one replica on one network that end in states one might think impossible:
 an intent that no Apply can resume and no Destroy can finish, and a proven replica with
 a live server that the resource listing does not show.
 */
module LifecycleRuns {
  import opened Base
  import opened LifecycleState
  import opened LifecycleMachine
  import opened LifecycleSafety
  import opened LifecycleIntent

  // ----- walking ------------------------------------------------------------------------------

  function Walk(y: System, events: seq<Event>): System {
    if events == [] then y else Step(Walk(y, events[..|events| - 1]), events[|events| - 1])
  }

  lemma {:induction false} RunWalk(a: seq<Event>, b: seq<Event>)
    ensures Run(a + b) == Walk(Run(a), b)
  {
    if b == [] {
      assert a + b == a;
    } else {
      RunWalk(a, b[..|b| - 1]);
      assert (a + b)[..|a + b| - 1] == a + b[..|b| - 1];
    }
  }

  lemma {:induction false} WalkWalk(y: System, a: seq<Event>, b: seq<Event>)
    ensures Walk(y, a + b) == Walk(Walk(y, a), b)
  {
    if b == [] {
      assert a + b == a;
    } else {
      WalkWalk(y, a, b[..|b| - 1]);
      assert (a + b)[..|a + b| - 1] == a + b[..|b| - 1];
    }
  }

  lemma WalkOne(y: System, e: Event)
    ensures Walk(y, [e]) == Step(y, e)
  {
    assert [e][..0] == [];
  }

  lemma WalkTwo(y: System, a: Event, b: Event)
    ensures Walk(y, [a, b]) == Step(Step(y, a), b)
  {
    WalkOne(y, a);
    WalkOne(Step(y, a), b);
    WalkWalk(y, [a], [b]);
    assert [a] + [b] == [a, b];
  }

  lemma WalkThree(y: System, a: Event, b: Event, c: Event)
    ensures Walk(y, [a, b, c]) == Step(Step(Step(y, a), b), c)
  {
    WalkTwo(y, a, b);
    WalkOne(Step(Step(y, a), b), c);
    WalkWalk(y, [a, b], [c]);
    assert [a, b] + [c] == [a, b, c];
  }

  lemma WalkFour(y: System, a: Event, b: Event, c: Event, d: Event)
    ensures Walk(y, [a, b, c, d]) == Step(Step(Step(Step(y, a), b), c), d)
  {
    WalkThree(y, a, b, c);
    WalkOne(Step(Step(Step(y, a), b), c), d);
    WalkWalk(y, [a, b, c], [d]);
    assert [a, b, c] + [d] == [a, b, c, d];
  }

  type Workers = map<nat, Worker>

  /** One worker's turn, among whatever others there are. */
  lemma Moves(m: Workers, who: nat, w: World, x: Worker, reply: Reply, w': World, x': Worker)
    requires Act(w, x, reply) == Turn(w', x')
    ensures Step(System(w, m[who := x]), Do(who, reply)) == System(w', m[who := x'])
  {
    assert m[who := x][who := x'] == m[who := x'];
  }

  lemma Itself(m: Workers, who: nat)
    requires who in m
    ensures m[who := m[who]] == m
  {
  }

  /** A transition of the creation state that meets no conflict: a read and a write. */
  lemma PersistLeg(m: Workers, who: nat, w: World, snap: State, index: nat, t: Mutation, s: State)
    requires w.store.Some? && snap.creation.Some? && (t.Slot() ==> HasReplica(snap, index))
    requires MutateRead(snap, index, t, Read(w.version, w.store)) == Write(s)
    ensures Walk(System(w, m[who := Apply(Persist(snap, index, t, None))]), [Do(who, Ok), Do(who, Ok)]) ==
              System(Commit(w, s), m[who := Continue(s, index, t)])
  {
    var x, read := Apply(Persist(snap, index, t, None)), Read(w.version, w.store);
    var x' := Apply(Persist(snap, index, t, Some(read)));
    WalkTwo(System(w, m[who := x]), Do(who, Ok), Do(who, Ok));
    Moves(m, who, w, x, Ok, w, x');
    Moves(m, who, w, x', Ok, Commit(w, s), Continue(s, index, t));
  }

  // ----- the states on the way ------------------------------------------------------------------

  const ONE: Spec := Spec(1, 1)

  function Stored(p: Phase, q: Phase, r: Replica, listed: seq<Listed>): State {
    State(p, Some(Creation(1, 1, [r], q)), None, [], listed)
  }

  function Making(r: Replica, listed: seq<Listed>): State {
    Stored(Creating, Creating, r, listed)
  }

  const FRESH: State := Making(Replica(0, 0, Pending, 0), [])
  const GRANTED: State := Making(Replica(0, 0, Launching, 2), [])
  const ATTACHED: State := Making(Replica(0, 3, Attached, 2), [Listed(3, 0, false)])
  const EXHAUSTED: State := Making(Replica(1, 0, Pending, 0), [])
  const LOST: State := Making(Replica(1, 0, Launching, 4), [])
  const ACTIVE: State := Making(Replica(0, 3, Active, 2), [Listed(3, 0, false)])
  const PROVEN: State := Making(Replica(0, 3, Proven, 2), [Listed(3, 0, false)])

  function Kept(p: Phase): State {
    Stored(p, p, Replica(0, 3, Proven, 2), [Listed(3, 0, false)])
  }

  const CLEANING: State := Stored(Cleanup, Escalated, Replica(0, 3, Cleaning, 2), [Listed(3, 0, false)])
  const UNLISTED: State := Stored(Escalated, Escalated, Replica(0, 3, Proven, 2), [])

  // What each transition makes of these states.

  lemma One<T>(a: T, b: T)
    ensures [a][0 := b] == [b]
  {
  }

  lemma Lists()
    ensures UpdateListed([], 3, 0) == [Listed(3, 0, false)]
    ensures UpdateListed([Listed(3, 0, false)], 3, 0) == [Listed(3, 0, false)]
    ensures RemoveListed([Listed(3, 0, false)], 3) == []
  {
    One(Listed(3, 0, false), Listed(3, 0, false));
    assert [Listed(3, 0, false)][1..] == [];
  }

  lemma Transitions()
    ensures Acquire(FRESH, 1, 0, 2) == Write(GRANTED) && Acquire(EXHAUSTED, 1, 0, 4) == Write(LOST)
    ensures MutateCreation(GRANTED, 1, 0, 2, Attach(3)) == Write(ATTACHED)
    ensures MutateCreation(ATTACHED, 1, 0, 2, Exhaust(3)) == Write(EXHAUSTED)
    ensures MutateCreation(ATTACHED, 1, 0, 2, MarkActive(3)) == Write(ACTIVE)
    ensures MutateCreation(ACTIVE, 1, 0, 2, MarkProven) == Write(PROVEN)
  {
    Lists();
    One(Replica(0, 0, Pending, 0), Replica(0, 0, Launching, 2));
    One(Replica(1, 0, Pending, 0), Replica(1, 0, Launching, 4));
    One(Replica(0, 0, Launching, 2), Replica(0, 3, Attached, 2));
    One(Replica(0, 3, Attached, 2), Replica(1, 0, Pending, 0));
    One(Replica(0, 3, Attached, 2), Replica(0, 3, Active, 2));
    One(Replica(0, 3, Active, 2), Replica(0, 3, Proven, 2));
  }

  lemma ExhaustIs()
    ensures MutateCreation(ATTACHED, 1, 0, 2, Exhaust(3)) == Write(EXHAUSTED)
  {
    Transitions();
  }

  lemma ProveIs()
    ensures MutateCreation(ACTIVE, 1, 0, 2, MarkProven) == Write(PROVEN)
  {
    Transitions();
  }

  lemma Endings()
    ensures MutateCreation(PROVEN, 1, 1, 0, FinishCreation) == Write(Kept(Ready))
    ensures TakeDestroyFence(Kept(Ready)) == Kept(Destroying)
    ensures MutateDestroy(Kept(Destroying), 1, 0, EscalateDestroy) == Write(Kept(Escalated))
    ensures MutateCreation(Kept(Escalated), 1, 0, 2, MarkActive(3)) == Fence
    ensures ClaimCleanup(Kept(Escalated), 1, 0, 2, 3) == Write(CLEANING)
    ensures FinishCleanup(CLEANING, 1, 0, 2, 3, Proven, false) == Write(UNLISTED)
  {
    Lists();
    One(Replica(0, 3, Proven, 2), Replica(0, 3, Cleaning, 2));
    One(Replica(0, 3, Cleaning, 2), Replica(0, 3, Proven, 2));
  }

  function Before(version: nat, s: State): World {
    World(version, Some(s), map[], map[], {}, 2, map[1 := ONE], [], map[], [], {}, Endpoints(map[], map[], {}))
  }

  /** After the first attempt bore server 3. */
  function Born3(version: nat, s: State, live: set<nat>): World {
    World(version, Some(s), map[2 := Create(1, 0, 0, Born(3))], map[3 := 2], live, 4, map[1 := ONE], [Call(1, 0, 0)],
        map[], [], {}, Endpoints(map[], map[], {}))
  }

  // ----- one Apply up to its server -------------------------------------------------------------------

  function Opened(): System {
    System(Before(1, FRESH), map[1 := Apply(Scan(FRESH, 0))])
  }

  lemma OpenLeg()
    ensures Run([SpawnApply(1, ONE), Do(1, Ok), Do(1, Ok)]) == Opened()
  {
    var events := [SpawnApply(1, ONE), Do(1, Ok), Do(1, Ok)];
    RunWalk([], events);
    assert [] + events == events;
    WalkThree(Start(), SpawnApply(1, ONE), Do(1, Ok), Do(1, Ok));
    assert NewIntent(1, 1, 1) == FRESH by { assert FreshReplicas(1) == [Replica(0, 0, Pending, 0)]; }
    var y := Step(Start(), SpawnApply(1, ONE));
    assert y.workers == map[1 := Begin(ApplyRead(ONE))];
    var z := Step(y, Do(1, Ok));
    assert z == System(Start().world, map[1 := Begin(ApplyIntent(ONE, 0))]);
  }

  function Called2(): World {
    World(2, Some(GRANTED), map[2 := Create(1, 0, 0, Granted)], map[], {}, 3, map[1 := ONE], [], map[], [], {},
        Endpoints(map[], map[], {}))
  }

  /** The worker acquires the first attempt. */
  lemma AcquireLeg(m: Workers)
    ensures Walk(System(Before(1, FRESH), m[1 := Apply(Scan(FRESH, 0))]),
              [Do(1, Ok), Do(1, Absent), Do(1, Ok), Do(1, Ok)]) ==
              System(Called2(), m[1 := Apply(Launch(GRANTED, 0))])
  {
    var w, claim := Before(1, FRESH), Read(1, Some(FRESH));
    WalkFour(System(w, m[1 := Apply(Scan(FRESH, 0))]), Do(1, Ok), Do(1, Absent), Do(1, Ok), Do(1, Ok));
    Moves(m, 1, w, Apply(Scan(FRESH, 0)), Ok, w, Apply(Lookup(FRESH, 0)));
    Moves(m, 1, w, Apply(Lookup(FRESH, 0)), Absent, w, Apply(AcquireRead(FRESH, 0)));
    Moves(m, 1, w, Apply(AcquireRead(FRESH, 0)), Ok, w, Apply(AcquireWrite(FRESH, 0, claim)));
    AcquireTurn();
    Moves(m, 1, w, Apply(AcquireWrite(FRESH, 0, claim)), Ok, Called2(), Apply(Launch(GRANTED, 0)));
  }

  lemma AcquireTurn()
    ensures Act(Before(1, FRESH), Apply(AcquireWrite(FRESH, 0, Read(1, Some(FRESH)))), Ok) ==
              Turn(Called2(), Apply(Launch(GRANTED, 0)))
  {
    Transitions();
    assert map[][2 := Create(1, 0, 0, Granted)] == map[2 := Create(1, 0, 0, Granted)];
  }

  function Flying(): World {
    Called2().(creates := map[2 := Create(1, 0, 0, InFlight)], calls := [Call(1, 0, 0)])
  }

  lemma LaunchTurn()
    ensures Act(Called2(), Apply(Launch(GRANTED, 0)), Ok) == Turn(Flying(), Apply(Launched(GRANTED, 0)))
    ensures Deliver(Flying(), 2) == Born3(2, GRANTED, {3})
  {
    assert map[2 := Create(1, 0, 0, Granted)][2 := Create(1, 0, 0, InFlight)] == map[2 := Create(1, 0, 0, InFlight)];
    assert map[2 := Create(1, 0, 0, InFlight)][2 := Create(1, 0, 0, Born(3))] == map[2 := Create(1, 0, 0, Born(3))];
    assert map[][3 := 2] == map[3 := 2] && {} + {3} == {3} && [] + [Call(1, 0, 0)] == [Call(1, 0, 0)];
  }

  /** It calls the provider, which delivers. */
  lemma LaunchLeg(m: Workers)
    ensures Walk(System(Called2(), m[1 := Apply(Launch(GRANTED, 0))]),
              [Do(1, Ok), Materialise(2), Do(1, See(3)), Do(1, See(3))]) ==
              System(Born3(2, GRANTED, {3}), m[1 := Apply(Persist(GRANTED, 0, Attach(3), None))])
  {
    var w := Born3(2, GRANTED, {3});
    WalkFour(System(Called2(), m[1 := Apply(Launch(GRANTED, 0))]), Do(1, Ok), Materialise(2), Do(1, See(3)),
        Do(1, See(3)));
    LaunchTurn();
    Moves(m, 1, Called2(), Apply(Launch(GRANTED, 0)), Ok, Flying(), Apply(Launched(GRANTED, 0)));
    Moves(m, 1, w, Apply(Launched(GRANTED, 0)), See(3), w, Apply(Confirm(GRANTED, 0, 3)));
    Moves(m, 1, w, Apply(Confirm(GRANTED, 0, 3)), See(3), w, Apply(Persist(GRANTED, 0, Attach(3), None)));
  }

  lemma AttachLeg(m: Workers)
    ensures Walk(System(Born3(2, GRANTED, {3}), m[1 := Apply(Persist(GRANTED, 0, Attach(3), None))]),
              [Do(1, Ok), Do(1, Ok)]) ==
              System(Born3(3, ATTACHED, {3}), m[1 := Apply(Wait(ATTACHED, 0, 3))])
  {
    Transitions();
    PersistLeg(m, 1, Born3(2, GRANTED, {3}), GRANTED, 0, Attach(3), ATTACHED);
  }

  const TO_SERVER: seq<Event> :=
    [Do(1, Ok), Do(1, Absent), Do(1, Ok), Do(1, Ok)]
    + ([Do(1, Ok), Materialise(2), Do(1, See(3)), Do(1, See(3))] + [Do(1, Ok), Do(1, Ok)])

  lemma ToServer(m: Workers)
    ensures Walk(System(Before(1, FRESH), m[1 := Apply(Scan(FRESH, 0))]), TO_SERVER) ==
              System(Born3(3, ATTACHED, {3}), m[1 := Apply(Wait(ATTACHED, 0, 3))])
  {
    var a, b, c := [Do(1, Ok), Do(1, Absent), Do(1, Ok), Do(1, Ok)],
                   [Do(1, Ok), Materialise(2), Do(1, See(3)), Do(1, See(3))], [Do(1, Ok), Do(1, Ok)];
    var y := System(Before(1, FRESH), m[1 := Apply(Scan(FRESH, 0))]);
    WalkWalk(y, a, b + c);
    AcquireLeg(m);
    WalkWalk(Walk(y, a), b, c);
    LaunchLeg(m);
    AttachLeg(m);
  }

  // ----- an intent that nobody can finish --------------------------------------------------------------

  /** Meanwhile a second Apply has got as far as wanting an attempt for the same replica. */
  lemma FollowLeg()
    ensures Walk(Opened(), [SpawnApply(2, ONE), Do(2, Ok), Do(2, Ok), Do(2, Absent)]) ==
              System(Before(1, FRESH), map[2 := Apply(AcquireRead(FRESH, 0))][1 := Apply(Scan(FRESH, 0))])
  {
    var w, m := Before(1, FRESH), map[1 := Apply(Scan(FRESH, 0))];
    WalkFour(Opened(), SpawnApply(2, ONE), Do(2, Ok), Do(2, Ok), Do(2, Absent));
    assert Step(Opened(), SpawnApply(2, ONE)) == System(w, m[2 := Begin(ApplyRead(ONE))]);
    assert Resumable(FRESH, 1);
    Moves(m, 2, w, Begin(ApplyRead(ONE)), Ok, w, Apply(Scan(FRESH, 0)));
    Moves(m, 2, w, Apply(Scan(FRESH, 0)), Ok, w, Apply(Lookup(FRESH, 0)));
    Moves(m, 2, w, Apply(Lookup(FRESH, 0)), Absent, w, Apply(AcquireRead(FRESH, 0)));
    assert m[2 := Apply(AcquireRead(FRESH, 0))] == map[2 := Apply(AcquireRead(FRESH, 0))][1 := Apply(Scan(FRESH, 0))];
  }

  lemma DiscardTurn()
    ensures Act(Born3(3, ATTACHED, {3}), Apply(Discard(ATTACHED, 0, 3)), Ok) ==
              Turn(Born3(3, ATTACHED, {}), Apply(Persist(ATTACHED, 0, Exhaust(3), None)))
  {
    assert {3} - {3} == {};
  }

  lemma DiscardLeg(m: Workers)
    ensures Walk(System(Born3(3, ATTACHED, {3}), m[1 := Apply(Wait(ATTACHED, 0, 3))]), [Do(1, NoAddress), Do(1, Ok)]) ==
              System(Born3(3, ATTACHED, {}), m[1 := Apply(Persist(ATTACHED, 0, Exhaust(3), None))])
  {
    var w, g := Born3(3, ATTACHED, {3}), Born3(3, ATTACHED, {});
    WalkTwo(System(w, m[1 := Apply(Wait(ATTACHED, 0, 3))]), Do(1, NoAddress), Do(1, Ok));
    Moves(m, 1, w, Apply(Wait(ATTACHED, 0, 3)), NoAddress, w, Apply(Discard(ATTACHED, 0, 3)));
    DiscardTurn();
    Moves(m, 1, w, Apply(Discard(ATTACHED, 0, 3)), Ok, g, Apply(Persist(ATTACHED, 0, Exhaust(3), None)));
  }

  /** The server finds no address and is given up, and with it the only network. */
  lemma GiveUpLeg(m: Workers)
    ensures Walk(System(Born3(3, ATTACHED, {3}), m[1 := Apply(Wait(ATTACHED, 0, 3))]),
              [Do(1, NoAddress), Do(1, Ok)] + [Do(1, Ok), Do(1, Ok)]) ==
              System(Born3(4, EXHAUSTED, {}), m[1 := Apply(Scan(EXHAUSTED, 0))])
  {
    var y, g := System(Born3(3, ATTACHED, {3}), m[1 := Apply(Wait(ATTACHED, 0, 3))]), Born3(3, ATTACHED, {});
    WalkWalk(y, [Do(1, NoAddress), Do(1, Ok)], [Do(1, Ok), Do(1, Ok)]);
    DiscardLeg(m);
    ExhaustIs();
    PersistLeg(m, 1, g, ATTACHED, 0, Exhaust(3), EXHAUSTED);
  }

  function Stranded(): World {
    Born3(5, LOST, {}).(creates := map[2 := Create(1, 0, 0, Born(3)), 4 := Create(1, 0, 1, Granted)], nextId := 5)
  }

  lemma OverreachTurn()
    ensures Act(Born3(4, EXHAUSTED, {}), Apply(AcquireWrite(FRESH, 0, Read(4, Some(EXHAUSTED)))), Ok) ==
              Turn(Stranded(), Apply(Launch(LOST, 0)))
  {
    Transitions();
    assert Acquire(EXHAUSTED, 1, 0, 4) == Write(LOST);
    assert map[2 := Create(1, 0, 0, Born(3))][4 := Create(1, 0, 1, Granted)] ==
           map[2 := Create(1, 0, 0, Born(3)), 4 := Create(1, 0, 1, Granted)];
  }

  /** The second Apply acquires its attempt without looking at the network index. */
  lemma OverreachLeg(m: Workers)
    ensures Walk(System(Born3(4, EXHAUSTED, {}), m[2 := Apply(AcquireRead(FRESH, 0))]), [Do(2, Ok), Do(2, Ok)]) ==
              System(Stranded(), m[2 := Apply(Launch(LOST, 0))])
  {
    var w, claim := Born3(4, EXHAUSTED, {}), Read(4, Some(EXHAUSTED));
    WalkTwo(System(w, m[2 := Apply(AcquireRead(FRESH, 0))]), Do(2, Ok), Do(2, Ok));
    Moves(m, 2, w, Apply(AcquireRead(FRESH, 0)), Ok, w, Apply(AcquireWrite(FRESH, 0, claim)));
    OverreachTurn();
    Moves(m, 2, w, Apply(AcquireWrite(FRESH, 0, claim)), Ok, Stranded(), Apply(Launch(LOST, 0)));
  }

  const STRANDING: seq<Event> :=
    [SpawnApply(1, ONE), Do(1, Ok), Do(1, Ok)]
    + ([SpawnApply(2, ONE), Do(2, Ok), Do(2, Ok), Do(2, Absent)]
       + (TO_SERVER + (([Do(1, NoAddress), Do(1, Ok)] + [Do(1, Ok), Do(1, Ok)]) + [Do(2, Ok), Do(2, Ok)])))

  /**
   Two Apply workers strand an operation: the stored intent is creating, fails the test
   that every later Apply makes, and by `StuckForever` no run leads from here to `destroyed`.
   */
  lemma TwoAppliesStrand(more: seq<Event>)
    ensures var w := Run(STRANDING).world;
            && IsCreating(w) && w.store.value.phase == Creating && !Resumable(w.store.value, 1)
            && Beyond(w, 4)
    ensures var w := Run(STRANDING + more).world; w.store.Some? && w.store.value.phase != Destroyed
  {
    StrandedRun();
    assert LOST.creation.value.replicas[0] == Replica(1, 0, Launching, 4);
    StuckForever(STRANDING, more, 4);
  }

  lemma StrandedRun()
    ensures Run(STRANDING).world == Stranded()
  {
    var a, b := [SpawnApply(1, ONE), Do(1, Ok), Do(1, Ok)], [SpawnApply(2, ONE), Do(2, Ok), Do(2, Ok), Do(2, Absent)];
    var c, d := [Do(1, NoAddress), Do(1, Ok)] + [Do(1, Ok), Do(1, Ok)], [Do(2, Ok), Do(2, Ok)];
    var m := map[2 := Apply(AcquireRead(FRESH, 0))];
    RunWalk(a, b + (TO_SERVER + (c + d)));
    OpenLeg();
    WalkWalk(Opened(), b, TO_SERVER + (c + d));
    FollowLeg();
    var y := Walk(Opened(), b);
    WalkWalk(y, TO_SERVER, c + d);
    ToServer(m);
    WalkWalk(Walk(y, TO_SERVER), c, d);
    GiveUpLeg(m);
    var n := map[1 := Apply(Scan(EXHAUSTED, 0))];
    assert m[1 := Apply(Scan(EXHAUSTED, 0))] == n[2 := Apply(AcquireRead(FRESH, 0))];
    OverreachLeg(n);
  }

  // ----- a proven replica that is not listed ----------------------------------------------------------------

  const PAUSED: Worker := Apply(Persist(ATTACHED, 0, MarkActive(3), None))

  /** The first Apply pauses before it marks the replica active; a second one takes over. */
  lemma TakeOverLeg()
    ensures Walk(System(Born3(3, ATTACHED, {3}), map[1 := Apply(Wait(ATTACHED, 0, 3))]), A1) ==
              System(Born3(3, ATTACHED, {3}), map[1 := PAUSED][2 := Apply(Lookup(ATTACHED, 0))])
  {
    var w, m := Born3(3, ATTACHED, {3}), map[1 := PAUSED];
    WalkFour(System(w, map[1 := Apply(Wait(ATTACHED, 0, 3))]), Do(1, Ok), SpawnApply(2, ONE), Do(2, Ok), Do(2, Ok));
    assert map[][1 := Apply(Wait(ATTACHED, 0, 3))] == map[1 := Apply(Wait(ATTACHED, 0, 3))] && map[][1 := PAUSED] == m;
    Moves(map[], 1, w, Apply(Wait(ATTACHED, 0, 3)), Ok, w, PAUSED);
    assert Step(System(w, m), SpawnApply(2, ONE)) == System(w, m[2 := Begin(ApplyRead(ONE))]);
    assert Resumable(ATTACHED, 1);
    Moves(m, 2, w, Begin(ApplyRead(ONE)), Ok, w, Apply(Scan(ATTACHED, 0)));
    Moves(m, 2, w, Apply(Scan(ATTACHED, 0)), Ok, w, Apply(Lookup(ATTACHED, 0)));
  }

  lemma ActivateLeg(m: Workers)
    ensures Walk(System(Born3(3, ATTACHED, {3}), m[2 := Apply(Lookup(ATTACHED, 0))]), A2) ==
              System(Born3(4, ACTIVE, {3}), m[2 := Apply(Proof(ACTIVE, 0))])
  {
    var w, y := Born3(3, ATTACHED, {3}), System(Born3(3, ATTACHED, {3}), m[2 := Apply(Lookup(ATTACHED, 0))]);
    WalkWalk(y, [Do(2, See(3)), Do(2, Ok)], [Do(2, Ok), Do(2, Ok)]);
    WalkTwo(y, Do(2, See(3)), Do(2, Ok));
    Moves(m, 2, w, Apply(Lookup(ATTACHED, 0)), See(3), w, Apply(Wait(ATTACHED, 0, 3)));
    Moves(m, 2, w, Apply(Wait(ATTACHED, 0, 3)), Ok, w, PAUSED);
    Transitions();
    PersistLeg(m, 2, w, ATTACHED, 0, MarkActive(3), ACTIVE);
  }

  lemma ProveLeg(m: Workers)
    ensures Walk(System(Born3(4, ACTIVE, {3}), m[2 := Apply(Proof(ACTIVE, 0))]), A3) ==
              System(Born3(5, PROVEN, {3}), m[2 := Apply(Scan(PROVEN, 1))])
  {
    var w, y := Born3(4, ACTIVE, {3}), System(Born3(4, ACTIVE, {3}), m[2 := Apply(Proof(ACTIVE, 0))]);
    WalkWalk(y, [Do(2, Ok)], [Do(2, Ok), Do(2, Ok)]);
    WalkOne(y, Do(2, Ok));
    Moves(m, 2, w, Apply(Proof(ACTIVE, 0)), Ok, w, Apply(Persist(ACTIVE, 0, MarkProven, None)));
    ProveIs();
    PersistLeg(m, 2, w, ACTIVE, 0, MarkProven, PROVEN);
  }

  lemma FinishLeg(m: Workers)
    ensures Walk(System(Born3(5, PROVEN, {3}), m[2 := Apply(Scan(PROVEN, 1))]), A3) ==
              System(Born3(6, Kept(Ready), {3}), m[2 := Stopped])
  {
    var w, y := Born3(5, PROVEN, {3}), System(Born3(5, PROVEN, {3}), m[2 := Apply(Scan(PROVEN, 1))]);
    WalkWalk(y, [Do(2, Ok)], [Do(2, Ok), Do(2, Ok)]);
    WalkOne(y, Do(2, Ok));
    Moves(m, 2, w, Apply(Scan(PROVEN, 1)), Ok, w, Apply(Persist(PROVEN, 1, FinishCreation, None)));
    Endings();
    PersistLeg(m, 2, w, PROVEN, 1, FinishCreation, Kept(Ready));
  }

  const JOB: Job := Job(Kept(Destroying), 1, 0, {})

  lemma FenceTurn()
    ensures var w := Born3(6, Kept(Ready), {3});
            Act(w, Destroy(DestroyFence(Read(6, w.store))), Ok) ==
                Turn(Born3(7, Kept(Destroying), {3}), Destroy(Prepare(JOB)))
  {
    Endings();
  }

  lemma SurrenderTurn()
    ensures Act(Born3(7, Kept(Destroying), {3}),
              Destroy(TearDown(JOB, 0, EscalateDestroy, Some(Read(7, Some(Kept(Destroying)))))), Ok) ==
              Turn(Born3(8, Kept(Escalated), {3}), Stopped)
  {
    Endings();
  }

  lemma FencedTurn()
    ensures Act(Born3(8, Kept(Escalated), {3}),
              Apply(Persist(ATTACHED, 0, MarkActive(3), Some(Read(8, Some(Kept(Escalated)))))), Ok) ==
              Turn(Born3(8, Kept(Escalated), {3}), Begin(CleanClaim(1, 0, 2, 3, None)))
  {
    Endings();
  }

  lemma ClaimTurn()
    ensures Act(Born3(8, Kept(Escalated), {3}), Begin(CleanClaim(1, 0, 2, 3, Some(Read(8, Some(Kept(Escalated)))))),
              Ok) ==
              Turn(Born3(9, CLEANING, {3}), Begin(CleanDelete(1, 0, 2, 3, Proven)))
  {
    Endings();
  }

  lemma FailTurn()
    ensures Act(Born3(9, CLEANING, {3}), Begin(CleanFinish(1, 0, 2, 3, Proven, false, Some(Read(9, Some(CLEANING))))),
              Ok) ==
              Turn(Born3(10, UNLISTED, {3}).(spared := {2}), Stopped)
  {
    Endings();
    assert {} + {2} == {2};
  }

  /** A Destroy takes its fence, meets an error and escalates. */
  lemma FenceLeg(m: Workers)
    requires 3 !in m
    ensures Walk(System(Born3(6, Kept(Ready), {3}), m), A4) ==
              System(Born3(7, Kept(Destroying), {3}), m[3 := Destroy(Find(JOB, 0))])
  {
    var w, g := Born3(6, Kept(Ready), {3}), Born3(7, Kept(Destroying), {3});
    WalkFour(System(w, m), SpawnDestroy(3), Do(3, Ok), Do(3, Ok), Do(3, Ok));
    Moves(m, 3, w, Destroy(DestroyRead), Ok, w, Destroy(DestroyFence(Read(6, w.store))));
    FenceTurn();
    Moves(m, 3, w, Destroy(DestroyFence(Read(6, w.store))), Ok, g, Destroy(Prepare(JOB)));
    Moves(m, 3, g, Destroy(Prepare(JOB)), Ok, g, Destroy(Find(JOB, 0)));
  }

  lemma SurrenderLeg(m: Workers)
    ensures Walk(System(Born3(7, Kept(Destroying), {3}), m[3 := Destroy(Find(JOB, 0))]), A5) ==
              System(Born3(8, Kept(Escalated), {3}), m[3 := Stopped])
  {
    var w, read := Born3(7, Kept(Destroying), {3}), Read(7, Some(Kept(Destroying)));
    var x, x' := Destroy(TearDown(JOB, 0, EscalateDestroy, None)),
        Destroy(TearDown(JOB, 0, EscalateDestroy, Some(read)));
    WalkThree(System(w, m[3 := Destroy(Find(JOB, 0))]), Do(3, Err), Do(3, Ok), Do(3, Ok));
    Moves(m, 3, w, Destroy(Find(JOB, 0)), Err, w, x);
    Moves(m, 3, w, x, Ok, w, x');
    SurrenderTurn();
    Moves(m, 3, w, x', Ok, Born3(8, Kept(Escalated), {3}), Stopped);
  }

  /** The first Apply wakes up and is fenced off, */
  lemma WakeLeg(m: Workers)
    ensures Walk(System(Born3(8, Kept(Escalated), {3}), m[1 := PAUSED]), [Do(1, Ok), Do(1, Ok)]) ==
              System(Born3(8, Kept(Escalated), {3}), m[1 := Begin(CleanClaim(1, 0, 2, 3, None))])
  {
    var w, read := Born3(8, Kept(Escalated), {3}), Read(8, Some(Kept(Escalated)));
    var x := Apply(Persist(ATTACHED, 0, MarkActive(3), Some(read)));
    WalkTwo(System(w, m[1 := PAUSED]), Do(1, Ok), Do(1, Ok));
    Moves(m, 1, w, PAUSED, Ok, w, x);
    FencedTurn();
    Moves(m, 1, w, x, Ok, w, Begin(CleanClaim(1, 0, 2, 3, None)));
  }

  /** and claims the cleanup of its attempt. */
  lemma ClaimLeg(m: Workers)
    ensures Walk(System(Born3(8, Kept(Escalated), {3}), m[1 := PAUSED]), A6) ==
              System(Born3(9, CLEANING, {3}), m[1 := Begin(CleanDelete(1, 0, 2, 3, Proven))])
  {
    var w, read := Born3(8, Kept(Escalated), {3}), Read(8, Some(Kept(Escalated)));
    var x, x' := Begin(CleanClaim(1, 0, 2, 3, None)), Begin(CleanClaim(1, 0, 2, 3, Some(read)));
    WalkWalk(System(w, m[1 := PAUSED]), [Do(1, Ok), Do(1, Ok)], [Do(1, Ok), Do(1, Ok)]);
    WakeLeg(m);
    WalkTwo(System(w, m[1 := x]), Do(1, Ok), Do(1, Ok));
    Moves(m, 1, w, x, Ok, w, x');
    ClaimTurn();
    Moves(m, 1, w, x', Ok, Born3(9, CLEANING, {3}), Begin(CleanDelete(1, 0, 2, 3, Proven)));
  }

  /** Its delete fails; the replica is proven again, but its listing is gone. */
  lemma FailLeg(m: Workers)
    ensures Walk(System(Born3(9, CLEANING, {3}), m[1 := Begin(CleanDelete(1, 0, 2, 3, Proven))]), A7).world ==
              Born3(10, UNLISTED, {3}).(spared := {2})
  {
    var w, read := Born3(9, CLEANING, {3}), Read(9, Some(CLEANING));
    var x := Begin(CleanFinish(1, 0, 2, 3, Proven, false, None));
    var x' := Begin(CleanFinish(1, 0, 2, 3, Proven, false, Some(read)));
    WalkThree(System(w, m[1 := Begin(CleanDelete(1, 0, 2, 3, Proven))]), Do(1, Err), Do(1, Ok), Do(1, Ok));
    Moves(m, 1, w, Begin(CleanDelete(1, 0, 2, 3, Proven)), Err, w, x);
    Moves(m, 1, w, x, Ok, w, x');
    FailTurn();
    Moves(m, 1, w, x', Ok, Born3(10, UNLISTED, {3}).(spared := {2}), Stopped);
  }

  const A1: seq<Event> := [Do(1, Ok), SpawnApply(2, ONE), Do(2, Ok), Do(2, Ok)]
  const A2: seq<Event> := [Do(2, See(3)), Do(2, Ok)] + [Do(2, Ok), Do(2, Ok)]
  const A3: seq<Event> := [Do(2, Ok)] + [Do(2, Ok), Do(2, Ok)]
  const A4: seq<Event> := [SpawnDestroy(3), Do(3, Ok), Do(3, Ok), Do(3, Ok)]
  const A5: seq<Event> := [Do(3, Err), Do(3, Ok), Do(3, Ok)]
  const A6: seq<Event> := [Do(1, Ok), Do(1, Ok)] + [Do(1, Ok), Do(1, Ok)]
  const A7: seq<Event> := [Do(1, Err), Do(1, Ok), Do(1, Ok)]

  lemma ToReady()
    ensures Walk(System(Born3(3, ATTACHED, {3}), map[1 := Apply(Wait(ATTACHED, 0, 3))]), A1 + (A2 + (A3 + A3))) ==
              System(Born3(6, Kept(Ready), {3}), map[1 := PAUSED][2 := Stopped])
  {
    var y, m := System(Born3(3, ATTACHED, {3}), map[1 := Apply(Wait(ATTACHED, 0, 3))]), map[1 := PAUSED];
    WalkWalk(y, A1, A2 + (A3 + A3));
    TakeOverLeg();
    var y1 := Walk(y, A1);
    WalkWalk(y1, A2, A3 + A3);
    ActivateLeg(m);
    WalkWalk(Walk(y1, A2), A3, A3);
    ProveLeg(m);
    FinishLeg(m);
  }

  lemma ToUnlisted()
    ensures Walk(System(Born3(6, Kept(Ready), {3}), map[1 := PAUSED][2 := Stopped]), A4 + (A5 + (A6 + A7))).world ==
              Born3(10, UNLISTED, {3}).(spared := {2})
  {
    var m := map[1 := PAUSED][2 := Stopped];
    var y := System(Born3(6, Kept(Ready), {3}), m);
    WalkWalk(y, A4, A5 + (A6 + A7));
    FenceLeg(m);
    WalkWalk(Walk(y, A4), A5, A6 + A7);
    SurrenderLeg(m);
    var n := map[2 := Stopped, 3 := Stopped];
    assert m[3 := Stopped] == n[1 := PAUSED];
    WalkWalk(Walk(Walk(y, A4), A5), A6, A7);
    ClaimLeg(n);
    FailLeg(n);
  }

  const TO_READY: seq<Event> := [SpawnApply(1, ONE), Do(1, Ok), Do(1, Ok)] + (TO_SERVER + (A1 + (A2 + (A3 + A3))))

  /** One Apply paused, another brought the replica to `ready`. */
  lemma RunToReady()
    ensures Run(TO_READY) == System(Born3(6, Kept(Ready), {3}), map[1 := PAUSED][2 := Stopped])
  {
    var b := A1 + (A2 + (A3 + A3));
    RunWalk([SpawnApply(1, ONE), Do(1, Ok), Do(1, Ok)], TO_SERVER + b);
    OpenLeg();
    WalkWalk(Opened(), TO_SERVER, b);
    assert map[][1 := Apply(Scan(FRESH, 0))] == map[1 := Apply(Scan(FRESH, 0))];
    ToServer(map[]);
    assert map[][1 := Apply(Wait(ATTACHED, 0, 3))] == map[1 := Apply(Wait(ATTACHED, 0, 3))];
    ToReady();
  }

  const UNLISTING: seq<Event> := TO_READY + (A4 + (A5 + (A6 + A7)))

  /** A replica is proven and its server is live, yet the resource listing is empty. */
  lemma FailedDeleteUnlists()
    ensures var w := Run(UNLISTING).world;
            && w.store == Some(UNLISTED) && w.store.value.creation.value.replicas == [Replica(0, 3, Proven, 2)]
            && 3 in w.live && w.store.value.listed == [] && 2 in w.spared
  {
    RunWalk(TO_READY, A4 + (A5 + (A6 + A7)));
    RunToReady();
    ToUnlisted();
  }
}
