/**
 A run with an operator's recovery that leaves an endpoint behind: the recovery asks the provider again
 while the answer to the first request is still open.
 */
module EndpointRuns {
  import opened Base
  import opened LifecycleState
  import opened LifecycleMachine
  import opened LifecycleRuns

  // ----- the states on the way --------------------------------------------------------------------

  function Exposed(p: Phase, q: Phase, e: ExposurePhase, unresolved: bool, policies: seq<Policy>): State {
    State(p, Some(Creation(1, 1, [Replica(0, 3, Proven, 2)], q)), Some(Exposure(4, 3, 9, e, unresolved)), policies,
        [Listed(3, 0, false)])
  }

  const ASKING: State := Exposed(Ready, Ready, Opening, true, [])
  const GIVEN_UP: State := Exposed(Escalated, Ready, Stuck, true, [])
  const RECOVERED: State := Exposed(Ready, Ready, Open, false, [Policy(5, 9)])
  const FENCED: State := Exposed(Destroying, Destroying, Withdrawing, false, [Policy(5, 9)])

  function Torn(p: Phase, e: ExposurePhase, policies: seq<Policy>): State {
    State(p, Some(Creation(1, 1, [Replica(0, 3, Gone, 2)], p)), Some(Exposure(4, 3, 9, e, false)), policies,
        [Listed(3, 0, true)])
  }

  /** The first request is made and unanswered. */
  function Waiting(version: nat, s: State): World {
    Born3(version, s, {3}).(nextId := 5, claims := map[1 := true], exposeCalls := [1],
        ends := Endpoints(map[4 := Asked], map[], {}))
  }

  /** The recovery has made policy 5. */
  function Remade(version: nat, s: State, live: set<nat>, open: set<nat>): World {
    Born3(version, s, live).(nextId := 6, claims := map[1 := true], exposeCalls := [1],
        ends := Endpoints(map[4 := Asked], map[5 := 4], open))
  }

  // What each transition makes of these states.

  lemma ExposureIs()
    ensures OpenExposure(Kept(Ready), 4, 9) == ASKING
    ensures MutateExposure(ASKING, 4, EscalateExposure) == Write(GIVEN_UP)
    ensures MutateExposure(GIVEN_UP, 4, Complete(5, true)) == Write(RECOVERED)
    ensures TakeDestroyFence(RECOVERED) == FENCED
  {
  }

  lemma TeardownIs()
    ensures MutateDestroy(FENCED, 1, 4, MarkGone(0)) == Write(Torn(Destroying, Withdrawing, [Policy(5, 9)]))
    ensures MutateDestroy(Torn(Destroying, Withdrawing, [Policy(5, 9)]), 1, 4, DropPolicy(5)) ==
              Write(Torn(Destroying, Withdrawing, []))
    ensures MutateDestroy(Torn(Destroying, Withdrawing, []), 1, 4, CloseExposure) ==
              Write(Torn(Destroying, Withdrawn, []))
    ensures MutateDestroy(Torn(Destroying, Withdrawn, []), 1, 4, FinishDestroy) == Write(Torn(Destroyed, Withdrawn, []))
  {
    One(Replica(0, 3, Proven, 2), Replica(0, 3, Gone, 2));
    assert MarkDeleted([Listed(3, 0, false)], 0) == [Listed(3, 0, true)];
    RemovePolicyOne(Policy(5, 9), 5);
  }

  // ----- an exposure that is given up --------------------------------------------------------------------

  const E1: seq<Event> := [SpawnExpose(4, 9, false), Do(4, Ok), Do(4, Ok), Do(4, Ok)]
  const E2: seq<Event> := [Do(4, Ambiguous), Do(4, Ok), Do(4, Ok)]

  lemma ClaimTurn4()
    ensures var w := Born3(6, Kept(Ready), {3});
            Act(w, Expose(ExposeClaim(9, Read(6, w.store))), Ok) == Turn(Claimed(), Expose(ExposeCall(1, 4)))
  {
    ExposureIs();
  }

  function Claimed(): World {
    Born3(7, ASKING, {3}).(nextId := 5, claims := map[1 := false], ends := Endpoints(map[4 := Due], map[], {}))
  }

  lemma CallTurn()
    ensures Act(Claimed(), Expose(ExposeCall(1, 4)), Ok) == Turn(Waiting(7, ASKING), Expose(ExposeCalled(4)))
  {
    assert map[4 := Due][4 := Asked] == map[4 := Asked] && map[1 := false][1 := true] == map[1 := true];
  }

  lemma AskLeg(m: Workers)
    requires 4 !in m
    ensures Walk(System(Born3(6, Kept(Ready), {3}), m), E1) ==
              System(Waiting(7, ASKING), m[4 := Expose(ExposeCalled(4))])
  {
    var w := Born3(6, Kept(Ready), {3});
    WalkFour(System(w, m), SpawnExpose(4, 9, false), Do(4, Ok), Do(4, Ok), Do(4, Ok));
    Moves(m, 4, w, Expose(ExposeRead(9, false)), Ok, w, Expose(ExposeClaim(9, Read(6, w.store))));
    ClaimTurn4();
    Moves(m, 4, w, Expose(ExposeClaim(9, Read(6, w.store))), Ok, Claimed(), Expose(ExposeCall(1, 4)));
    CallTurn();
    Moves(m, 4, Claimed(), Expose(ExposeCall(1, 4)), Ok, Waiting(7, ASKING), Expose(ExposeCalled(4)));
  }

  lemma GiveUpTurn()
    ensures Act(Waiting(7, ASKING), Expose(ExposePersist(4, EscalateExposure, Some(Read(7, Some(ASKING))))), Ok) ==
              Turn(Waiting(8, GIVEN_UP), Stopped)
  {
    ExposureIs();
  }

  lemma GivenUpLeg(m: Workers)
    ensures Walk(System(Waiting(7, ASKING), m[4 := Expose(ExposeCalled(4))]), E2) ==
              System(Waiting(8, GIVEN_UP), m[4 := Stopped])
  {
    var w, x := Waiting(7, ASKING), Expose(ExposePersist(4, EscalateExposure, None));
    var x' := Expose(ExposePersist(4, EscalateExposure, Some(Read(7, Some(ASKING)))));
    WalkThree(System(w, m[4 := Expose(ExposeCalled(4))]), Do(4, Ambiguous), Do(4, Ok), Do(4, Ok));
    Moves(m, 4, w, Expose(ExposeCalled(4)), Ambiguous, w, x);
    Moves(m, 4, w, x, Ok, w, x');
    GiveUpTurn();
    Moves(m, 4, w, x', Ok, Waiting(8, GIVEN_UP), Stopped);
  }

  // ----- the recovery ----------------------------------------------------------------------------------------

  const E3: seq<Event> := [SpawnExpose(5, 9, true), Do(5, Ok), Do(5, Absent), Do(5, Ok)]
  const E4: seq<Event> := [Do(5, Ok), Do(5, Ok)]

  lemma RetryTurn()
    ensures Act(Waiting(8, GIVEN_UP), Expose(ExposeRetry(4)), Ok) ==
              Turn(Remade(8, GIVEN_UP, {3}, {5}), Expose(ExposePersist(4, Complete(5, true), None)))
  {
    assert map[][5 := 4] == map[5 := 4] && {} + {5} == {5};
  }

  lemma RecoverTurn()
    ensures var w := Waiting(8, GIVEN_UP);
            && Act(w, Expose(ExposeRead(9, true)), Ok) == Turn(w, Expose(ExposeLookup(4, true)))
            && Act(w, Expose(ExposeLookup(4, true)), Absent) == Turn(w, Expose(ExposeRetry(4)))
  {
    assert GIVEN_UP.policies == [] && MatchingIds([], 9) == [];
  }

  lemma RetryLeg(m: Workers)
    requires 5 !in m
    ensures Walk(System(Waiting(8, GIVEN_UP), m), E3) ==
              System(Remade(8, GIVEN_UP, {3}, {5}), m[5 := Expose(ExposePersist(4, Complete(5, true), None))])
  {
    var w := Waiting(8, GIVEN_UP);
    WalkFour(System(w, m), SpawnExpose(5, 9, true), Do(5, Ok), Do(5, Absent), Do(5, Ok));
    RecoverTurn();
    Moves(m, 5, w, Expose(ExposeRead(9, true)), Ok, w, Expose(ExposeLookup(4, true)));
    Moves(m, 5, w, Expose(ExposeLookup(4, true)), Absent, w, Expose(ExposeRetry(4)));
    RetryTurn();
    Moves(m, 5, w, Expose(ExposeRetry(4)), Ok, Remade(8, GIVEN_UP, {3}, {5}),
        Expose(ExposePersist(4, Complete(5, true), None)));
  }

  lemma CompleteTurn()
    ensures Act(Remade(8, GIVEN_UP, {3}, {5}),
              Expose(ExposePersist(4, Complete(5, true), Some(Read(8, Some(GIVEN_UP))))), Ok) ==
              Turn(Remade(9, RECOVERED, {3}, {5}), Stopped)
  {
    ExposureIs();
  }

  lemma CompleteLeg(m: Workers)
    ensures Walk(System(Remade(8, GIVEN_UP, {3}, {5}), m[5 := Expose(ExposePersist(4, Complete(5, true), None))]), E4)
              == System(Remade(9, RECOVERED, {3}, {5}), m[5 := Stopped])
  {
    var w, x := Remade(8, GIVEN_UP, {3}, {5}), Expose(ExposePersist(4, Complete(5, true), None));
    var x' := Expose(ExposePersist(4, Complete(5, true), Some(Read(8, Some(GIVEN_UP)))));
    WalkTwo(System(w, m[5 := x]), Do(5, Ok), Do(5, Ok));
    Moves(m, 5, w, x, Ok, w, x');
    CompleteTurn();
    Moves(m, 5, w, x', Ok, Remade(9, RECOVERED, {3}, {5}), Stopped);
  }

  // ----- the Destroy -----------------------------------------------------------------------------------------

  function Work(s: State, policies: set<nat>): Job {
    Job(s, 1, 4, policies)
  }

  /** A transition of Destroy that meets no conflict: a read and a write. */
  lemma TearLeg(m: Workers, who: nat, w: World, job: Job, index: nat, t: Teardown, s: State)
    requires w.store.Some? && MutateDestroy(w.store.value, job.cop, job.eop, t) == Write(s)
    ensures Walk(System(w, m[who := Destroy(TearDown(job, index, t, None))]), [Do(who, Ok), Do(who, Ok)]) ==
              System(Commit(w, s), m[who := ContinueTearDown(job, s, index, t)])
  {
    var x := Destroy(TearDown(job, index, t, None));
    var x' := Destroy(TearDown(job, index, t, Some(Read(w.version, w.store))));
    WalkTwo(System(w, m[who := x]), Do(who, Ok), Do(who, Ok));
    Moves(m, who, w, x, Ok, w, x');
    Moves(m, who, w, x', Ok, Commit(w, s), ContinueTearDown(job, s, index, t));
  }

  const D1: seq<Event> := [SpawnDestroy(6), Do(6, Ok), Do(6, Ok), Do(6, Absent)]
  const D2: seq<Event> := [Do(6, SeeAll({3})), Do(6, Absent), Do(6, See(3)), Do(6, Ok)]
  const D3: seq<Event> := [Do(6, Ok), Do(6, Ok)]
  const D4: seq<Event> := [Do(6, Ok), Do(6, See(5))]

  lemma PrepareTurn()
    ensures var w := Remade(10, FENCED, {3}, {5});
            Act(w, Destroy(Prepare(Work(FENCED, {}))), Absent) == Turn(w, Destroy(Find(Work(FENCED, {5}), 0)))
  {
    assert FENCED.policies == [Policy(5, 9)];
    assert KnownPolicies(FENCED, 9) == {5} by { assert FENCED.policies[0].id in KnownPolicies(FENCED, 9); }
  }

  lemma FenceTurn6()
    ensures var w := Remade(9, RECOVERED, {3}, {5});
            Act(w, Destroy(DestroyFence(Read(9, w.store))), Ok) ==
                Turn(Remade(10, FENCED, {3}, {5}), Destroy(Prepare(Work(FENCED, {}))))
  {
    ExposureIs();
  }

  lemma BeginLeg(m: Workers)
    requires 6 !in m
    ensures Walk(System(Remade(9, RECOVERED, {3}, {5}), m), D1) ==
              System(Remade(10, FENCED, {3}, {5}), m[6 := Destroy(Find(Work(FENCED, {5}), 0))])
  {
    var w, g := Remade(9, RECOVERED, {3}, {5}), Remade(10, FENCED, {3}, {5});
    WalkFour(System(w, m), SpawnDestroy(6), Do(6, Ok), Do(6, Ok), Do(6, Absent));
    Moves(m, 6, w, Destroy(DestroyRead), Ok, w, Destroy(DestroyFence(Read(9, w.store))));
    FenceTurn6();
    Moves(m, 6, w, Destroy(DestroyFence(Read(9, w.store))), Ok, g, Destroy(Prepare(Work(FENCED, {}))));
    PrepareTurn();
    Moves(m, 6, g, Destroy(Prepare(Work(FENCED, {}))), Absent, g, Destroy(Find(Work(FENCED, {5}), 0)));
  }

  lemma EraseTurn()
    ensures Act(Remade(10, FENCED, {3}, {5}), Destroy(Delete(Work(FENCED, {5}), 0, {3}, {3})), See(3)) ==
              Turn(Remade(10, FENCED, {}, {5}), Destroy(Delete(Work(FENCED, {5}), 0, {3}, {})))
  {
    assert {3} - {3} == {};
  }

  lemma SweepTurns()
    ensures var w, job := Remade(10, FENCED, {3}, {5}), Work(FENCED, {5});
            && Act(w, Destroy(Find(job, 0)), SeeAll({3})) == Turn(w, Destroy(Inspect(job, 0, {3})))
            && Act(w, Destroy(Inspect(job, 0, {3})), Absent) == Turn(w, Destroy(Delete(job, 0, {3}, {3})))
    ensures var g, job := Remade(10, FENCED, {}, {5}), Work(FENCED, {5});
            Act(g, Destroy(Delete(job, 0, {3}, {})), Ok) == Turn(g, Destroy(TearDown(job, 0, MarkGone(0), None)))
  {
  }

  lemma SweepLeg(m: Workers)
    ensures Walk(System(Remade(10, FENCED, {3}, {5}), m[6 := Destroy(Find(Work(FENCED, {5}), 0))]), D2) ==
              System(Remade(10, FENCED, {}, {5}), m[6 := Destroy(TearDown(Work(FENCED, {5}), 0, MarkGone(0), None))])
  {
    var w, g, job := Remade(10, FENCED, {3}, {5}), Remade(10, FENCED, {}, {5}), Work(FENCED, {5});
    WalkFour(System(w, m[6 := Destroy(Find(job, 0))]), Do(6, SeeAll({3})), Do(6, Absent), Do(6, See(3)), Do(6, Ok));
    SweepTurns();
    Moves(m, 6, w, Destroy(Find(job, 0)), SeeAll({3}), w, Destroy(Inspect(job, 0, {3})));
    Moves(m, 6, w, Destroy(Inspect(job, 0, {3})), Absent, w, Destroy(Delete(job, 0, {3}, {3})));
    EraseTurn();
    Moves(m, 6, w, Destroy(Delete(job, 0, {3}, {3})), See(3), g, Destroy(Delete(job, 0, {3}, {})));
    Moves(m, 6, g, Destroy(Delete(job, 0, {3}, {})), Ok, g, Destroy(TearDown(job, 0, MarkGone(0), None)));
  }

  const GONE: State := Torn(Destroying, Withdrawing, [Policy(5, 9)])
  const DROPPED: State := Torn(Destroying, Withdrawing, [])
  const CLOSED: State := Torn(Destroying, Withdrawn, [])
  const DONE: State := Torn(Destroyed, Withdrawn, [])

  lemma CloseTurn()
    ensures Act(Remade(11, GONE, {}, {5}), Destroy(Policies(Work(GONE, {5}))), See(5)) ==
              Turn(Remade(11, GONE, {}, {}), Destroy(TearDown(Work(GONE, {5}), 0, DropPolicy(5), None)))
  {
    assert {5} - {5} == {};
  }

  lemma CloseLeg(m: Workers)
    ensures Walk(System(Remade(11, GONE, {}, {5}), m[6 := Destroy(Find(Work(GONE, {5}), 1))]), D4) ==
              System(Remade(11, GONE, {}, {}), m[6 := Destroy(TearDown(Work(GONE, {5}), 0, DropPolicy(5), None))])
  {
    var w, job := Remade(11, GONE, {}, {5}), Work(GONE, {5});
    WalkTwo(System(w, m[6 := Destroy(Find(job, 1))]), Do(6, Ok), Do(6, See(5)));
    Moves(m, 6, w, Destroy(Find(job, 1)), Ok, w, Destroy(Policies(job)));
    CloseTurn();
    Moves(m, 6, w, Destroy(Policies(job)), See(5), Remade(11, GONE, {}, {}),
        Destroy(TearDown(job, 0, DropPolicy(5), None)));
  }

  lemma GoneLeg(m: Workers)
    ensures Walk(System(Remade(10, FENCED, {}, {5}),
              m[6 := Destroy(TearDown(Work(FENCED, {5}), 0, MarkGone(0), None))]), D3) ==
              System(Remade(11, GONE, {}, {5}), m[6 := Destroy(Find(Work(GONE, {5}), 1))])
  {
    TeardownIs();
    TearLeg(m, 6, Remade(10, FENCED, {}, {5}), Work(FENCED, {5}), 0, MarkGone(0), GONE);
  }

  lemma DropLeg(m: Workers)
    ensures Walk(System(Remade(11, GONE, {}, {}),
              m[6 := Destroy(TearDown(Work(GONE, {5}), 0, DropPolicy(5), None))]), D3) ==
              System(Remade(12, DROPPED, {}, {}), m[6 := Destroy(Policies(Work(DROPPED, {})))])
  {
    TeardownIs();
    TearLeg(m, 6, Remade(11, GONE, {}, {}), Work(GONE, {5}), 0, DropPolicy(5), DROPPED);
    assert {5} - {5} == {};
  }

  lemma WithdrawIs()
    ensures MutateDestroy(DROPPED, 1, 4, CloseExposure) == Write(CLOSED)
  {
  }

  lemma WithdrawLeg(m: Workers)
    ensures Walk(System(Remade(12, DROPPED, {}, {}), m[6 := Destroy(Policies(Work(DROPPED, {})))]), [Do(6, Ok)] + D3) ==
              System(Remade(13, CLOSED, {}, {}), m[6 := Destroy(TearDown(Work(CLOSED, {}), 0, FinishDestroy, None))])
  {
    var w, job := Remade(12, DROPPED, {}, {}), Work(DROPPED, {});
    WalkWalk(System(w, m[6 := Destroy(Policies(job))]), [Do(6, Ok)], D3);
    WalkOne(System(w, m[6 := Destroy(Policies(job))]), Do(6, Ok));
    Moves(m, 6, w, Destroy(Policies(job)), Ok, w, Destroy(TearDown(job, 0, CloseExposure, None)));
    WithdrawIs();
    TearLeg(m, 6, w, job, 0, CloseExposure, CLOSED);
  }

  lemma DoneLeg(m: Workers)
    ensures Walk(System(Remade(13, CLOSED, {}, {}),
              m[6 := Destroy(TearDown(Work(CLOSED, {}), 0, FinishDestroy, None))]), D3) ==
              System(Remade(14, DONE, {}, {}), m[6 := Stopped])
  {
    TeardownIs();
    TearLeg(m, 6, Remade(13, CLOSED, {}, {}), Work(CLOSED, {}), 0, FinishDestroy, DONE);
  }

  // ----- the run ---------------------------------------------------------------------------------------------------

  const EXPOSING: seq<Event> := E1 + (E2 + (E3 + E4))
  const RAZING: seq<Event> := D1 + (D2 + (D3 + (D4 + (D3 + ([Do(6, Ok)] + D3 + D3)))))

  lemma ExposingLeg(m: Workers)
    requires 4 !in m && 5 !in m
    ensures Walk(System(Born3(6, Kept(Ready), {3}), m), EXPOSING) ==
              System(Remade(9, RECOVERED, {3}, {5}), m[4 := Stopped][5 := Stopped])
  {
    var y := System(Born3(6, Kept(Ready), {3}), m);
    WalkWalk(y, E1, E2 + (E3 + E4));
    AskLeg(m);
    WalkWalk(Walk(y, E1), E2, E3 + E4);
    GivenUpLeg(m);
    WalkWalk(Walk(Walk(y, E1), E2), E3, E4);
    RetryLeg(m[4 := Stopped]);
    CompleteLeg(m[4 := Stopped]);
  }

  lemma ClosingLeg(m: Workers)
    ensures Walk(System(Remade(11, GONE, {}, {5}), m[6 := Destroy(Find(Work(GONE, {5}), 1))]),
              D4 + (D3 + ([Do(6, Ok)] + D3 + D3))) == System(Remade(14, DONE, {}, {}), m[6 := Stopped])
  {
    var y := System(Remade(11, GONE, {}, {5}), m[6 := Destroy(Find(Work(GONE, {5}), 1))]);
    WalkWalk(y, D4, D3 + ([Do(6, Ok)] + D3 + D3));
    CloseLeg(m);
    WalkWalk(Walk(y, D4), D3, [Do(6, Ok)] + D3 + D3);
    DropLeg(m);
    WalkWalk(Walk(Walk(y, D4), D3), [Do(6, Ok)] + D3, D3);
    WithdrawLeg(m);
    DoneLeg(m);
  }

  lemma RazingLeg(m: Workers)
    requires 6 !in m
    ensures Walk(System(Remade(9, RECOVERED, {3}, {5}), m), RAZING) ==
              System(Remade(14, DONE, {}, {}), m[6 := Stopped])
  {
    var y, rest := System(Remade(9, RECOVERED, {3}, {5}), m), D4 + (D3 + ([Do(6, Ok)] + D3 + D3));
    WalkWalk(y, D1, D2 + (D3 + rest));
    BeginLeg(m);
    WalkWalk(Walk(y, D1), D2, D3 + rest);
    SweepLeg(m);
    WalkWalk(Walk(Walk(y, D1), D2), D3, rest);
    GoneLeg(m);
    ClosingLeg(m);
  }

  const ORPHANING: seq<Event> := TO_READY + (EXPOSING + (RAZING + [Establish(4)]))

  lemma LateTurn(m: Workers)
    ensures Walk(System(Remade(14, DONE, {}, {}), m), [Establish(4)]).world.ends.open == {6}
    ensures Walk(System(Remade(14, DONE, {}, {}), m), [Establish(4)]).world.store == Some(DONE)
  {
    WalkOne(System(Remade(14, DONE, {}, {}), m), Establish(4));
    assert {} + {6} == {6};
  }

  /** The state is `destroyed` and yet an endpoint is open: the first request was answered after the recovery's. */
  lemma RecoveryOrphans()
    ensures var w := Run(ORPHANING).world;
            w.store.Some? && w.store.value.phase == Destroyed && w.live == {} && w.ends.open == {6}
  {
    var m := map[1 := PAUSED][2 := Stopped];
    RunWalk(TO_READY, EXPOSING + (RAZING + [Establish(4)]));
    RunToReady();
    var y := Run(TO_READY);
    WalkWalk(y, EXPOSING, RAZING + [Establish(4)]);
    ExposingLeg(m);
    WalkWalk(Walk(y, EXPOSING), RAZING, [Establish(4)]);
    RazingLeg(m[4 := Stopped][5 := Stopped]);
    LateTurn(m[4 := Stopped][5 := Stopped][6 := Stopped]);
  }
}
