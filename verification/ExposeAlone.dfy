/** An exposure left alone opens an endpoint and has it on record. */
module ExposeAlone {
  import opened Base
  import opened LifecycleState
  import opened LifecycleMachine
  import opened ExposureOnce
  import opened LifecycleAlone

  /** A ready sandbox of one host that was never exposed. */
  predicate Exposes(w: World) {
    && w.store.Some? && w.store.value.phase == Ready && w.store.value.exposure.None? && w.store.value.policies == []
    && |w.store.value.listed| == 1 && !w.store.value.listed[0].deleted
  }

  function CreationOp(s: State): nat {
    if s.creation.Some? then s.creation.value.op else 0
  }

  function ClaimWorld(w: World, identity: nat): World
    requires Exposes(w)
  {
    Commit(w, OpenExposure(w.store.value, w.nextId, identity))
      .(nextId := w.nextId + 1, claims := w.claims[CreationOp(w.store.value) := false],
        ends := w.ends.(calls := w.ends.calls[w.nextId := Due]))
  }

  lemma Claims(w: World, identity: nat)
    requires Exposes(w)
    ensures Leads(Turn(w, Expose(ExposeRead(identity, false))),
              Turn(ClaimWorld(w, identity), Expose(ExposeCall(CreationOp(w.store.value), w.nextId))))
  {
    var a := Turn(w, Expose(ExposeRead(identity, false)));
    var b := Turn(w, Expose(ExposeClaim(identity, Read(w.version, w.store))));
    var c := Turn(ClaimWorld(w, identity), Expose(ExposeCall(CreationOp(w.store.value), w.nextId)));
    LeadsOne(a, b);
    assert MatchingIds([], identity) == [];
    LeadsOne(b, c);
    LeadsOn(a, b, c);
  }

  function AskWorld(w: World, identity: nat): World
    requires Exposes(w)
  {
    var g, cop := ClaimWorld(w, identity), CreationOp(w.store.value);
    g.(claims := g.claims[cop := true], exposeCalls := g.exposeCalls + [cop],
       ends := g.ends.(calls := w.ends.calls[w.nextId := Asked]))
  }

  lemma Asks(w: World, identity: nat)
    requires Exposes(w)
    ensures Leads(Turn(ClaimWorld(w, identity), Expose(ExposeCall(CreationOp(w.store.value), w.nextId))),
              Turn(AskWorld(w, identity), Expose(ExposeCalled(w.nextId))))
  {
    assert w.ends.calls[w.nextId := Due][w.nextId := Asked] == w.ends.calls[w.nextId := Asked];
    LeadsOne(Turn(ClaimWorld(w, identity), Expose(ExposeCall(CreationOp(w.store.value), w.nextId))),
        Turn(AskWorld(w, identity), Expose(ExposeCalled(w.nextId))));
  }

  function MadeWorld(w: World, identity: nat): World
    requires Exposes(w)
  {
    EstablishPolicy(AskWorld(w, identity), w.nextId)
  }

  lemma Makes(w: World, identity: nat)
    requires Exposes(w)
    ensures Leads(Turn(AskWorld(w, identity), Expose(ExposeCalled(w.nextId))),
              Turn(MadeWorld(w, identity), Expose(ExposePersist(w.nextId, Complete(w.nextId + 1, false), None))))
    ensures MadeWorld(w, identity).store == Some(OpenExposure(w.store.value, w.nextId, identity))
    ensures Opened(MadeWorld(w, identity), w.nextId + 1, w.nextId)
  {
    LeadsOne(Turn(AskWorld(w, identity), Expose(ExposeCalled(w.nextId))),
        Turn(MadeWorld(w, identity), Expose(ExposePersist(w.nextId, Complete(w.nextId + 1, false), None))));
  }

  /** The endpoint of this identity is open, at the sandbox's host, and on record as the only one. */
  ghost predicate IsExposed(w: World, g: World, identity: nat)
    requires Exposes(w)
  {
    && g.store.Some? && g.store.value.phase == Ready && g.store.value.exposure.Some?
    && g.store.value.creation == w.store.value.creation && g.store.value.listed == w.store.value.listed
    && |g.store.value.policies| == 1 && g.store.value.policies[0].identity == identity
    && var e := g.store.value.exposure.value;
       && e.phase == Open && !e.unresolved && e.identity == identity && e.server == w.store.value.listed[0].server
       && Opened(g, g.store.value.policies[0].id, e.op)
  }

  lemma Completes(w: World, identity: nat) returns (g: World)
    requires Exposes(w)
    ensures Leads(Turn(MadeWorld(w, identity), Expose(ExposePersist(w.nextId, Complete(w.nextId + 1, false), None))),
              Turn(g, Stopped))
    ensures IsExposed(w, g, identity)
  {
    Makes(w, identity);
    var h, m := MadeWorld(w, identity), Complete(w.nextId + 1, false);
    var s := h.store.value;
    var e := s.exposure.value;
    var s' := s.(policies := [Policy(w.nextId + 1, identity)],
                 exposure := Some(e.(phase := Open, unresolved := false)));
    assert s.policies + [Policy(w.nextId + 1, identity)] == [Policy(w.nextId + 1, identity)];
    assert MutateExposure(s, w.nextId, m) == Write(s');
    g := Commit(h, s');
    var a := Turn(h, Expose(ExposePersist(w.nextId, m, None)));
    var b := Turn(h, Expose(ExposePersist(w.nextId, m, Some(Read(h.version, h.store)))));
    LeadsOne(a, b);
    LeadsOne(b, Turn(g, Stopped));
    LeadsOn(a, b, Turn(g, Stopped));
  }

  lemma FromRead(w: World, identity: nat) returns (g: World)
    requires Exposes(w)
    ensures Leads(Turn(w, Expose(ExposeRead(identity, false))), Turn(g, Stopped)) && IsExposed(w, g, identity)
  {
    var a := Turn(w, Expose(ExposeRead(identity, false)));
    var b := Turn(ClaimWorld(w, identity), Expose(ExposeCall(CreationOp(w.store.value), w.nextId)));
    var c := Turn(AskWorld(w, identity), Expose(ExposeCalled(w.nextId)));
    var d := Turn(MadeWorld(w, identity), Expose(ExposePersist(w.nextId, Complete(w.nextId + 1, false), None)));
    Claims(w, identity);
    Asks(w, identity);
    LeadsOn(a, b, c);
    Makes(w, identity);
    LeadsOn(a, c, d);
    g := Completes(w, identity);
    LeadsOn(a, d, Turn(g, Stopped));
  }

  lemma ExposesFrom(events: seq<Event>, who: nat, identity: nat) returns (script: seq<Event>)
    requires who in Run(events).workers && Run(events).workers[who] == Expose(ExposeRead(identity, false))
    requires Exposes(Run(events).world)
    ensures AllFavoured(events, script, who)
    ensures IsExposed(Run(events).world, Run(events + script).world, identity)
  {
    var g := FromRead(Run(events).world, identity);
    script := LeadsRun(events, who, Turn(g, Stopped));
  }

  lemma Spawned(events: seq<Event>, who: nat, identity: nat)
    requires who !in Run(events).workers
    ensures var y := Run(events + [SpawnExpose(who, identity, false)]);
            && who in y.workers && y.world == Run(events).world
            && y.workers[who] == Expose(ExposeRead(identity, false))
  {
    RunNext(events, SpawnExpose(who, identity, false));
  }

  lemma NeverExposed(events: seq<Event>)
    requires var w := Run(events).world; w.store.Some? && w.store.value.exposure.None?
    ensures Run(events).world.store.value.policies == []
  {
    RunEndpoint(events);
    assert ExposureOk(Run(events).world.store.value);
  }

  /**
   From every reachable state that is ready, with one host and never exposed: an exposure left alone ends with
   an open endpoint of the requested identity at that host, recorded as the only policy.
   */
  lemma ExposeOpens(events: seq<Event>, who: nat, identity: nat) returns (script: seq<Event>)
    requires who !in Run(events).workers
    requires var w := Run(events).world;
             && w.store.Some? && w.store.value.phase == Ready && w.store.value.exposure.None?
             && |w.store.value.listed| == 1 && !w.store.value.listed[0].deleted
    ensures Exposes(Run(events).world)
    ensures AllFavoured(events + [SpawnExpose(who, identity, false)], script, who)
    ensures IsExposed(Run(events).world, Run(events + [SpawnExpose(who, identity, false)] + script).world, identity)
  {
    NeverExposed(events);
    Spawned(events, who, identity);
    script := ExposesFrom(events + [SpawnExpose(who, identity, false)], who, identity);
  }

  // ----- taking up an exposure that was left open ---------------------------------------------------------------

  /** The exposure of this identity was claimed, and nobody has recorded what came of it. */
  predicate LeftOpen(w: World, identity: nat) {
    && w.store.Some? && w.store.value.phase == Ready && w.store.value.exposure.Some? && w.store.value.policies == []
    && |w.store.value.listed| == 1 && !w.store.value.listed[0].deleted
    && w.store.value.exposure.value.phase == Opening && w.store.value.exposure.value.identity == identity
    && w.store.value.exposure.value.server == w.store.value.listed[0].server
  }

  lemma LooksUp(w: World, identity: nat)
    requires LeftOpen(w, identity)
    ensures Leads(Turn(w, Expose(ExposeRead(identity, false))),
              Turn(w, Expose(ExposeLookup(w.store.value.exposure.value.op, false))))
  {
    assert MatchingIds([], identity) == [];
    LeadsOne(Turn(w, Expose(ExposeRead(identity, false))),
        Turn(w, Expose(ExposeLookup(w.store.value.exposure.value.op, false))));
  }

  lemma Persists(w: World, eop: nat, m: ExposureMutation, s: State)
    requires w.store.Some? && MutateExposure(w.store.value, eop, m) == Write(s)
    ensures Leads(Turn(w, Expose(ExposePersist(eop, m, None))), Turn(Commit(w, s), Stopped))
  {
    var a := Turn(w, Expose(ExposePersist(eop, m, None)));
    var b := Turn(w, Expose(ExposePersist(eop, m, Some(Read(w.version, w.store)))));
    LeadsOne(a, b);
    LeadsOne(b, Turn(Commit(w, s), Stopped));
    LeadsOn(a, b, Turn(Commit(w, s), Stopped));
  }

  lemma Adopts(w: World, identity: nat) returns (g: World)
    requires LeftOpen(w, identity) && exists p :: Opened(w, p, w.store.value.exposure.value.op)
    ensures Leads(Turn(w, Expose(ExposeLookup(w.store.value.exposure.value.op, false))), Turn(g, Stopped))
    ensures Recorded(w, g, identity)
  {
    var s, e := w.store.value, w.store.value.exposure.value;
    var p :| FavourExpose(w, ExposeLookup(e.op, false)) == See(p) && Opened(w, p, e.op);
    var a := Turn(w, Expose(ExposeLookup(e.op, false)));
    var b := Turn(w, Expose(ExposePersist(e.op, Complete(p, false), None)));
    var s' := s.(policies := [Policy(p, identity)], exposure := Some(e.(phase := Open, unresolved := false)));
    LeadsOne(a, b);
    assert s.policies + [Policy(p, identity)] == [Policy(p, identity)];
    g := Commit(w, s');
    Persists(w, e.op, Complete(p, false), s');
    LeadsOn(a, b, Turn(g, Stopped));
  }

  lemma GivesUp(w: World, identity: nat) returns (g: World)
    requires LeftOpen(w, identity) && !exists p :: Opened(w, p, w.store.value.exposure.value.op)
    ensures Leads(Turn(w, Expose(ExposeLookup(w.store.value.exposure.value.op, false))), Turn(g, Stopped))
    ensures g.store.Some? && g.store.value.phase == Escalated && g.store.value.policies == []
  {
    var s, e := w.store.value, w.store.value.exposure.value;
    var a := Turn(w, Expose(ExposeLookup(e.op, false)));
    var b := Turn(w, Expose(ExposePersist(e.op, EscalateExposure, None)));
    var s' := s.(phase := Escalated, exposure := Some(e.(phase := Stuck)));
    LeadsOne(a, b);
    g := Commit(w, s');
    Persists(w, e.op, EscalateExposure, s');
    LeadsOn(a, b, Turn(g, Stopped));
  }

  /** A policy of that exposure is open, and on record as the only one. */
  ghost predicate Recorded(w: World, g: World, identity: nat)
    requires LeftOpen(w, identity)
  {
    && g.store.Some? && g.store.value.phase == Ready && g.store.value.exposure.Some?
    && |g.store.value.policies| == 1 && g.store.value.policies[0].identity == identity
    && g.store.value.exposure.value ==
         w.store.value.exposure.value.(phase := Open, unresolved := false)
    && Opened(g, g.store.value.policies[0].id, w.store.value.exposure.value.op)
  }

  lemma TakesUp(w: World, identity: nat) returns (g: World)
    requires LeftOpen(w, identity)
    ensures Leads(Turn(w, Expose(ExposeRead(identity, false))), Turn(g, Stopped)) && g.store.Some?
    ensures if exists p :: Opened(w, p, w.store.value.exposure.value.op) then Recorded(w, g, identity)
            else g.store.value.phase == Escalated && g.store.value.policies == []
  {
    LooksUp(w, identity);
    if exists p :: Opened(w, p, w.store.value.exposure.value.op) {
      g := Adopts(w, identity);
    } else {
      g := GivesUp(w, identity);
    }
    LeadsOn(Turn(w, Expose(ExposeRead(identity, false))),
        Turn(w, Expose(ExposeLookup(w.store.value.exposure.value.op, false))), Turn(g, Stopped));
  }

  lemma TakesUpFrom(events: seq<Event>, who: nat, identity: nat) returns (script: seq<Event>)
    requires who in Run(events).workers && Run(events).workers[who] == Expose(ExposeRead(identity, false))
    requires LeftOpen(Run(events).world, identity)
    ensures AllFavoured(events, script, who)
    ensures var w, z := Run(events).world, Run(events + script).world;
            z.store.Some? && if exists p :: Opened(w, p, w.store.value.exposure.value.op) then Recorded(w, z, identity)
                             else z.store.value.phase == Escalated && z.store.value.policies == []
  {
    var g := TakesUp(Run(events).world, identity);
    script := LeadsRun(events, who, Turn(g, Stopped));
  }

  /**
   From every reachable state in which the same exposure was claimed and then left: left alone, a second call
   records the policy that it sees, and never asks for another; seeing none, it escalates.
   */
  lemma ExposeTakesUp(events: seq<Event>, who: nat, identity: nat) returns (script: seq<Event>)
    requires who !in Run(events).workers && LeftOpen(Run(events).world, identity)
    ensures AllFavoured(events + [SpawnExpose(who, identity, false)], script, who)
    ensures var w, z := Run(events).world, Run(events + [SpawnExpose(who, identity, false)] + script).world;
            z.store.Some? && if exists p :: Opened(w, p, w.store.value.exposure.value.op) then Recorded(w, z, identity)
                             else z.store.value.phase == Escalated && z.store.value.policies == []
  {
    Spawned(events, who, identity);
    script := TakesUpFrom(events + [SpawnExpose(who, identity, false)], who, identity);
  }
}
