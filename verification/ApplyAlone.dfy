/**
 An Apply left alone brings its sandbox to `ready`: every replica gets a server of its own, an address and a
 proof, wherever an earlier worker had left it, as long as there is a network or a server to go on with.
 */
module ApplyAlone {
  import opened Base
  import opened LifecycleState
  import opened LifecycleMachine
  import opened LifecycleSafety
  import opened Lifecycle
  import opened LifecycleAlone

  // ----- where a replica can be taken up --------------------------------------------------------------------

  /** A replica that an Apply can bring to its end: it is there, or has a network and no server yet, or a live one. */
  ghost predicate Startable(w: World, s: State, i: nat)
    requires HasReplica(s, i)
  {
    var r := s.creation.value.replicas[i];
    || r.phase == Proven
    || (r.network < s.creation.value.networks
        && (r.phase == Pending
            || (r.phase in {Launching, Attached, Active} && OwnLive(w, s.creation.value.op, i) != {})))
  }

  /** The same, with what the shared invariant adds: whose the server is. */
  ghost predicate Placed(w: World, s: State, i: nat)
    requires HasReplica(s, i)
  {
    var r, own := s.creation.value.replicas[i], OwnLive(w, s.creation.value.op, i);
    || r.phase == Proven
    || (r.network < s.creation.value.networks
        && match r.phase
           case Pending => own == {}
           case Launching => r.attempt != 0 && own != {}
           case Attached => own == {r.server}
           case Active => own == {r.server}
           case _ => false)
  }

  /** Names that are to be given have not been given. */
  ghost predicate Fresh(w: World) {
    && w.nextId > 0 && (forall t :: t in w.creates ==> 0 < t < w.nextId)
    && (forall s :: s in w.servers ==> s < w.nextId && w.servers[s] < w.nextId)
    && (forall s :: s in w.live ==> s in w.servers)
  }

  /** Apply stands on what is stored. */
  predicate OnSnap(w: World, s: State) {
    w.store == Some(s) && BothCreating(s)
  }

  /** Only replica `i` was touched. */
  ghost predicate Moved(w: World, s: State, g: World, s': State, i: nat) {
    && OnSnap(w, s) && OnSnap(g, s') && Fresh(g)
    && s'.creation.value.op == s.creation.value.op && s'.creation.value.networks == s.creation.value.networks
    && |s'.creation.value.replicas| == |s.creation.value.replicas|
    && forall j: nat :: j != i && HasReplica(s, j) ==>
         && s'.creation.value.replicas[j] == s.creation.value.replicas[j]
         && OwnLive(g, s.creation.value.op, j) == OwnLive(w, s.creation.value.op, j)
  }

  lemma MovedOn(w: World, s: State, g: World, s': State, h: World, s'': State, i: nat)
    requires Moved(w, s, g, s', i) && Moved(g, s', h, s'', i)
    ensures Moved(w, s, h, s'', i)
  {
  }

  // ----- writes that meet no conflict -----------------------------------------------------------------------

  lemma Persists(w: World, snap: State, i: nat, m: Mutation, s: State)
    requires w.store.Some? && snap.creation.Some? && (m.Slot() ==> HasReplica(snap, i))
    requires MutateRead(snap, i, m, Read(w.version, w.store)) == Write(s)
    ensures Leads(Turn(w, Apply(Persist(snap, i, m, None))), Turn(Commit(w, s), Continue(s, i, m)))
  {
    var a := Turn(w, Apply(Persist(snap, i, m, None)));
    var b := Turn(w, Apply(Persist(snap, i, m, Some(Read(w.version, w.store)))));
    LeadsOne(a, b);
    LeadsOne(b, Turn(Commit(w, s), Continue(s, i, m)));
    LeadsOn(a, b, Turn(Commit(w, s), Continue(s, i, m)));
  }

  lemma PersistKeeps(w: World, snap: State, i: nat, m: Mutation)
    requires w.store.Some? && snap.creation.Some? && (m.Slot() ==> HasReplica(snap, i))
    requires MutateRead(snap, i, m, Read(w.version, w.store)) == Keep
    ensures Leads(Turn(w, Apply(Persist(snap, i, m, None))), Turn(w, Continue(w.store.value, i, m)))
  {
    var a := Turn(w, Apply(Persist(snap, i, m, None)));
    var b := Turn(w, Apply(Persist(snap, i, m, Some(Read(w.version, w.store)))));
    LeadsOne(a, b);
    LeadsOne(b, Turn(w, Continue(w.store.value, i, m)));
    LeadsOn(a, b, Turn(w, Continue(w.store.value, i, m)));
  }

  /** A slot transition written by its own attempt touches only its replica. */
  lemma SlotWrites(w: World, s: State, i: nat, m: Mutation, s': State)
    requires OnSnap(w, s) && Fresh(w) && HasReplica(s, i) && m.Slot() && !m.Exhaust?
    requires MutateSlot(s, i, s.creation.value.replicas[i].attempt, m) == Write(s')
    ensures Leads(Turn(w, Apply(Persist(s, i, m, None))), Turn(Commit(w, s'), Continue(s', i, m)))
    ensures Moved(w, s, Commit(w, s'), s', i)
  {
    Persists(w, s, i, m, s');
    assert forall op, j :: OwnLive(Commit(w, s'), op, j) == OwnLive(w, op, j);
  }

  // ----- to a server -----------------------------------------------------------------------------------------

  lemma ScansTo(w: World, s: State, i: nat)
    requires OnSnap(w, s) && HasReplica(s, i) && s.creation.value.replicas[i].phase != Proven
    requires s.creation.value.replicas[i].network < s.creation.value.networks
    ensures Leads(Turn(w, Apply(Scan(s, i))), Turn(w, Apply(Lookup(s, i))))
  {
    LeadsOne(Turn(w, Apply(Scan(s, i))), Turn(w, Apply(Lookup(s, i))));
  }

  function Granted(s: State, i: nat, attempt: nat): State
    requires HasReplica(s, i)
  {
    SetReplica(s, i, s.creation.value.replicas[i].(phase := Launching, attempt := attempt))
  }

  function GrantWorld(w: World, s: State, i: nat): World
    requires HasReplica(s, i)
  {
    var c := s.creation.value;
    Commit(w, Granted(s, i, w.nextId)).(nextId := w.nextId + 1,
        creates := w.creates[w.nextId := Create(c.op, i, c.replicas[i].network, CreateStatus.Granted)])
  }

  lemma Acquires(w: World, s: State, i: nat)
    requires OnSnap(w, s) && HasReplica(s, i) && s.creation.value.replicas[i].phase == Pending
    requires OwnLive(w, s.creation.value.op, i) == {}
    ensures Leads(Turn(w, Apply(Lookup(s, i))),
              Turn(GrantWorld(w, s, i), Apply(Launch(Granted(s, i, w.nextId), i))))
  {
    var a, b := Turn(w, Apply(Lookup(s, i))), Turn(w, Apply(AcquireRead(s, i)));
    var c := Turn(w, Apply(AcquireWrite(s, i, Read(w.version, w.store))));
    var d := Turn(GrantWorld(w, s, i), Apply(Launch(Granted(s, i, w.nextId), i)));
    LeadsOne(a, b);
    LeadsOne(b, c);
    LeadsOn(a, b, c);
    LeadsOne(c, d);
    LeadsOn(a, c, d);
  }

  function BornWorld(w: World, s: State, i: nat): World
    requires HasReplica(s, i)
  {
    var c := s.creation.value;
    var grant := Create(c.op, i, c.replicas[i].network, Born(w.nextId + 1));
    GrantWorld(w, s, i).(creates := w.creates[w.nextId := grant],
      calls := w.calls + [Call(c.op, i, c.replicas[i].network)],
      servers := w.servers[w.nextId + 1 := w.nextId], live := w.live + {w.nextId + 1}, nextId := w.nextId + 2)
  }

  /** What is born belongs to replica `i`, and nothing else has changed hands. */
  lemma BornOwns(w: World, s: State, i: nat)
    requires OnSnap(w, s) && Fresh(w) && HasReplica(s, i) && OwnLive(w, s.creation.value.op, i) == {}
    ensures var g := BornWorld(w, s, i);
            && OwnLive(g, s.creation.value.op, i) == {w.nextId + 1}
            && Moved(w, s, g, Granted(s, i, w.nextId), i)
            && (forall sv :: BornOf(g, sv, w.nextId) ==> sv == w.nextId + 1 || sv in w.servers)
  {
    var g, op := BornWorld(w, s, i), s.creation.value.op;
    assert forall sv, j :: sv in w.live ==> (Owned(g, sv, op, j) <==> Owned(w, sv, op, j));
    forall j: nat | j != i ensures OwnLive(g, op, j) == OwnLive(w, op, j) {}
  }

  function FlyingWorld(w: World, s: State, i: nat): World
    requires HasReplica(s, i)
  {
    var c := s.creation.value;
    GrantWorld(w, s, i).(creates := w.creates[w.nextId := Create(c.op, i, c.replicas[i].network, InFlight)],
                         calls := w.calls + [Call(c.op, i, c.replicas[i].network)])
  }

  lemma Launches(w: World, s: State, i: nat)
    requires HasReplica(s, i) && s.creation.value.replicas[i].network < s.creation.value.networks
    ensures Leads(Turn(GrantWorld(w, s, i), Apply(Launch(Granted(s, i, w.nextId), i))),
              Turn(FlyingWorld(w, s, i), Apply(Launched(Granted(s, i, w.nextId), i))))
  {
    var t := Granted(s, i, w.nextId);
    assert t.creation.value.replicas[i].attempt == w.nextId;
    LeadsOne(Turn(GrantWorld(w, s, i), Apply(Launch(t, i))), Turn(FlyingWorld(w, s, i), Apply(Launched(t, i))));
  }

  lemma Delivered(w: World, s: State, i: nat)
    requires Fresh(w) && HasReplica(s, i)
    ensures Leads(Turn(FlyingWorld(w, s, i), Apply(Launched(Granted(s, i, w.nextId), i))),
              Turn(BornWorld(w, s, i), Apply(Confirm(Granted(s, i, w.nextId), i, w.nextId + 1))))
  {
    var t := Granted(s, i, w.nextId);
    assert t.creation.value.replicas[i].attempt == w.nextId;
    Arrives(w, s, i);
    LeadsOne(Turn(FlyingWorld(w, s, i), Apply(Launched(t, i))),
        Turn(BornWorld(w, s, i), Apply(Confirm(t, i, w.nextId + 1))));
  }

  lemma Arrives(w: World, s: State, i: nat)
    requires HasReplica(s, i) && Fresh(w)
    ensures Arrived(FlyingWorld(w, s, i), Apply(Launched(Granted(s, i, w.nextId), i))) == BornWorld(w, s, i)
    ensures FavourApply(BornWorld(w, s, i), Launched(Granted(s, i, w.nextId), i)) == See(w.nextId + 1)
  {
    var g := BornWorld(w, s, i);
    assert BornOf(g, w.nextId + 1, w.nextId);
    assert forall sv :: BornOf(g, sv, w.nextId) ==> sv == w.nextId + 1;
  }

  /** The server is found and attached. */
  lemma Attaches(w: World, s: State, i: nat, server: nat) returns (g: World, s': State)
    requires OnSnap(w, s) && Fresh(w) && HasReplica(s, i)
    requires s.creation.value.replicas[i].phase == Launching && s.creation.value.replicas[i].attempt != 0
    requires server in OwnLive(w, s.creation.value.op, i)
    ensures Leads(Turn(w, Apply(Persist(s, i, Attach(server), None))), Turn(g, Apply(Wait(s', i, server))))
    ensures Moved(w, s, g, s', i) && g.live == w.live && OwnLive(g, s.creation.value.op, i) ==
              OwnLive(w, s.creation.value.op, i)
    ensures var r, r' := s.creation.value.replicas[i], s'.creation.value.replicas[i];
            r'.phase == Attached && r'.server == server
  {
    s' := MutateSlot(s, i, s.creation.value.replicas[i].attempt, Attach(server)).state;
    g := Commit(w, s');
    SlotWrites(w, s, i, Attach(server), s');
  }

  /** The replica's only server, or one of them. */
  ghost predicate At(w: World, s: State, i: nat, server: nat) {
    && OnSnap(w, s) && Fresh(w) && HasReplica(s, i) && server in OwnLive(w, s.creation.value.op, i)
    && s.creation.value.replicas[i].server == server && s.creation.value.replicas[i].phase in {Attached, Active}
  }

  lemma BringsPending(w: World, s: State, i: nat) returns (g: World, s': State, server: nat)
    requires OnSnap(w, s) && Fresh(w) && HasReplica(s, i) && Placed(w, s, i)
    requires s.creation.value.replicas[i].phase == Pending
    ensures Leads(Turn(w, Apply(Lookup(s, i))), Turn(g, Apply(Wait(s', i, server))))
    ensures Moved(w, s, g, s', i) && At(g, s', i, server)
  {
    var t, mid := Granted(s, i, w.nextId), BornWorld(w, s, i);
    server := w.nextId + 1;
    var a, b := Turn(w, Apply(Lookup(s, i))), Turn(GrantWorld(w, s, i), Apply(Launch(t, i)));
    var c, d := Turn(FlyingWorld(w, s, i), Apply(Launched(t, i))), Turn(mid, Apply(Confirm(t, i, server)));
    var e := Turn(mid, Apply(Persist(t, i, Attach(server), None)));
    Acquires(w, s, i);
    Launches(w, s, i);
    LeadsOn(a, b, c);
    Delivered(w, s, i);
    LeadsOn(a, c, d);
    BornOwns(w, s, i);
    Confirms(mid, t, i, server);
    LeadsOn(a, d, e);
    g, s' := Attaches(mid, t, i, server);
    LeadsOn(a, e, Turn(g, Apply(Wait(s', i, server))));
    MovedOn(w, s, mid, t, g, s', i);
  }

  lemma Confirms(w: World, s: State, i: nat, server: nat)
    requires HasReplica(s, i) && OwnLive(w, s.creation.value.op, i) == {server}
    ensures Leads(Turn(w, Apply(Confirm(s, i, server))), Turn(w, Apply(Persist(s, i, Attach(server), None))))
  {
    assert server in OwnLive(w, s.creation.value.op, i);
    LeadsOne(Turn(w, Apply(Confirm(s, i, server))), Turn(w, Apply(Persist(s, i, Attach(server), None))));
  }

  lemma BringsLaunching(w: World, s: State, i: nat) returns (g: World, s': State, server: nat)
    requires OnSnap(w, s) && Fresh(w) && HasReplica(s, i) && Placed(w, s, i)
    requires s.creation.value.replicas[i].phase == Launching
    ensures Leads(Turn(w, Apply(Lookup(s, i))), Turn(g, Apply(Wait(s', i, server))))
    ensures Moved(w, s, g, s', i) && At(g, s', i, server)
  {
    server :| FavourApply(w, Lookup(s, i)) == See(server) && server in OwnLive(w, s.creation.value.op, i);
    var a, b := Turn(w, Apply(Lookup(s, i))), Turn(w, Apply(Persist(s, i, Attach(server), None)));
    LeadsOne(a, b);
    g, s' := Attaches(w, s, i, server);
    LeadsOn(a, b, Turn(g, Apply(Wait(s', i, server))));
  }

  lemma BringsAttached(w: World, s: State, i: nat)
    requires OnSnap(w, s) && Fresh(w) && HasReplica(s, i) && Placed(w, s, i)
    requires s.creation.value.replicas[i].phase in {Attached, Active}
    ensures var server := s.creation.value.replicas[i].server;
            && Leads(Turn(w, Apply(Lookup(s, i))), Turn(w, Apply(Wait(s, i, server))))
            && At(w, s, i, server)
  {
    var server := s.creation.value.replicas[i].server;
    assert server in OwnLive(w, s.creation.value.op, i);
    LeadsOne(Turn(w, Apply(Lookup(s, i))), Turn(w, Apply(Wait(s, i, server))));
  }

  lemma MovedNot(w: World, s: State, i: nat)
    requires OnSnap(w, s) && Fresh(w)
    ensures Moved(w, s, w, s, i)
  {
  }

  /** Wherever replica `i` was left, it comes to a server of its own. */
  lemma Brings(w: World, s: State, i: nat) returns (g: World, s': State, server: nat)
    requires OnSnap(w, s) && Fresh(w) && HasReplica(s, i) && Placed(w, s, i)
    requires s.creation.value.replicas[i].phase != Proven
    ensures Leads(Turn(w, Apply(Scan(s, i))), Turn(g, Apply(Wait(s', i, server))))
    ensures Moved(w, s, g, s', i) && At(g, s', i, server)
  {
    ScansTo(w, s, i);
    if s.creation.value.replicas[i].phase == Pending {
      g, s', server := BringsPending(w, s, i);
    } else if s.creation.value.replicas[i].phase == Launching {
      g, s', server := BringsLaunching(w, s, i);
    } else {
      g, s', server := w, s, s.creation.value.replicas[i].server;
      BringsAttached(w, s, i);
      MovedNot(w, s, i);
    }
    LeadsOn(Turn(w, Apply(Scan(s, i))), Turn(w, Apply(Lookup(s, i))), Turn(g, Apply(Wait(s', i, server))));
  }

  // ----- from a server to a proof -----------------------------------------------------------------------------

  lemma Activates(w: World, s: State, i: nat, server: nat) returns (g: World, s': State)
    requires At(w, s, i, server)
    ensures Leads(Turn(w, Apply(Wait(s, i, server))), Turn(g, Apply(Proof(s', i))))
    ensures Moved(w, s, g, s', i) && At(g, s', i, server) && s'.creation.value.replicas[i].phase == Active
  {
    var a, b := Turn(w, Apply(Wait(s, i, server))), Turn(w, Apply(Persist(s, i, MarkActive(server), None)));
    LeadsOne(a, b);
    if s.creation.value.replicas[i].phase == Active {
      g, s' := w, s;
      PersistKeeps(w, s, i, MarkActive(server));
      MovedNot(w, s, i);
    } else {
      s' := MutateSlot(s, i, s.creation.value.replicas[i].attempt, MarkActive(server)).state;
      g := Commit(w, s');
      SlotWrites(w, s, i, MarkActive(server), s');
      assert OwnLive(g, s.creation.value.op, i) == OwnLive(w, s.creation.value.op, i);
    }
    LeadsOn(a, b, Turn(g, Apply(Proof(s', i))));
  }

  lemma Proves(w: World, s: State, i: nat, server: nat) returns (g: World, s': State)
    requires At(w, s, i, server) && s.creation.value.replicas[i].phase == Active
    ensures Leads(Turn(w, Apply(Proof(s, i))), Turn(g, Apply(Scan(s', i + 1))))
    ensures Moved(w, s, g, s', i) && s'.creation.value.replicas[i].phase == Proven
    ensures s'.creation.value.replicas[i].server == server && server in OwnLive(g, s.creation.value.op, i)
  {
    var a, b := Turn(w, Apply(Proof(s, i))), Turn(w, Apply(Persist(s, i, MarkProven, None)));
    LeadsOne(a, b);
    s' := MutateSlot(s, i, s.creation.value.replicas[i].attempt, MarkProven).state;
    g := Commit(w, s');
    SlotWrites(w, s, i, MarkProven, s');
    assert OwnLive(g, s.creation.value.op, i) == OwnLive(w, s.creation.value.op, i);
    LeadsOn(a, b, Turn(g, Apply(Scan(s', i + 1))));
  }

  /** The replica is proven; if it was not before, on a live server of its own. */
  ghost predicate Done(g: World, s: State, s': State, i: nat)
    requires HasReplica(s, i)
  {
    && HasReplica(s', i) && s'.creation.value.replicas[i].phase == Proven
    && (s.creation.value.replicas[i].phase != Proven ==>
          s'.creation.value.replicas[i].server in OwnLive(g, s.creation.value.op, i))
  }

  lemma One(w: World, s: State, i: nat) returns (g: World, s': State)
    requires OnSnap(w, s) && Fresh(w) && HasReplica(s, i) && Placed(w, s, i)
    ensures Leads(Turn(w, Apply(Scan(s, i))), Turn(g, Apply(Scan(s', i + 1))))
    ensures Moved(w, s, g, s', i) && Done(g, s, s', i)
  {
    var a := Turn(w, Apply(Scan(s, i)));
    if s.creation.value.replicas[i].phase == Proven {
      g, s' := w, s;
      MovedNot(w, s, i);
      LeadsOne(a, Turn(w, Apply(Scan(s, i + 1))));
    } else {
      var w1, s1, server := Brings(w, s, i);
      var w2, s2 := Activates(w1, s1, i, server);
      LeadsOn(a, Turn(w1, Apply(Wait(s1, i, server))), Turn(w2, Apply(Proof(s2, i))));
      g, s' := Proves(w2, s2, i, server);
      LeadsOn(a, Turn(w2, Apply(Proof(s2, i))), Turn(g, Apply(Scan(s', i + 1))));
      MovedOn(w, s, w1, s1, w2, s2, i);
      MovedOn(w, s, w2, s2, g, s', i);
    }
  }

  // ----- all replicas --------------------------------------------------------------------------------------------

  ghost predicate PlacedFrom(w: World, s: State, from: nat) {
    forall j: nat :: from <= j && HasReplica(s, j) ==> Placed(w, s, j)
  }

  /** Replicas below `upto` are done with; the others are as they were. */
  ghost predicate Through(w: World, first: State, g: World, s: State, upto: nat) {
    && OnSnap(g, s) && Fresh(g) && first.creation.Some?
    && s.creation.value.op == first.creation.value.op && s.creation.value.networks == first.creation.value.networks
    && |s.creation.value.replicas| == |first.creation.value.replicas|
    && (forall j: nat :: j < upto && HasReplica(first, j) ==> Done(g, first, s, j))
    && (forall j: nat :: upto <= j && HasReplica(first, j) ==>
          && s.creation.value.replicas[j] == first.creation.value.replicas[j]
          && OwnLive(g, s.creation.value.op, j) == OwnLive(w, s.creation.value.op, j))
  }

  lemma ThroughNext(w: World, first: State, g: World, s: State, h: World, s': State, i: nat)
    requires Through(w, first, g, s, i) && HasReplica(s, i) && Moved(g, s, h, s', i) && Done(h, s, s', i)
    ensures Through(w, first, h, s', i + 1)
  {
    forall j: nat | j < i + 1 && HasReplica(first, j) ensures Done(h, first, s', j) {
      if j < i { assert Done(g, first, s, j); }
    }
  }

  lemma PlacedNext(g: World, s: State, h: World, s': State, i: nat)
    requires PlacedFrom(g, s, i) && Moved(g, s, h, s', i)
    ensures PlacedFrom(h, s', i + 1)
  {
    forall j: nat | i + 1 <= j && HasReplica(s', j) ensures Placed(h, s', j) { assert Placed(g, s, j); }
  }

  lemma {:induction false} All(w: World, first: State, g: World, s: State, i: nat) returns (h: World, s': State)
    requires Through(w, first, g, s, i) && PlacedFrom(g, s, i) && i <= |first.creation.value.replicas|
    ensures Through(w, first, h, s', |first.creation.value.replicas|)
    ensures Leads(Turn(g, Apply(Scan(s, i))), Turn(h, Apply(Scan(s', |first.creation.value.replicas|))))
    decreases |first.creation.value.replicas| - i
  {
    if i == |first.creation.value.replicas| {
      h, s' := g, s;
      LeadsSame(Turn(g, Apply(Scan(s, i))));
    } else {
      var g1, s1 := One(g, s, i);
      ThroughNext(w, first, g, s, g1, s1, i);
      PlacedNext(g, s, g1, s1, i);
      h, s' := All(w, first, g1, s1, i + 1);
      LeadsOn(Turn(g, Apply(Scan(s, i))), Turn(g1, Apply(Scan(s1, i + 1))),
          Turn(h, Apply(Scan(s', |first.creation.value.replicas|))));
    }
  }

  /** The sandbox is ready. */
  ghost predicate IsReady(g: World, first: State) {
    && g.store.Some? && g.store.value.phase == Ready && g.store.value.creation.Some? && first.creation.Some?
    && g.store.value.creation.value.phase == Ready && g.store.value.creation.value.op == first.creation.value.op
    && |g.store.value.creation.value.replicas| == |first.creation.value.replicas|
    && forall j: nat :: HasReplica(first, j) ==> Done(g, first, g.store.value, j)
  }

  lemma Finishes(w: World, first: State, g: World, s: State) returns (h: World)
    requires first.creation.Some? && Through(w, first, g, s, |first.creation.value.replicas|)
    ensures Leads(Turn(g, Apply(Scan(s, |first.creation.value.replicas|))), Turn(h, Stopped)) && IsReady(h, first)
  {
    var n := |first.creation.value.replicas|;
    var a, b := Turn(g, Apply(Scan(s, n))), Turn(g, Apply(Persist(s, n, FinishCreation, None)));
    LeadsOne(a, b);
    forall r | r in s.creation.value.replicas ensures r.phase == Proven {
      var j: nat :| j < n && s.creation.value.replicas[j] == r;
      assert Done(g, first, s, j);
    }
    var s' := SetPhases(s, Ready);
    h := Commit(g, s');
    Persists(g, s, n, FinishCreation, s');
    LeadsOn(a, b, Turn(h, Stopped));
    assert forall op, j :: OwnLive(h, op, j) == OwnLive(g, op, j);
    forall j: nat | HasReplica(first, j) ensures Done(h, first, s', j) { assert Done(g, first, s, j); }
  }

  lemma FromScan(w: World, s: State) returns (h: World)
    requires OnSnap(w, s) && Fresh(w) && PlacedFrom(w, s, 0)
    ensures Leads(Turn(w, Apply(Scan(s, 0))), Turn(h, Stopped)) && IsReady(h, s)
  {
    var g, s' := All(w, s, w, s, 0);
    h := Finishes(w, s, g, s');
    LeadsOn(Turn(w, Apply(Scan(s, 0))), Turn(g, Apply(Scan(s', |s.creation.value.replicas|))), Turn(h, Stopped));
  }

  // ----- what the shared invariant adds -----------------------------------------------------------------------------

  lemma BooksFresh(w: World)
    requires Books(w)
    ensures Fresh(w)
  {
  }

  /** A live server of a replica was born of the attempt that the replica names. */
  lemma OwnIsHeld(w: World, c: Creation, i: nat, server: nat)
    requires Books(w) && CreationOk(w, c) && i < |c.replicas| && server in OwnLive(w, c.op, i)
    ensures w.servers[server] == c.replicas[i].attempt != 0 && c.replicas[i].phase != Gone
    ensures Held(c.replicas[i].phase) ==> c.replicas[i].server == server
  {
    var t := w.servers[server];
    assert LifecycleSafety.At(w, t, c.op, i) && Outstanding(w, t);
    assert ReplicaOk(w, c.op, i, c.replicas[i]);
  }

  lemma StartableIsPlaced(w: World, s: State, i: nat)
    requires Books(w) && s.creation.Some? && CreationOk(w, s.creation.value) && HasReplica(s, i) && Startable(w, s, i)
    ensures Placed(w, s, i)
  {
    var c := s.creation.value;
    var r, own := c.replicas[i], OwnLive(w, c.op, i);
    assert ReplicaOk(w, c.op, i, r);
    forall server | server in own
      ensures w.servers[server] == r.attempt != 0 && (Held(r.phase) ==> r.server == server)
    {
      OwnIsHeld(w, c, i, server);
    }
    if r.phase == Pending { assert own == {}; }
  }

  lemma CreatingIsPlaced(events: seq<Event>)
    requires var w := Run(events).world;
             && w.store.Some? && BothCreating(w.store.value)
             && forall i: nat :: HasReplica(w.store.value, i) ==> Startable(w, w.store.value, i)
    ensures var w := Run(events).world; Fresh(w) && PlacedFrom(w, w.store.value, 0)
  {
    RunInv(events);
    var w := Run(events).world;
    BooksFresh(w);
    forall i: nat | HasReplica(w.store.value, i) ensures Placed(w, w.store.value, i) {
      StartableIsPlaced(w, w.store.value, i);
    }
  }

  // ----- a new intent ------------------------------------------------------------------------------------------------

  function Opens(w: World, spec: Spec): World {
    Commit(w, NewIntent(w.nextId, spec.replicas, spec.networks))
      .(nextId := w.nextId + 1, specs := w.specs[w.nextId := spec])
  }

  lemma OpensIntent(w: World, spec: Spec)
    requires w.store.None? || w.store.value.phase == Destroyed
    ensures Leads(Turn(w, Begin(ApplyRead(spec))),
              Turn(Opens(w, spec), Apply(Scan(NewIntent(w.nextId, spec.replicas, spec.networks), 0))))
  {
    var a, b := Turn(w, Begin(ApplyRead(spec))), Turn(w, Begin(ApplyIntent(spec, w.version)));
    var c := Turn(Opens(w, spec), Apply(Scan(NewIntent(w.nextId, spec.replicas, spec.networks), 0)));
    LeadsOne(a, b);
    LeadsOne(b, c);
    LeadsOn(a, b, c);
  }

  lemma NewIsPlaced(w: World, spec: Spec)
    requires Books(w) && spec.networks > 0
    ensures var g := Opens(w, spec); Fresh(g) && OnSnap(g, g.store.value) && PlacedFrom(g, g.store.value, 0)
  {
    var g := Opens(w, spec);
    forall i: nat | HasReplica(g.store.value, i) ensures Placed(g, g.store.value, i) {
      assert OwnLive(g, w.nextId, i) == {};
    }
  }

  // ----- in every run ------------------------------------------------------------------------------------------------

  lemma Spawned(events: seq<Event>, who: nat, spec: Spec)
    requires who !in Run(events).workers
    ensures var y := Run(events + [SpawnApply(who, spec)]);
            who in y.workers && y.world == Run(events).world && y.workers[who] == Begin(ApplyRead(spec))
  {
    RunNext(events, SpawnApply(who, spec));
  }

  lemma BooksHold(events: seq<Event>)
    ensures Books(Run(events).world)
  {
    RunInv(events);
  }

  lemma CreatesFrom(events: seq<Event>, who: nat, spec: Spec) returns (script: seq<Event>)
    requires who in Run(events).workers && Run(events).workers[who] == Begin(ApplyRead(spec)) && spec.networks > 0
    requires Run(events).world.store.None? || Run(events).world.store.value.phase == Destroyed
    ensures AllFavoured(events, script, who)
    ensures IsReady(Run(events + script).world, NewIntent(Run(events).world.nextId, spec.replicas, spec.networks))
  {
    var w := Run(events).world;
    BooksHold(events);
    OpensIntent(w, spec);
    NewIsPlaced(w, spec);
    var h := FromScan(Opens(w, spec), Opens(w, spec).store.value);
    LeadsOn(Turn(w, Begin(ApplyRead(spec))), Turn(Opens(w, spec), Apply(Scan(Opens(w, spec).store.value, 0))),
        Turn(h, Stopped));
    script := LeadsRun(events, who, Turn(h, Stopped));
  }

  lemma ResumesFrom(events: seq<Event>, who: nat, spec: Spec) returns (script: seq<Event>)
    requires who in Run(events).workers && Run(events).workers[who] == Begin(ApplyRead(spec))
    requires var w := Run(events).world;
             && w.store.Some? && BothCreating(w.store.value) && Resumable(w.store.value, spec.replicas)
             && forall i: nat :: HasReplica(w.store.value, i) ==> Startable(w, w.store.value, i)
    ensures AllFavoured(events, script, who) && IsReady(Run(events + script).world, Run(events).world.store.value)
  {
    var w := Run(events).world;
    CreatingIsPlaced(events);
    var a, b := Turn(w, Begin(ApplyRead(spec))), Turn(w, Apply(Scan(w.store.value, 0)));
    LeadsOne(a, b);
    var h := FromScan(w, w.store.value);
    LeadsOn(a, b, Turn(h, Stopped));
    script := LeadsRun(events, who, Turn(h, Stopped));
  }

  /** So many replicas, each proven on a live server of its own. */
  ghost predicate ReadyWith(z: World, replicas: nat) {
    && z.store.Some? && z.store.value.phase == Ready && z.store.value.creation.Some?
    && |z.store.value.creation.value.replicas| == replicas
    && forall i: nat :: i < replicas ==>
         var c := z.store.value.creation.value;
         c.replicas[i].phase == Proven && c.replicas[i].server in OwnLive(z, c.op, i)
  }

  lemma NewIsReady(z: World, op: nat, spec: Spec)
    requires IsReady(z, NewIntent(op, spec.replicas, spec.networks))
    ensures ReadyWith(z, spec.replicas)
  {
    var first := NewIntent(op, spec.replicas, spec.networks);
    var c := z.store.value.creation.value;
    forall i: nat | i < spec.replicas
      ensures c.replicas[i].phase == Proven && c.replicas[i].server in OwnLive(z, c.op, i)
    {
      assert HasReplica(first, i) && first.creation.value.replicas[i].phase == Pending;
      assert Done(z, first, z.store.value, i);
    }
  }

  /**
   From every reachable state without a sandbox, or with a destroyed one: an Apply left alone, with at least
   one network, ends `ready` with as many replicas as specified, each proven on a live server of its own.
   */
  lemma ApplyCreates(events: seq<Event>, who: nat, spec: Spec) returns (script: seq<Event>)
    requires who !in Run(events).workers && spec.networks > 0
    requires Run(events).world.store.None? || Run(events).world.store.value.phase == Destroyed
    ensures AllFavoured(events + [SpawnApply(who, spec)], script, who)
    ensures ReadyWith(Run(events + [SpawnApply(who, spec)] + script).world, spec.replicas)
  {
    Spawned(events, who, spec);
    script := CreatesFrom(events + [SpawnApply(who, spec)], who, spec);
    NewIsReady(Run(events + [SpawnApply(who, spec)] + script).world, Run(events).world.nextId, spec);
  }

  /**
   From every reachable state in which a sandbox is being created, wherever its workers stopped: an Apply left
   alone ends `ready`, if every replica can be taken up.
   */
  lemma ApplyResumes(events: seq<Event>, who: nat, spec: Spec) returns (script: seq<Event>)
    requires who !in Run(events).workers
    requires var w := Run(events).world;
             && w.store.Some? && BothCreating(w.store.value) && Resumable(w.store.value, spec.replicas)
             && forall i: nat :: HasReplica(w.store.value, i) ==> Startable(w, w.store.value, i)
    ensures AllFavoured(events + [SpawnApply(who, spec)], script, who)
    ensures IsReady(Run(events + [SpawnApply(who, spec)] + script).world, Run(events).world.store.value)
  {
    Spawned(events, who, spec);
    script := ResumesFrom(events + [SpawnApply(who, spec)], who, spec);
  }
}
