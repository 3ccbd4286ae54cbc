/**
 How far the public resource listing mirrors the resource intents, and who may delete a
 server. A cleanup takes the listing of its replica away before it looks at whether its
 delete succeeded; otherwise the listing is exact.
 */
module LifecycleListing {
  import opened Base
  import opened LifecycleState
  import opened LifecycleMachine
  import opened LifecycleSafety
  import opened LifecycleSteps
  import opened LifecycleTeardown
  import opened Lifecycle
  import opened LifecycleCommits
  import opened CreateBound
  import opened LifecycleIntent

  /** The phases in which a replica is supposed to have a usable server. */
  predicate Serving(p: ReplicaPhase) {
    p in {Attached, Active, Proven}
  }

  predicate Shown(listed: seq<Listed>, i: nat) {
    exists e :: e in listed && e.replica == i
  }

  // ----- the listing as a set -------------------------------------------------------------------

  ghost predicate OncePer(listed: seq<Listed>) {
    forall k, l :: 0 <= k < l < |listed| ==>
        listed[k].replica != listed[l].replica && listed[k].server != listed[l].server
  }

  lemma {:induction false} RemoveMembers(listed: seq<Listed>, server: nat)
    requires OncePer(listed)
    ensures forall e :: e in RemoveListed(listed, server) <==> e in listed && e.server != server
    ensures OncePer(RemoveListed(listed, server))
  {
    if listed != [] {
      var head, tail := listed[0], listed[1..];
      assert listed == [head] + tail;
      RemoveMembers(tail, server);
      if head.server != server {
        var rest := RemoveListed(tail, server);
        forall k | 0 <= k < |rest| ensures rest[k].replica != head.replica && rest[k].server != head.server {
          assert rest[k] in rest && rest[k] in tail;
        }
      }
    }
  }

  lemma UpdateNew(listed: seq<Listed>, server: nat, i: nat)
    requires OncePer(listed) && forall e :: e in listed ==> e.replica != i && e.server != server
    ensures UpdateListed(listed, server, i) == listed + [Listed(server, i, false)]
    ensures OncePer(listed + [Listed(server, i, false)])
  {
    forall j | 0 <= j < |listed| ensures listed[j].replica != i
        && listed[j].server != server { assert listed[j] in listed; }
    var s := listed + [Listed(server, i, false)];
    assert forall j :: 0 <= j < |listed| ==> s[j] == listed[j];
  }

  lemma UpdateSame(listed: seq<Listed>, server: nat, i: nat)
    requires OncePer(listed) && forall e :: e in listed ==> (e.replica == i <==> e.server == server)
    requires Shown(listed, i)
    ensures var s := UpdateListed(listed, server, i);
            OncePer(s) && |s| == |listed|
            && (forall k :: 0 <= k < |s| ==> s[k].replica == listed[k].replica && s[k].server == listed[k].server)
            && (forall k :: 0 <= k < |s| ==> if s[k].replica == i then !s[k].deleted else s[k] == listed[k])
  {
    var k := ListIndex(listed, server, i);
    var e :| e in listed && e.replica == i;
    var j :| 0 <= j < |listed| && listed[j] == e;
    assert k < |listed| && listed[k] in listed;
    Overwritten(listed, k, Listed(server, i, false));
  }

  lemma Overwritten(listed: seq<Listed>, k: nat, e: Listed)
    requires OncePer(listed) && k < |listed| && listed[k].replica == e.replica && listed[k].server == e.server
    ensures var s := listed[k := e];
            OncePer(s) && forall m :: 0 <= m < |s| ==>
                s[m].replica == listed[m].replica && s[m].server == listed[m].server
  {
  }

  // ----- the invariant ---------------------------------------------------------------------------

  /** An entry names a server of its replica: while it holds one, that very server; once it is gone, struck out. */
  ghost predicate EntryOk(w: World, c: Creation, e: Listed) {
    && e.replica < |c.replicas| && Owned(w, e.server, c.op, e.replica)
    && var r := c.replicas[e.replica];
       if e.deleted then r.phase == Gone else Held(r.phase) && r.attempt != 0 && e.server == r.server
  }

  /** The server of a replica is the one its attempt bore. */
  ghost predicate Bears(w: World, op: nat, i: nat, r: Replica) {
    r.server in w.servers && w.servers[r.server] == r.attempt && At(w, r.attempt, op, i)
  }

  ghost predicate SlotOkay(w: World, s: State, op: nat, i: nat, r: Replica) {
    && (Held(r.phase) && r.attempt != 0 ==> Bears(w, op, i, r))
    && (Serving(r.phase) ==> r.attempt != 0 && (Shown(s.listed, i) <==> r.attempt !in w.spared))
  }

  ghost predicate ListingOk(w: World, s: State) {
    s.creation.Some? ==>
      var c := s.creation.value;
      && OncePer(s.listed) && (forall e :: e in s.listed ==> EntryOk(w, c, e))
      && forall i :: 0 <= i < |c.replicas| ==> SlotOkay(w, s, c.op, i, c.replicas[i])
  }

  /** A failed delete belongs to an operation that is not creating any more. */
  ghost predicate SparedOk(w: World) {
    forall t :: t in w.spared && t != 0 ==> t in w.creates && (Current(w, w.creates[t].op) ==> !IsCreating(w))
  }

  ghost predicate Mirrored(w: World) {
    SparedOk(w) && (w.store.Some? ==> ListingOk(w, w.store.value))
  }

  /** What a worker that cleans up knows of its server. */
  ghost predicate CleanOk(w: World, x: Worker) {
    x.Begin? ==>
      match x.beginner
      case CleanDelete(op, index, attempt, server, prior) => Cleans(w, op, index, attempt, server, prior)
      case CleanFinish(op, index, attempt, server, prior, _, _) => Cleans(w, op, index, attempt, server, prior)
      case _ => true
  }

  ghost predicate Cleans(w: World, op: nat, index: nat, attempt: nat, server: nat, prior: ReplicaPhase) {
    && Owned(w, server, op, index) && (attempt != 0 ==> w.servers[server] == attempt)
        && (Serving(prior) ==> attempt != 0)
    && (Current(w, op) ==> !IsCreating(w) && AttemptIs(w, op, index, attempt))
  }

  /** Once an operation is not creating any more, its replicas keep their attempts. */
  ghost predicate AttemptsKept(w: World, g: World) {
    !IsCreating(w) && w.store.Some? && w.store.value.creation.Some? && Current(g, w.store.value.creation.value.op) ==>
      var c, c' := w.store.value.creation.value, g.store.value.creation.value;
      !IsCreating(g) && |c'.replicas| == |c.replicas|
          && forall i :: 0 <= i < |c.replicas| ==> c'.replicas[i].attempt == c.replicas[i].attempt
  }

  // ----- it survives what leaves the listing alone ----------------------------------------------------

  lemma OwnedStays(w: World, g: World, server: nat, op: nat, i: nat)
    requires Evolves(w, g) && Owned(w, server, op, i)
    ensures Owned(g, server, op, i) && g.servers[server] == w.servers[server]
  {
  }

  /** The listing and the replicas that it is about are as they were. */
  lemma ListingStays(w: World, g: World, s: State, s': State)
    requires Evolves(w, g) && ListingOk(w, s) && g.spared == w.spared && s'.listed == s.listed
    requires s'.creation.Some? ==> s.creation.Some? && s'.creation.value.op == s.creation.value.op
    requires s'.creation.Some? ==> s'.creation.value.replicas == s.creation.value.replicas
    ensures ListingOk(g, s')
  {
    if s'.creation.Some? {
      var c, c' := s.creation.value, s'.creation.value;
      forall e | e in s'.listed ensures EntryOk(g, c', e) {
        assert EntryOk(w, c, e);
        OwnedStays(w, g, e.server, c.op, e.replica);
      }
      forall i | 0 <= i < |c'.replicas| ensures SlotOkay(g, s', c'.op, i, c'.replicas[i]) {
        assert SlotOkay(w, s, c.op, i, c.replicas[i]);
      }
    }
  }

  lemma SparedStays(w: World, g: World)
    requires Evolves(w, g) && SparedOk(w) && g.spared == w.spared && Books(w)
    requires IsCreating(g) && Current(g, g.store.value.creation.value.op) ==>
               (IsCreating(w) && Current(w, g.store.value.creation.value.op))
                   || g.store.value.creation.value.op >= w.nextId
    ensures SparedOk(g)
  {
  }

  lemma MirrorStays(w: World, g: World)
    requires Core(w) && Evolves(w, g) && Mirrored(w) && g.store == w.store && g.spared == w.spared
    ensures Mirrored(g)
  {
    SparedStays(w, g);
    if w.store.Some? { ListingStays(w, g, w.store.value, w.store.value); }
  }

  /** A write that leaves listing and replicas alone, or opens a new operation. */
  lemma WriteMirrored(w: World, g: World)
    requires Core(w) && Evolves(w, g) && Mirrored(w) && g.spared == w.spared && g.store.Some? && w.store.Some?
    requires g.store.value.listed == w.store.value.listed && w.store.value.creation.Some?
              && g.store.value.creation.Some?
    requires g.store.value.creation.value.op == w.store.value.creation.value.op
    requires g.store.value.creation.value.replicas == w.store.value.creation.value.replicas
    requires IsCreating(g) ==> IsCreating(w)
    ensures Mirrored(g)
  {
    SparedStays(w, g);
    ListingStays(w, g, w.store.value, g.store.value);
  }

  // ----- a write that replaces one replica ---------------------------------------------------------------

  /** Entries of other replicas are the same. */
  ghost predicate SameElsewhere(a: seq<Listed>, b: seq<Listed>, index: nat) {
    forall e :: e in a + b && e.replica != index ==> e in a && e in b
  }

  predicate Has(listed: seq<Listed>, i: nat, server: nat) {
    exists e :: e in listed && e.replica == i && e.server == server
  }

  lemma ShownElsewhere(a: seq<Listed>, b: seq<Listed>, index: nat, i: nat)
    requires SameElsewhere(a, b, index) && i != index
    ensures Shown(a, i) <==> Shown(b, i)
  {
    if e :| e in a && e.replica == i { assert e in a + b; }
    if e :| e in b && e.replica == i { assert e in a + b; }
  }

  lemma ReplaceListing(w: World, g: World, s: State, s': State, index: nat)
    requires Evolves(w, g) && s.creation.Some? && s'.creation.Some? && ListingOk(w, s)
              && index < |s.creation.value.replicas|
    requires s'.creation.value.op == s.creation.value.op && |s'.creation.value.replicas| == |s.creation.value.replicas|
    requires forall i :: 0 <= i < |s.creation.value.replicas| && i != index ==>
               s'.creation.value.replicas[i] == s.creation.value.replicas[i]
    requires OncePer(s'.listed) && SameElsewhere(s.listed, s'.listed, index)
    requires forall e :: e in s'.listed && e.replica == index ==> EntryOk(g, s'.creation.value, e)
    requires SlotOkay(g, s', s'.creation.value.op, index, s'.creation.value.replicas[index])
    requires var rs := s.creation.value.replicas;
             forall i :: 0 <= i < |rs| && i != index && Serving(rs[i].phase) ==>
               (rs[i].attempt in g.spared <==> rs[i].attempt in w.spared)
    ensures ListingOk(g, s')
  {
    var c, c' := s.creation.value, s'.creation.value;
    forall e | e in s'.listed ensures EntryOk(g, c', e) {
      if e.replica != index {
        assert e in s.listed + s'.listed;
        assert EntryOk(w, c, e);
        OwnedStays(w, g, e.server, c.op, e.replica);
      }
    }
    forall i | 0 <= i < |c'.replicas| ensures SlotOkay(g, s', c'.op, i, c'.replicas[i]) {
      if i != index {
        assert SlotOkay(w, s, c.op, i, c.replicas[i]);
        ShownElsewhere(s.listed, s'.listed, index, i);
      }
    }
  }

  /** Servers of different replicas are different. */
  lemma OwnedApart(w: World, c: Creation, listed: seq<Listed>, server: nat, i: nat)
    requires (forall e :: e in listed ==> EntryOk(w, c, e)) && Owned(w, server, c.op, i)
    ensures forall e :: e in listed && e.server == server ==> e.replica == i
  {
    forall e | e in listed && e.server == server ensures e.replica == i { assert EntryOk(w, c, e); }
  }

  /** Removing a replica's server leaves the other entries, and none of its own. */
  lemma RemoveOwn(w: World, s: State, server: nat, i: nat)
    requires s.creation.Some? && ListingOk(w, s) && i < |s.creation.value.replicas|
              && Owned(w, server, s.creation.value.op, i)
    requires s.creation.value.replicas[i].phase != Gone
    requires Held(s.creation.value.replicas[i].phase) && s.creation.value.replicas[i].attempt != 0 ==>
               s.creation.value.replicas[i].server == server
    ensures var b := RemoveListed(s.listed, server);
            OncePer(b) && SameElsewhere(s.listed, b, i) && !Shown(b, i)
  {
    var b := RemoveListed(s.listed, server);
    RemoveMembers(s.listed, server);
    OwnedApart(w, s.creation.value, s.listed, server, i);
    forall e | e in s.listed && e.replica == i ensures e.server == server { assert EntryOk(w, s.creation.value, e); }
  }

  /** A replica that holds no server has no entry. */
  lemma NotShown(w: World, s: State, i: nat)
    requires s.creation.Some? && ListingOk(w, s) && i < |s.creation.value.replicas|
    requires var r := s.creation.value.replicas[i]; r.phase != Gone && !(Held(r.phase) && r.attempt != 0)
    ensures !Shown(s.listed, i)
  {
    forall e | e in s.listed ensures e.replica != i { assert EntryOk(w, s.creation.value, e); }
  }

  lemma SameIsElsewhere(listed: seq<Listed>, index: nat)
    ensures SameElsewhere(listed, listed, index)
  {
  }

  // ----- Apply ------------------------------------------------------------------------------------------------

  /** Attaching appends the one entry of the replica. */
  lemma AttachListed(w: World, op: nat, index: nat, attempt: nat, server: nat)
    requires Core(w) && Mirrored(w) && w.store.Some? && attempt != 0 && Mine(w, op, index, attempt, server)
    requires MutateCreation(w.store.value, op, index, attempt, Attach(server)).Write?
    requires Evolves(w, Commit(w, MutateCreation(w.store.value, op, index, attempt, Attach(server)).state))
    ensures ListingOk(Commit(w, MutateCreation(w.store.value, op, index, attempt, Attach(server)).state),
                      MutateCreation(w.store.value, op, index, attempt, Attach(server)).state)
  {
    var s, s' := w.store.value, MutateCreation(w.store.value, op, index, attempt, Attach(server)).state;
    var c := s.creation.value;
    assert AttemptIs(w, op, index, attempt);
    NotShown(w, s, index);
    OwnedApart(w, c, s.listed, server, index);
    UpdateNew(s.listed, server, index);
    var e := Listed(server, index, false);
    assert s'.listed == s.listed + [e] && e in s'.listed;
    assert SameElsewhere(s.listed, s'.listed, index);
    assert attempt !in w.spared by { assert IsCreating(w) && w.creates[attempt].op == op; }
    ReplaceListing(w, Commit(w, s'), s, s', index);
  }

  lemma ActiveListed(w: World, op: nat, index: nat, attempt: nat, server: nat)
    requires Core(w) && Mirrored(w) && w.store.Some?
              && MutateCreation(w.store.value, op, index, attempt, MarkActive(server)).Write?
    requires Evolves(w, Commit(w, MutateCreation(w.store.value, op, index, attempt, MarkActive(server)).state))
    ensures ListingOk(Commit(w, MutateCreation(w.store.value, op, index, attempt, MarkActive(server)).state),
                      MutateCreation(w.store.value, op, index, attempt, MarkActive(server)).state)
  {
    var s, s' := w.store.value, MutateCreation(w.store.value, op, index, attempt, MarkActive(server)).state;
    var c := s.creation.value;
    var r := c.replicas[index];
    assert SlotOkay(w, s, c.op, index, r);
    assert r.attempt !in w.spared by { assert IsCreating(w) && w.creates[r.attempt].op == op; }
    OwnedApart(w, c, s.listed, server, index);
    forall e | e in s.listed ensures e.replica == index <==> e.server == server { assert EntryOk(w, c, e); }
    UpdateSame(s.listed, server, index);
    SamePlaces(s.listed, s'.listed, index);
    forall e | e in s'.listed && e.replica == index ensures EntryOk(Commit(w, s'), s'.creation.value, e) {
      var k :| 0 <= k < |s'.listed| && s'.listed[k] == e;
      assert s.listed[k] in s.listed;
    }
    ReplaceListing(w, Commit(w, s'), s, s', index);
  }

  /** Entry by entry the same replica and server, and the very same entry elsewhere. */
  lemma SamePlaces(a: seq<Listed>, b: seq<Listed>, index: nat)
    requires |a| == |b| && forall k :: 0 <= k < |b| ==> b[k].replica == a[k].replica && b[k].server == a[k].server
    requires forall k :: 0 <= k < |b| && b[k].replica != index ==> b[k] == a[k]
    ensures SameElsewhere(a, b, index) && forall i :: Shown(a, i) <==> Shown(b, i)
    ensures forall i, v :: Has(a, i, v) <==> Has(b, i, v)
  {
    forall e | e in a + b && e.replica != index ensures e in a && e in b {
      var k :| 0 <= k < |a| && (a[k] == e || b[k] == e);
      assert a[k] in a && b[k] in b;
    }
    forall i, v ensures Has(a, i, v) <==> Has(b, i, v) {
      if Has(a, i, v) {
        var e :| e in a && e.replica == i && e.server == v;
        var k :| 0 <= k < |a| && a[k] == e;
        assert b[k] in b;
      }
      if Has(b, i, v) {
        var e :| e in b && e.replica == i && e.server == v;
        var k :| 0 <= k < |b| && b[k] == e;
        assert a[k] in a;
      }
    }
    forall i ensures Shown(a, i) <==> Shown(b, i) {
      if e :| e in a && e.replica == i { assert Has(a, i, e.server) && Has(b, i, e.server); }
      if e :| e in b && e.replica == i { assert Has(b, i, e.server) && Has(a, i, e.server); }
    }
  }

  lemma ExhaustListed(w: World, op: nat, index: nat, attempt: nat, server: nat)
    requires Core(w) && Mirrored(w) && w.store.Some?
              && MutateCreation(w.store.value, op, index, attempt, Exhaust(server)).Write?
    requires Evolves(w, Commit(w, MutateCreation(w.store.value, op, index, attempt, Exhaust(server)).state))
    ensures ListingOk(Commit(w, MutateCreation(w.store.value, op, index, attempt, Exhaust(server)).state),
                      MutateCreation(w.store.value, op, index, attempt, Exhaust(server)).state)
  {
    var s, s' := w.store.value, MutateCreation(w.store.value, op, index, attempt, Exhaust(server)).state;
    assert SlotOkay(w, s, op, index, s.creation.value.replicas[index]);
    RemoveOwn(w, s, server, index);
    ReplaceListing(w, Commit(w, s'), s, s', index);
  }

  lemma ProvenListed(w: World, op: nat, index: nat, attempt: nat)
    requires Core(w) && Mirrored(w) && w.store.Some?
              && MutateCreation(w.store.value, op, index, attempt, MarkProven).Write?
    requires Evolves(w, Commit(w, MutateCreation(w.store.value, op, index, attempt, MarkProven).state))
    ensures ListingOk(Commit(w, MutateCreation(w.store.value, op, index, attempt, MarkProven).state),
                      MutateCreation(w.store.value, op, index, attempt, MarkProven).state)
  {
    var s, s' := w.store.value, MutateCreation(w.store.value, op, index, attempt, MarkProven).state;
    assert SlotOkay(w, s, op, index, s.creation.value.replicas[index]);
    SameIsElsewhere(s.listed, index);
    forall e | e in s'.listed && e.replica == index ensures EntryOk(Commit(w, s'), s'.creation.value, e) {
      assert EntryOk(w, s.creation.value, e);
    }
    ReplaceListing(w, Commit(w, s'), s, s', index);
  }

  lemma SlotMirrored(w: World, x: Reconciler, s: State)
    requires Core(w) && Mirrored(w) && ReconcilerOk(w, x) && x.Persist? && x.mutation.Slot()
              && HasReplica(x.snap, x.index)
    requires MutateRead(x.snap, x.index, x.mutation, Read(w.version, w.store)) == Write(s) && Evolves(w, Commit(w, s))
    ensures Mirrored(Commit(w, s))
  {
    var op, a := x.snap.creation.value.op, x.snap.creation.value.replicas[x.index].attempt;
    SlotAscends(w.store.value, op, x.index, a, x.mutation);
    match x.mutation {
      case Attach(server) => AttachListed(w, op, x.index, a, server);
      case MarkActive(server) => ActiveListed(w, op, x.index, a, server);
      case Exhaust(server) => ExhaustListed(w, op, x.index, a, server);
      case MarkProven => ProvenListed(w, op, x.index, a);
      case _ =>
    }
    SparedStays(w, Commit(w, s));
  }

  lemma PersistMirrored(w: World, x: Reconciler, reply: Reply)
    requires Core(w) && Mirrored(w) && ReconcilerOk(w, x) && x.Persist?
    requires Evolves(w, StepPersist(w, x.snap, x.index, x.mutation, x.read, reply).world)
    ensures Mirrored(StepPersist(w, x.snap, x.index, x.mutation, x.read, reply).world)
  {
    var g := StepPersist(w, x.snap, x.index, x.mutation, x.read, reply).world;
    if g != w {
      var o := MutateRead(x.snap, x.index, x.mutation, x.read.value);
      assert x.read.value.state == w.store && o.Write? && g == Commit(w, o.state);
      if x.mutation.Slot() { SlotMirrored(w, x, o.state); } else { WriteMirrored(w, g); }
    }
  }

  lemma AcquireMirrored(w: World, x: Reconciler, reply: Reply)
    requires Core(w) && Mirrored(w) && ReconcilerOk(w, x) && x.AcquireWrite?
    requires Evolves(w, StepAcquireWrite(w, x.snap, x.index, x.claim, reply).world)
    ensures Mirrored(StepAcquireWrite(w, x.snap, x.index, x.claim, reply).world)
  {
    var g := StepAcquireWrite(w, x.snap, x.index, x.claim, reply).world;
    if g != w {
      assert x.claim.state == w.store;
      var s, s' := w.store.value, g.store.value;
      AcquireAscends(s, x.snap.creation.value.op, x.index, w.nextId);
      NotShown(w, s, x.index);
      SameIsElsewhere(s.listed, x.index);
      ReplaceListing(w, g, s, s', x.index);
      SparedStays(w, g);
    }
  }

  lemma ReconcileMirrored(w: World, x: Reconciler, reply: Reply)
    requires Core(w) && Mirrored(w) && ReconcilerOk(w, x) && Evolves(w, ActReconcile(w, x, reply).world)
    ensures Mirrored(ActReconcile(w, x, reply).world)
  {
    if x.Persist? {
      PersistMirrored(w, x, reply);
    } else if x.AcquireWrite? {
      AcquireMirrored(w, x, reply);
    } else {
      QuietTurn(w, x, reply);
      MirrorStays(w, ActReconcile(w, x, reply).world);
    }
  }

  // ----- cleanup ------------------------------------------------------------------------------------------------

  lemma ClaimListed(w: World, op: nat, index: nat, attempt: nat, server: nat)
    requires Core(w) && Mirrored(w) && w.store.Some? && Mine(w, op, index, attempt, server)
    requires ClaimCleanup(w.store.value, op, index, attempt, server).Write?
    requires Evolves(w, Commit(w, ClaimCleanup(w.store.value, op, index, attempt, server).state))
    ensures Mirrored(Commit(w, ClaimCleanup(w.store.value, op, index, attempt, server).state))
    ensures Cleans(w, op, index, attempt, server, w.store.value.creation.value.replicas[index].phase)
  {
    var s, s' := w.store.value, ClaimCleanup(w.store.value, op, index, attempt, server).state;
    var r := s.creation.value.replicas[index];
    var g := Commit(w, s');
    assert AttemptIs(w, op, index, attempt) && SlotOkay(w, s, op, index, r);
    if Held(r.phase) && attempt != 0 {
      assert w.creates[attempt].status == Born(r.server) && w.creates[attempt].status == Born(server);
    } else {
      NotShown(w, s, index);
    }
    SameIsElsewhere(s.listed, index);
    forall e | e in s'.listed && e.replica == index
        ensures EntryOk(g, s'.creation.value, e) { assert EntryOk(w, s.creation.value, e); }
    ReplaceListing(w, g, s, s', index);
    SparedStays(w, g);
  }

  /** A cleanup leaves a serving replica unlisted exactly if its delete failed and the replica was serving before. */
  lemma FinishUnlistsIff(s: State, op: nat, index: nat, attempt: nat, server: nat, prior: ReplicaPhase, deleted: bool)
    requires FinishCleanup(s, op, index, attempt, server, prior, deleted).Write?
    requires OncePer(s.listed) && forall e :: e in s.listed && e.replica == index ==> e.server == server
    ensures var s' := FinishCleanup(s, op, index, attempt, server, prior, deleted).state;
            Serving(s'.creation.value.replicas[index].phase) && !Shown(s'.listed, index) <==> !deleted && Serving(prior)
  {
    RemoveMembers(s.listed, server);
  }

  lemma FinishListed(w: World, op: nat, index: nat, attempt: nat, server: nat, prior: ReplicaPhase, deleted: bool)
    requires Core(w) && Mirrored(w) && w.store.Some? && Cleans(w, op, index, attempt, server, prior) && prior != Gone
    requires FinishCleanup(w.store.value, op, index, attempt, server, prior, deleted).Write?
    requires Evolves(w,
              Cleaned(w, FinishCleanup(w.store.value, op, index, attempt, server, prior, deleted).state, attempt,
              deleted))
    ensures Mirrored(Cleaned(w, FinishCleanup(w.store.value, op, index, attempt, server, prior, deleted).state,
              attempt, deleted))
  {
    var s, s' := w.store.value, FinishCleanup(w.store.value, op, index, attempt, server, prior, deleted).state;
    var c := s.creation.value;
    var g := Cleaned(w, s', attempt, deleted);
    assert SlotOkay(w, s, op, index, c.replicas[index]);
    RemoveOwn(w, s, server, index);
    forall i | 0 <= i < |c.replicas| && i != index && Serving(c.replicas[i].phase)
        ensures c.replicas[i].attempt != attempt {
      assert SlotOkay(w, s, op, i, c.replicas[i]);
    }
    ReplaceListing(w, g, s, s', index);
    SparedNext(w, g, op, index, attempt);
  }

  lemma SparedNext(w: World, g: World, op: nat, index: nat, attempt: nat)
    requires SparedOk(w) && g.creates == w.creates && g.spared <= w.spared + {attempt}
    requires attempt != 0 ==> At(w, attempt, op, index)
    requires g.store.Some? && g.store.value.creation.Some? && !IsCreating(g) && !IsCreating(w)
    ensures SparedOk(g)
  {
  }

  lemma IntentMirrored(w: World, spec: Spec)
    requires Core(w) && Mirrored(w) && Evolves(w, WithIntent(w, spec))
    ensures Mirrored(WithIntent(w, spec))
  {
    SparedStays(w, WithIntent(w, spec));
  }

  lemma CleanClaimMirrored(w: World, x: Beginner, reply: Reply)
    requires Core(w) && Mirrored(w) && BeginnerOk(w, x) && x.CleanClaim?
              && Evolves(w, ActBeginOrClean(w, x, reply).world)
    ensures var turn := ActBeginOrClean(w, x, reply); Mirrored(turn.world) && CleanOk(turn.world, turn.worker)
  {
    var turn := ActBeginOrClean(w, x, reply);
    if turn.world != w {
      ClaimListed(w, x.op, x.index, x.attempt, x.server);
      OwnedStays(w, turn.world, x.server, x.op, x.index);
    }
  }

  lemma CleanFinishMirrored(w: World, x: Beginner, reply: Reply)
    requires Core(w) && Mirrored(w) && BeginnerOk(w, x) && x.CleanFinish? && CleanOk(w, Begin(x))
    requires Evolves(w, ActBeginOrClean(w, x, reply).world)
    ensures var turn := ActBeginOrClean(w, x, reply); Mirrored(turn.world) && CleanOk(turn.world, turn.worker)
  {
    var turn := ActBeginOrClean(w, x, reply);
    if turn.world != w { FinishListed(w, x.op, x.index, x.attempt, x.server, x.prior, x.deleted); }
  }

  lemma BeginMirrored(w: World, x: Beginner, reply: Reply)
    requires Core(w) && Mirrored(w) && BeginnerOk(w, x) && CleanOk(w, Begin(x))
              && Evolves(w, ActBeginOrClean(w, x, reply).world)
    ensures var turn := ActBeginOrClean(w, x, reply); Mirrored(turn.world) && CleanOk(turn.world, turn.worker)
  {
    match x
    case ApplyRead(_) =>
    case ApplyIntent(spec, version) =>
      if ActBeginOrClean(w, x, reply).world != w {
        assert ActBeginOrClean(w, x, reply).world == WithIntent(w, spec);
        IntentMirrored(w, spec);
      }
    case CleanClaim(_, _, _, _, _) => CleanClaimMirrored(w, x, reply);
    case CleanDelete(op, index, attempt, server, prior) =>
      MirrorStays(w, ActBeginOrClean(w, x, reply).world);
      OwnedStays(w, ActBeginOrClean(w, x, reply).world, server, op, index);
    case CleanFinish(_, _, _, _, _, _, _) => CleanFinishMirrored(w, x, reply);
  }

  // ----- Destroy and expose ----------------------------------------------------------------------------------------

  lemma GoneListed(w: World, s': State, index: nat)
    requires Core(w) && Mirrored(w) && w.store.Some? && w.store.value.creation.Some?
              && index < |w.store.value.creation.value.replicas|
    requires s'.creation.Some? && s'.creation.value.op == w.store.value.creation.value.op
    requires s'.creation.value.replicas ==
               w.store.value.creation.value.replicas[index :=
                   w.store.value.creation.value.replicas[index].(phase := Gone)]
    requires s'.listed == MarkDeleted(w.store.value.listed, index) && Evolves(w, Commit(w, s'))
    ensures ListingOk(Commit(w, s'), s')
  {
    var s := w.store.value;
    SamePlaces(s.listed, s'.listed, index);
    forall e | e in s'.listed && e.replica == index ensures EntryOk(Commit(w, s'), s'.creation.value, e) {
      assert Has(s'.listed, index, e.server) && Has(s.listed, index, e.server);
      var f :| f in s.listed && f.replica == index && f.server == e.server;
      assert EntryOk(w, s.creation.value, f);
    }
    ReplaceListing(w, Commit(w, s'), s, s', index);
  }

  lemma TearMirrored(w: World, cop: nat, eop: nat, m: Teardown)
    requires Core(w) && Mirrored(w) && w.store.Some? && MutateDestroy(w.store.value, cop, eop, m).Write?
    requires Evolves(w, Commit(w, MutateDestroy(w.store.value, cop, eop, m).state))
    ensures Mirrored(Commit(w, MutateDestroy(w.store.value, cop, eop, m).state))
  {
    var s' := MutateDestroy(w.store.value, cop, eop, m).state;
    SparedStays(w, Commit(w, s'));
    if m.MarkGone? {
      GoneListed(w, s', m.index);
    } else {
      ListingStays(w, Commit(w, s'), w.store.value, s');
    }
  }

  lemma FenceMirrored(w: World, claim: Read, reply: Reply)
    requires Core(w) && Mirrored(w) && DestroyerOk(w, DestroyFence(claim))
    requires Evolves(w, StepDestroyFence(w, claim, reply).world)
    ensures Mirrored(StepDestroyFence(w, claim, reply).world)
  {
    var g := StepDestroyFence(w, claim, reply).world;
    if g.store == w.store {
      MirrorStays(w, g);
    } else {
      assert g == Commit(w, TakeDestroyFence(w.store.value));
      SparedStays(w, g);
      ListingStays(w, g, w.store.value, g.store.value);
    }
  }

  /** The other steps of a Destroy write nothing. */
  lemma SweepQuiet(w: World, x: Destroyer, reply: Reply)
    requires !x.DestroyFence? && !x.TearDown?
    ensures var turn := ActDestroy(w, x, reply); turn.world.store == w.store && turn.world.spared == w.spared
  {
  }

  lemma DestroyNeverBegins(w: World, x: Destroyer, reply: Reply)
    ensures !ActDestroy(w, x, reply).worker.Begin?
  {
  }

  lemma TearTurnMirrored(w: World, x: Destroyer, reply: Reply)
    requires Core(w) && Mirrored(w) && DestroyerOk(w, x) && x.TearDown? && Evolves(w, ActDestroy(w, x, reply).world)
    ensures Mirrored(ActDestroy(w, x, reply).world)
  {
    var g := ActDestroy(w, x, reply).world;
    if g.store == w.store { MirrorStays(w, g); } else { TearMirrored(w, x.job.cop, x.job.eop, x.teardown); }
  }

  lemma DestroyMirrored(w: World, x: Destroyer, reply: Reply)
    requires Core(w) && Mirrored(w) && DestroyerOk(w, x) && Evolves(w, ActDestroy(w, x, reply).world)
    ensures var turn := ActDestroy(w, x, reply); Mirrored(turn.world) && !turn.worker.Begin?
  {
    DestroyNeverBegins(w, x, reply);
    if x.DestroyFence? {
      FenceMirrored(w, x.claim, reply);
    } else if x.TearDown? {
      TearTurnMirrored(w, x, reply);
    } else {
      SweepQuiet(w, x, reply);
      MirrorStays(w, ActDestroy(w, x, reply).world);
    }
  }

  lemma ExposeMirrored(w: World, x: Exposer, reply: Reply)
    requires Core(w) && Mirrored(w) && ExposerOk(w, x) && Evolves(w, ActExpose(w, x, reply).world)
    ensures var turn := ActExpose(w, x, reply); Mirrored(turn.world) && !turn.worker.Begin?
  {
    ExposeListing(w, x, reply);
    var g := ActExpose(w, x, reply).world;
    SparedStays(w, g);
    if w.store.Some? { ListingStays(w, g, w.store.value, g.store.value); }
  }

  lemma ExposeListing(w: World, x: Exposer, reply: Reply)
    requires ExposerOk(w, x)
    ensures var turn := ActExpose(w, x, reply);
            && turn.world.spared == w.spared && !turn.worker.Begin? && (w.store.None? <==> turn.world.store.None?)
            && (w.store.Some? ==> turn.world.store.value.creation == w.store.value.creation
                                  && turn.world.store.value.listed == w.store.value.listed)
  {
  }

  // ----- every run -------------------------------------------------------------------------------------------------

  lemma ActMirrored(w: World, x: Worker, reply: Reply)
    requires Core(w) && Mirrored(w) && WorkerOk(w, x) && Entitled(w, x) && CleanOk(w, x)
    ensures Mirrored(Act(w, x, reply).world) && CleanOk(Act(w, x, reply).world, Act(w, x, reply).worker)
  {
    ActOk(w, x, reply);
    if reply != Crash {
      match x
      case Stopped =>
      case Apply(r) =>
        ReconcileMirrored(w, r, reply);
        NoCleanYet(w, r, reply);
      case Begin(b) => BeginMirrored(w, b, reply);
      case Destroy(d) => DestroyMirrored(w, d, reply);
      case Expose(e) => ExposeMirrored(w, e, reply);
    }
  }

  lemma NoCleanYet(w: World, x: Reconciler, reply: Reply)
    ensures CleanOk(ActReconcile(w, x, reply).world, ActReconcile(w, x, reply).worker)
  {
  }

  ghost predicate MirrorInv(y: System) {
    Mirrored(y.world) && forall p :: p in y.workers ==> CleanOk(y.world, y.workers[p])
  }

  lemma CleanStays(w: World, g: World, x: Worker)
    requires Core(w) && Evolves(w, g) && CleanOk(w, x) && AttemptsKept(w, g)
    ensures CleanOk(g, x)
  {
    if x.Begin? && (x.beginner.CleanDelete? || x.beginner.CleanFinish?) {
      OwnedStays(w, g, x.beginner.server, x.beginner.op, x.beginner.index);
      assert w.creates[w.servers[x.beginner.server]].op < w.nextId;
      if Current(g, x.beginner.op) { StillCurrent(w, g, x.beginner.op); }
    }
  }

  /** An operation that is current was current before, unless it is new. */
  lemma StillCurrent(w: World, g: World, op: nat)
    requires Evolves(w, g) && Current(g, op) && op < w.nextId
    ensures Current(w, op)
  {
  }

  lemma ReconcileAttempts(w: World, x: Reconciler, reply: Reply)
    requires Core(w) && ReconcilerOk(w, x)
    ensures AttemptsKept(w, ActReconcile(w, x, reply).world)
  {
    if x.Persist? {
      PersistAttempts(w, x, reply);
    } else if x.AcquireWrite? {
      GrabAttempts(w, x, reply);
    } else {
      QuietTurn(w, x, reply);
    }
  }

  lemma PersistAttempts(w: World, x: Reconciler, reply: Reply)
    requires Core(w) && ReconcilerOk(w, x) && x.Persist?
    ensures AttemptsKept(w, StepPersist(w, x.snap, x.index, x.mutation, x.read, reply).world)
  {
  }

  lemma GrabAttempts(w: World, x: Reconciler, reply: Reply)
    requires Core(w) && ReconcilerOk(w, x) && x.AcquireWrite?
    ensures AttemptsKept(w, StepAcquireWrite(w, x.snap, x.index, x.claim, reply).world)
  {
  }

  lemma IntentAttempts(w: World, x: Beginner, reply: Reply)
    requires Core(w) && BeginnerOk(w, x) && x.ApplyIntent?
    ensures AttemptsKept(w, ActBeginOrClean(w, x, reply).world)
  {
    if w.store.Some? && w.store.value.creation.Some? { assert CreationOk(w, w.store.value.creation.value); }
  }

  lemma ClaimAttempts(w: World, x: Beginner, reply: Reply)
    requires Core(w) && BeginnerOk(w, x) && x.CleanClaim?
    ensures AttemptsKept(w, ActBeginOrClean(w, x, reply).world)
  {
  }

  lemma CleanedAttempts(w: World, s: State, op: nat, index: nat, attempt: nat, server: nat, prior: ReplicaPhase,
                        deleted: bool)
    requires w.store.Some? && FinishCleanup(w.store.value, op, index, attempt, server, prior, deleted) == Write(s)
    ensures AttemptsKept(w, Cleaned(w, s, attempt, deleted))
  {
  }

  lemma FinishAttempts(w: World, x: Beginner, reply: Reply)
    requires Core(w) && BeginnerOk(w, x) && x.CleanFinish?
    ensures AttemptsKept(w, ActBeginOrClean(w, x, reply).world)
  {
    if x.read.Some? && x.read.value.version == w.version && w.store.Some? {
      var o := FinishCleanup(w.store.value, x.op, x.index, x.attempt, x.server, x.prior, x.deleted);
      if o.Write? { CleanedAttempts(w, o.state, x.op, x.index, x.attempt, x.server, x.prior, x.deleted); }
    }
  }

  lemma BeginAttempts(w: World, x: Beginner, reply: Reply)
    requires Core(w) && BeginnerOk(w, x)
    ensures AttemptsKept(w, ActBeginOrClean(w, x, reply).world)
  {
    match x
    case ApplyIntent(_, _) => IntentAttempts(w, x, reply);
    case CleanClaim(_, _, _, _, _) => ClaimAttempts(w, x, reply);
    case CleanFinish(_, _, _, _, _, _, _) => FinishAttempts(w, x, reply);
    case _ => assert ActBeginOrClean(w, x, reply).world.store == w.store;
  }

  lemma TearAttempts(w: World, job: Job, index: nat, m: Teardown, read: Option<Read>, reply: Reply)
    requires Core(w) && MaybeRead(w, read)
    ensures AttemptsKept(w, StepTearDown(w, job, index, m, read, reply).world)
  {
  }

  lemma DestroyAttempts(w: World, x: Destroyer, reply: Reply)
    requires Core(w) && DestroyerOk(w, x)
    ensures AttemptsKept(w, ActDestroy(w, x, reply).world)
  {
    if x.TearDown? {
      TearAttempts(w, x.job, x.index, x.teardown, x.read, reply);
    } else if !x.DestroyFence? {
      assert ActDestroy(w, x, reply).world.store == w.store;
    }
  }

  lemma ActAttempts(w: World, x: Worker, reply: Reply)
    requires Core(w) && WorkerOk(w, x)
    ensures AttemptsKept(w, Act(w, x, reply).world)
  {
    if reply != Crash {
      match x
      case Stopped =>
      case Apply(r) => ReconcileAttempts(w, r, reply);
      case Begin(b) => BeginAttempts(w, b, reply);
      case Destroy(d) => DestroyAttempts(w, d, reply);
      case Expose(e) => ExposeListing(w, e, reply);
    }
  }

  lemma DoMirrored(y: System, who: nat, reply: Reply)
    requires Inv(y) && MirrorInv(y) && who in y.workers
    ensures MirrorInv(Step(y, Do(who, reply)))
  {
    var turn := Act(y.world, y.workers[who], reply);
    WorkerInv(y, who);
    ActOk(y.world, y.workers[who], reply);
    ActMirrored(y.world, y.workers[who], reply);
    ActAttempts(y.world, y.workers[who], reply);
    var z := Step(y, Do(who, reply));
    assert z == System(turn.world, y.workers[who := turn.worker]);
    forall p | p in z.workers ensures CleanOk(z.world, z.workers[p]) {
      if p != who { CleanStays(y.world, turn.world, y.workers[p]); }
    }
  }

  lemma HappenMirrored(y: System, e: Event)
    requires Inv(y) && MirrorInv(y) && !(e.Do? && e.who in y.workers)
    ensures MirrorInv(Step(y, e))
  {
    var z := Step(y, e);
    EventShape(y, e);
    StepEvolves(y, e);
    if z.world.store == y.world.store {
      MirrorStays(y.world, z.world);
    } else {
      SparedStays(y.world, z.world);
    }
    forall p | p in z.workers ensures CleanOk(z.world, z.workers[p]) {
      if !Newcomer(z.workers[p], e) { CleanStays(y.world, z.world, y.workers[p]); }
    }
  }

  lemma {:induction false} RunMirrored(events: seq<Event>)
    ensures MirrorInv(Run(events))
  {
    if events != [] {
      var front, last := events[..|events| - 1], events[|events| - 1];
      RunMirrored(front);
      RunInv(front);
      if last.Do? && last.who in Run(front).workers {
        DoMirrored(Run(front), last.who, last.reply);
      } else {
        HappenMirrored(Run(front), last);
      }
    }
  }

  /**
   In every run: a replica of the current operation that is attached, active or proven is
   listed, with its own server and only once, exactly if no cleanup of its attempt ended
   with a failed delete.
   */
  lemma ListedIff(events: seq<Event>, i: nat)
    requires var w := Run(events).world;
             w.store.Some? && HasReplica(w.store.value, i) && Serving(w.store.value.creation.value.replicas[i].phase)
    ensures var w := Run(events).world;
            var r := w.store.value.creation.value.replicas[i];
            && (Has(w.store.value.listed, i, r.server) <==> r.attempt !in w.spared)
            && OncePer(w.store.value.listed)
            && forall e :: e in w.store.value.listed && e.replica == i ==> e.server == r.server
  {
    RunMirrored(events);
    var w := Run(events).world;
    var c := w.store.value.creation.value;
    assert SlotOkay(w, w.store.value, c.op, i, c.replicas[i]);
    forall e | e in w.store.value.listed && e.replica == i ensures e.server == c.replicas[i].server {
      assert EntryOk(w, c, e);
    }
  }

  // ----- who deletes ---------------------------------------------------------------------------------------

  /** In every run: an entry is struck out exactly if its replica is destroyed. */
  lemma StruckOutIff(events: seq<Event>, e: Listed)
    requires var w := Run(events).world; w.store.Some? && w.store.value.creation.Some? && e in w.store.value.listed
    ensures var c := Run(events).world.store.value.creation.value;
            e.replica < |c.replicas| && (e.deleted <==> c.replicas[e.replica].phase == Gone)
  {
    RunMirrored(events);
    var w := Run(events).world;
    assert EntryOk(w, w.store.value.creation.value, e);
  }

  /** The worker is about to delete this server. */
  predicate Deletes(x: Worker, server: nat) {
    || (x.Apply? && x.reconciler.Discard? && x.reconciler.server == server)
    || (x.Begin? && x.beginner.CleanDelete? && x.beginner.server == server)
    || (x.Destroy? && x.destroyer.Delete? && server in x.destroyer.todo)
  }

  lemma ReconcileDeletes(w: World, x: Reconciler, reply: Reply, server: nat)
    requires server in w.live && server !in ActReconcile(w, x, reply).world.live
    ensures x.Discard? && x.server == server
  {
  }

  lemma BeginDeletes(w: World, x: Beginner, reply: Reply, server: nat)
    requires server in w.live && server !in ActBeginOrClean(w, x, reply).world.live
    ensures x.CleanDelete? && x.server == server
  {
  }

  lemma DestroyDeletes(w: World, x: Destroyer, reply: Reply, server: nat)
    requires server in w.live && server !in ActDestroy(w, x, reply).world.live
    ensures x.Delete? && server in x.todo
  {
  }

  lemma ExposeDeletesNone(w: World, x: Exposer, reply: Reply)
    ensures ActExpose(w, x, reply).world.live == w.live
  {
  }

  lemma ActDeletes(w: World, x: Worker, reply: Reply, server: nat)
    requires server in w.live && server !in Act(w, x, reply).world.live
    ensures Deletes(x, server)
  {
    match x
    case Stopped =>
    case Apply(r) => ReconcileDeletes(w, r, reply, server);
    case Begin(b) => BeginDeletes(w, b, reply, server);
    case Destroy(d) => DestroyDeletes(w, d, reply, server);
    case Expose(e) => ExposeDeletesNone(w, e, reply);
  }

  /**
   Only three kinds of worker ever take the server of a proven replica away: an Apply that
   was told there is no address for it, a Destroy that has it on its list, and a cleanup
   that claimed its fence for the very attempt that bore it.
   */
  lemma WhoDeletes(events: seq<Event>, e: Event, i: nat)
    requires var w := Run(events).world;
             && w.store.Some? && HasReplica(w.store.value, i)
                 && w.store.value.creation.value.replicas[i].phase == Proven
             && w.store.value.creation.value.replicas[i].server in w.live
             && w.store.value.creation.value.replicas[i].server !in Step(Run(events), e).world.live
    ensures var y := Run(events);
            var r := y.world.store.value.creation.value.replicas[i];
            && e.Do? && e.who in y.workers && Deletes(y.workers[e.who], r.server)
            && (y.workers[e.who].Begin? ==>
                  && y.workers[e.who].beginner.attempt == r.attempt && y.workers[e.who].beginner.index == i
                  && y.workers[e.who].beginner.op == y.world.store.value.creation.value.op)
  {
    RunMirrored(events);
    RunInv(events);
    var y := Run(events);
    var c := y.world.store.value.creation.value;
    assert SlotOkay(y.world, y.world.store.value, c.op, i, c.replicas[i]);
    assert e.Do? && e.who in y.workers;
    DoWorld(y, e.who, e.reply);
    ActDeletes(y.world, y.workers[e.who], e.reply, c.replicas[i].server);
    assert CleanOk(y.world, y.workers[e.who]);
  }
}
