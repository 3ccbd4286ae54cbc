/**
 A worker left alone. Its steps are answered truthfully and successfully: lookups show what is there,
 calls and writes succeed, and what was asked of the provider arrives. Whatever the others did before,
 a worker that goes on under these answers gets to its end.
 */
module LifecycleAlone {
  import opened Base
  import opened LifecycleState
  import opened LifecycleMachine
  import opened LifecycleSafety
  import opened Lifecycle

  // ----- truthful and successful answers --------------------------------------------------------------

  /** The live servers of a replica. */
  ghost function OwnLive(w: World, op: nat, index: nat): set<nat> {
    set s | s in w.live && Owned(w, s, op, index)
  }

  predicate BornOf(w: World, server: nat, attempt: nat) {
    server in w.servers && w.servers[server] == attempt
  }

  ghost function FavourApply(w: World, x: Reconciler): Reply {
    match x
    case Lookup(snap, index) =>
      if s :| HasReplica(snap, index) && s in OwnLive(w, snap.creation.value.op, index) then See(s) else Absent
    case Launched(snap, index) =>
      if s :| HasReplica(snap, index) && BornOf(w, s, snap.creation.value.replicas[index].attempt) then See(s)
      else Absent
    case Confirm(snap, index, _) =>
      if s :| HasReplica(snap, index) && s in OwnLive(w, snap.creation.value.op, index) then See(s) else Absent
    case _ => Ok
  }

  ghost function FavourDestroy(w: World, x: Destroyer): Reply {
    match x
    case Prepare(job) => if p :| Opened(w, p, job.eop) then See(p) else Absent
    case Find(job, index) => SeeAll(OwnLive(w, job.cop, index))
    case Inspect(job, index, _) =>
      if HasReplica(job.snap, index)
          && job.snap.creation.value.replicas[index].server in OwnLive(w, job.cop, index) then Ok else Absent
    case Delete(_, _, _, todo) => if s :| s in todo then See(s) else Ok
    case Policies(job) => if p :| p in job.policies then See(p) else Ok
    case _ => Ok
  }

  ghost function FavourExpose(w: World, x: Exposer): Reply {
    match x
    case ExposeCalled(eop) =>
      if eop in w.ends.calls && w.ends.calls[eop].Made? then See(w.ends.calls[eop].policy) else Absent
    case ExposeLookup(eop, _) => if p :| Opened(w, p, eop) then See(p) else Absent
    case _ => Ok
  }

  ghost function Favour(w: World, x: Worker): Reply {
    match x
    case Apply(r) => FavourApply(w, r)
    case Destroy(d) => FavourDestroy(w, d)
    case Expose(e) => FavourExpose(w, e)
    case _ => Ok
  }

  /** What happens before the worker's next step: what it asked the provider for arrives. */
  function Arrival(x: Worker): Option<Event> {
    match x
    case Apply(Launched(snap, index)) =>
      if HasReplica(snap, index) then Some(Materialise(snap.creation.value.replicas[index].attempt)) else None
    case Expose(ExposeCalled(eop)) => Some(Establish(eop))
    case _ => None
  }

  function Arrived(w: World, x: Worker): World {
    if Arrival(x).Some? then Happen(w, Arrival(x).value) else w
  }

  ghost function SoloStep(t: Turn): Turn {
    var w := Arrived(t.world, t.worker);
    Act(w, t.worker, Favour(w, t.worker))
  }

  ghost function Solo(t: Turn, n: nat): Turn {
    Iterate(SoloStep, t, n)
  }

  /** Left alone at `a`, the worker comes to `b`. */
  ghost predicate Leads(a: Turn, b: Turn) {
    Reaches(SoloStep, a, b)
  }

  lemma LeadsOne(a: Turn, b: Turn)
    requires SoloStep(a) == b
    ensures Leads(a, b)
  {
    ReachesOne(SoloStep, a);
  }

  lemma LeadsSame(a: Turn)
    ensures Leads(a, a)
  {
    ReachesOne(SoloStep, a);
  }

  lemma LeadsOn(a: Turn, b: Turn, c: Turn)
    requires Leads(a, b) && Leads(b, c)
    ensures Leads(a, c)
  {
    ReachesOn(SoloStep, a, b, c);
  }

  // ----- as a run --------------------------------------------------------------------------------------

  /** The event is a step of this worker, answered truthfully and successfully, or the arrival it waits for. */
  ghost predicate Favoured(y: System, e: Event, who: nat) {
    && who in y.workers
    && (e == Do(who, Favour(y.world, y.workers[who])) || Arrival(y.workers[who]) == Some(e))
  }

  /** After `events`, everything in `script` is. */
  ghost predicate AllFavoured(events: seq<Event>, script: seq<Event>, who: nat) {
    forall n :: 0 <= n < |script| ==> Favoured(Run(events + script[..n]), script[n], who)
  }

  lemma RunNext(events: seq<Event>, e: Event)
    ensures Run(events + [e]) == Step(Run(events), e)
  {
    assert (events + [e])[..|events|] == events;
  }

  lemma FavouredNext(events: seq<Event>, script: seq<Event>, e: Event, who: nat)
    requires AllFavoured(events, script, who) && Favoured(Run(events + script), e, who)
    ensures AllFavoured(events, script + [e], who) && Run(events + (script + [e])) == Step(Run(events + script), e)
  {
    var longer := script + [e];
    assert events + longer == events + script + [e];
    RunNext(events + script, e);
    forall n | 0 <= n < |longer| ensures Favoured(Run(events + longer[..n]), longer[n], who) {
      if n < |script| { assert longer[..n] == script[..n]; } else { assert longer[..n] == script; }
    }
  }

  lemma ArrivalKeeps(y: System, who: nat)
    requires who in y.workers && Arrival(y.workers[who]).Some?
    ensures Step(y, Arrival(y.workers[who]).value) == System(Arrived(y.world, y.workers[who]), y.workers)
  {
  }

  /** One more step: the arrival, if the worker waits for one, and its turn. */
  lemma SoloNext(events: seq<Event>, script: seq<Event>, who: nat) returns (longer: seq<Event>)
    requires AllFavoured(events, script, who) && who in Run(events + script).workers
    ensures AllFavoured(events, longer, who)
    ensures var y, z := Run(events + script), Run(events + longer);
            who in z.workers && Turn(z.world, z.workers[who]) == SoloStep(Turn(y.world, y.workers[who]))
  {
    var z := Run(events + script);
    longer := script;
    if Arrival(z.workers[who]).Some? {
      ArrivalKeeps(z, who);
      FavouredNext(events, longer, Arrival(z.workers[who]).value, who);
      longer := longer + [Arrival(z.workers[who]).value];
    }
    var x := Run(events + longer);
    assert x == System(Arrived(z.world, z.workers[who]), z.workers);
    FavouredNext(events, longer, Do(who, Favour(x.world, x.workers[who])), who);
    longer := longer + [Do(who, Favour(x.world, x.workers[who]))];
  }

  /** Being left alone is a run in which only this worker and the arrivals it waits for take part. */
  lemma {:induction false} SoloRun(events: seq<Event>, who: nat, n: nat) returns (script: seq<Event>)
    requires who in Run(events).workers
    ensures AllFavoured(events, script, who)
    ensures var y, z := Run(events), Run(events + script);
            who in z.workers && Turn(z.world, z.workers[who]) == Solo(Turn(y.world, y.workers[who]), n)
  {
    if n == 0 {
      script := [];
      assert events + [] == events;
    } else {
      script := SoloRun(events, who, n - 1);
      script := SoloNext(events, script, who);
    }
  }

  lemma LeadsRun(events: seq<Event>, who: nat, b: Turn) returns (script: seq<Event>)
    requires who in Run(events).workers && Leads(Turn(Run(events).world, Run(events).workers[who]), b)
    ensures AllFavoured(events, script, who)
    ensures var z := Run(events + script); who in z.workers && z.world == b.world && z.workers[who] == b.worker
  {
    var n: nat :| Iterate(SoloStep, Turn(Run(events).world, Run(events).workers[who]), n) == b;
    script := SoloRun(events, who, n);
  }
}
