/**
 Any number of Apply, Destroy and expose workers over one versioned state
 object and one compute provider. Every read, every compare-and-swap and every
 provider call is one step, and the environment chooses what each step meets:
 a reply, a lost acknowledgement, a partial lookup, or a worker that stops
 forever. A provider create may take effect at any time after it was called.
 */
module LifecycleMachine {
  import opened Base
  import opened LifecycleState

  /** What became of one create attempt. A granted attempt has not called the provider yet. */
  datatype CreateStatus = Granted | InFlight | Born(server: nat) | Lost

  datatype Create = Create(op: nat, replica: nat, network: nat, status: CreateStatus)

  datatype Call = Call(op: nat, replica: nat, network: nat)

  /** What became of one claimed exposure: its provider call is due, was made, or has made a policy. */
  datatype ExposeStatus = Due | Asked | Made(policy: nat)

  /** The provider's side of the endpoints: exposures by operation, who made each policy, and which are open. */
  datatype Endpoints = Endpoints(calls: map<nat, ExposeStatus>, made: map<nat, nat>, open: set<nat>)

  datatype Read = Read(version: nat, state: Option<State>)

  datatype Spec = Spec(replicas: nat, networks: nat)

  /** What one Destroy carries from its fence to its last write. */
  datatype Job = Job(snap: State, cop: nat, eop: nat, policies: set<nat>)

  /** Where a call of reconcileCreation stands. */
  datatype Reconciler =
    | Scan(snap: State, index: nat)
    | Lookup(snap: State, index: nat)
    | AcquireRead(snap: State, index: nat)
    | AcquireWrite(snap: State, index: nat, claim: Read)
    | Launch(snap: State, index: nat)
    | Launched(snap: State, index: nat)
    | Confirm(snap: State, index: nat, created: nat)
    | Wait(snap: State, index: nat, server: nat)
    | Discard(snap: State, index: nat, server: nat)
    | Proof(snap: State, index: nat)
    | Persist(snap: State, index: nat, mutation: Mutation, read: Option<Read>)

  /** The opening of Apply, and cleanupComputeAfterFence. */
  datatype Beginner =
    | ApplyRead(spec: Spec)
    | ApplyIntent(spec: Spec, version: nat)
    | CleanClaim(op: nat, index: nat, attempt: nat, server: nat, read: Option<Read>)
    | CleanDelete(op: nat, index: nat, attempt: nat, server: nat, prior: ReplicaPhase)
    | CleanFinish(op: nat, index: nat, attempt: nat, server: nat, prior: ReplicaPhase, deleted: bool,
        read: Option<Read>)

  /** Where a call of Destroy stands. */
  datatype Destroyer =
    | DestroyRead
    | DestroyFence(claim: Read)
    | Prepare(job: Job)
    | Find(job: Job, index: nat)
    | Inspect(job: Job, index: nat, seen: set<nat>)
    | Delete(job: Job, index: nat, seen: set<nat>, todo: set<nat>)
    | Policies(job: Job)
    | TearDown(job: Job, index: nat, teardown: Teardown, read: Option<Read>)

  /** Where a call of exposeSpecTCP, or of cleanupExposureAfterFence, stands. */
  datatype Exposer =
    | ExposeRead(identity: nat, recover: bool)
    | ExposeClaim(identity: nat, claim: Read)
    | ExposeCall(cop: nat, eop: nat)
    | ExposeCalled(eop: nat)
    | ExposeLookup(eop: nat, recover: bool)
    | ExposeRetry(eop: nat)
    | ExposePersist(eop: nat, change: ExposureMutation, read: Option<Read>)
    | PolicyClaim(eop: nat, policy: nat, read: Option<Read>)
    | PolicyDelete(eop: nat, policy: nat)
    | PolicyFinish(eop: nat, policy: nat, deleted: bool, read: Option<Read>)

  datatype Worker =
    | Stopped
    | Apply(reconciler: Reconciler)
    | Begin(beginner: Beginner)
    | Destroy(destroyer: Destroyer)
    | Expose(exposer: Exposer)

  /**
   The environment's answer to the step a worker is about to take. `Unacked` is
   an effect whose acknowledgement was lost; `See` names the server or policy
   that a lookup, a create or a delete speaks about.
   */
  datatype Reply =
    | Ok
    | Err
    | Unacked(which: nat)
    | See(which: nat)
    | SeeAll(servers: set<nat>)
    | Absent
    | Ambiguous
    | NoAddress
    | Crash

  datatype World = World(
    version: nat,
    store: Option<State>,
    creates: map<nat, Create>,
    servers: map<nat, nat>,
    live: set<nat>,
    nextId: nat,
    specs: map<nat, Spec>,
    calls: seq<Call>,
    claims: map<nat, bool>,
    exposeCalls: seq<nat>,
    spared: set<nat>,
    ends: Endpoints)

  /** The shared world and where every worker stands. */
  datatype System = System(world: World, workers: map<nat, Worker>)

  /** What one step makes of the world and of the worker that took it. */
  datatype Turn = Turn(world: World, worker: Worker)

  function Start(): System {
    System(World(0, None, map[], map[], {}, 1, map[], [], map[], [], {}, Endpoints(map[], map[], {})), map[])
  }

  /** `server` came from a create of this operation and replica. */
  predicate Owned(w: World, server: nat, op: nat, index: nat) {
    server in w.servers && w.servers[server] in w.creates
    && w.creates[w.servers[server]].op == op && w.creates[w.servers[server]].replica == index
  }

  function Commit(w: World, s: State): World {
    w.(version := w.version + 1, store := Some(s))
  }

  predicate HasReplica(s: State, index: nat) {
    s.creation.Some? && index < |s.creation.value.replicas|
  }

  // ----- Apply -------------------------------------------------------------------

  function StepApplyRead(w: World, spec: Spec, reply: Reply): Turn {
    if reply != Ok then Turn(w, Stopped)
    else if w.store.None? || w.store.value.phase == Destroyed then Turn(w, Begin(ApplyIntent(spec, w.version)))
    else if w.store.value.phase == Creating
        && Resumable(w.store.value, spec.replicas) then Turn(w, Apply(Scan(w.store.value, 0)))
    else Turn(w, Stopped)
  }

  function StepApplyIntent(w: World, spec: Spec, version: nat, reply: Reply): Turn {
    if version == w.version && (reply.Ok? || reply.Unacked?) then
      var s := NewIntent(w.nextId, spec.replicas, spec.networks);
      var w' := Commit(w, s).(nextId := w.nextId + 1, specs := w.specs[w.nextId := spec]);
      Turn(w', if reply.Ok? then Apply(Scan(s, 0)) else Stopped)
    else Turn(w, Stopped)
  }

  /** The loops of reconcileCreation: next replica, next network, or the closing write. */
  function NextScan(snap: State, index: nat): Worker {
    if snap.creation.None? then Stopped
    else if index >= |snap.creation.value.replicas| then Apply(Persist(snap, index, FinishCreation, None))
    else
      var r := snap.creation.value.replicas[index];
      if r.phase == Proven then Apply(Scan(snap, index + 1))
      else if r.network < snap.creation.value.networks then Apply(Lookup(snap, index))
      else if r.phase == Active then Apply(Proof(snap, index))
      else Stopped
  }

  function StepLookup(w: World, snap: State, index: nat, reply: Reply): Turn {
    if !HasReplica(snap, index) then Turn(w, Stopped)
    else
      var launching := snap.creation.value.replicas[index].phase == Launching;
      match reply
      case See(s) =>
        if s in w.live && Owned(w, s, snap.creation.value.op, index) then
          Turn(w, if launching then Apply(Persist(snap, index, Attach(s), None)) else Apply(Wait(snap, index, s)))
        else Turn(w, Apply(Lookup(snap, index)))
      case Absent => if launching then Turn(w, Apply(Lookup(snap, index))) else Turn(w, Apply(AcquireRead(snap, index)))
      case Ambiguous => Turn(w, Apply(Persist(snap, index, Escalate, None)))
      case _ => Turn(w, Apply(Persist(snap, index, RecordFailure(false), None)))
  }

  function StepAcquireWrite(w: World, snap: State, index: nat, claim: Read, reply: Reply): Turn {
    if !HasReplica(snap, index) || claim.state.None? || claim.version != w.version
        || !(reply.Ok? || reply.Unacked?) then
      Turn(w, Stopped)
    else
      match Acquire(claim.state.value, snap.creation.value.op, index, w.nextId)
      case Write(s) =>
        var grant := Create(snap.creation.value.op, index, s.creation.value.replicas[index].network, Granted);
        var w' := Commit(w, s).(nextId := w.nextId + 1, creates := w.creates[w.nextId := grant]);
        Turn(w', if reply.Ok? then Apply(Launch(s, index)) else Stopped)
      case _ => Turn(w, Stopped)
  }

  /** The provider call itself. An exhausted network index makes the worker panic. */
  function StepLaunch(w: World, snap: State, index: nat): Turn {
    if !HasReplica(snap, index) then Turn(w, Stopped)
    else
      var r := snap.creation.value.replicas[index];
      if r.network >= snap.creation.value.networks || r.attempt !in w.creates then Turn(w, Stopped)
      else
        var w' := w.(creates := w.creates[r.attempt := w.creates[r.attempt].(status := InFlight)],
                     calls := w.calls + [Call(snap.creation.value.op, index, r.network)]);
        Turn(w', Apply(Launched(snap, index)))
  }

  function StepLaunched(w: World, snap: State, index: nat, reply: Reply): Turn {
    if HasReplica(snap, index) && reply.See? && reply.which in w.servers
       && w.servers[reply.which] == snap.creation.value.replicas[index].attempt
    then Turn(w, Apply(Confirm(snap, index, reply.which)))
    else Turn(w, Apply(Confirm(snap, index, 0)))
  }

  function StepConfirm(w: World, snap: State, index: nat, created: nat, reply: Reply): Turn {
    if snap.creation.None? then Turn(w, Stopped)
    else
      match reply
      case See(s) =>
        if s in w.live && Owned(w, s, snap.creation.value.op, index) then
            Turn(w, Apply(Persist(snap, index, Attach(s), None)))
        else Turn(w, Apply(Confirm(snap, index, created)))
      case Absent => Turn(w, if created != 0 then
          Apply(Persist(snap, index, Attach(created), None)) else Apply(Confirm(snap, index, created)))
      case Ambiguous => Turn(w, Apply(Persist(snap, index, Escalate, None)))
      case _ => Turn(w, if created != 0 then Apply(Persist(snap, index, Attach(created), None)) else Stopped)
  }

  function StepWait(w: World, snap: State, index: nat, server: nat, reply: Reply): Turn {
    match reply
    case Ok => Turn(w, Apply(Persist(snap, index, MarkActive(server), None)))
    case NoAddress => Turn(w, Apply(Discard(snap, index, server)))
    case _ => Turn(w, Apply(Persist(snap, index, RecordFailure(false), None)))
  }

  function Erase(w: World, server: nat): World {
    w.(live := w.live - {server})
  }

  function StepDiscard(w: World, snap: State, index: nat, server: nat, reply: Reply): Turn {
    match reply
    case Ok => Turn(Erase(w, server), Apply(Persist(snap, index, Exhaust(server), None)))
    case Unacked(_) => Turn(Erase(w, server), Stopped)
    case _ => Turn(w, Stopped)
  }

  function StepProof(w: World, snap: State, index: nat, reply: Reply): Turn {
    match reply
    case Ok => Turn(w, Apply(Persist(snap, index, MarkProven, None)))
    case Err => Turn(w, Apply(Persist(snap, index, RecordFailure(true), None)))
    case _ => Turn(w, Apply(Persist(snap, index, RecordFailure(false), None)))
  }

  /** Where reconcileCreation goes after a transition committed or needed no write. */
  function Continue(s: State, index: nat, m: Mutation): Worker {
    match m
    case Attach(server) => Apply(Wait(s, index, server))
    case MarkActive(_) =>
      if HasReplica(s, index) && s.creation.value.replicas[index].phase == Active then
          Apply(Proof(s, index)) else Stopped
    case Exhaust(_) => Apply(Scan(s, index))
    case MarkProven => Apply(Scan(s, index + 1))
    case _ => Stopped
  }

  /** Where it goes after an error. A failed attach, and a fenced activation, clean up. */
  function Abandon(snap: State, index: nat, m: Mutation, fenced: bool): Worker {
    if HasReplica(snap, index) && (m.Attach? || (m.MarkActive? && fenced)) then
      Begin(CleanClaim(snap.creation.value.op, index, snap.creation.value.replicas[index].attempt, m.server, None))
    else Stopped
  }

  function MutateRead(snap: State, index: nat, m: Mutation, r: Read): Outcome
    requires snap.creation.Some?
  {
    if r.state.None? then Fence
    else
      var attempt := if HasReplica(snap, index) then snap.creation.value.replicas[index].attempt else 0;
      MutateCreation(r.state.value, snap.creation.value.op, index, attempt, m)
  }

  function StepPersist(w: World, snap: State, index: nat, m: Mutation, read: Option<Read>, reply: Reply): Turn {
    if snap.creation.None? || (m.Slot() && !HasReplica(snap, index)) then Turn(w, Stopped)
    else if read.None? then
      if reply.Ok? then Turn(w, Apply(Persist(snap, index, m, Some(Read(w.version, w.store)))))
      else Turn(w, Abandon(snap, index, m, false))
    else
      match MutateRead(snap, index, m, read.value)
      case Fence => Turn(w, Abandon(snap, index, m, true))
      case Keep => Turn(w, Continue(read.value.state.value, index, m))
      case Write(s) =>
        if read.value.version != w.version then
          Turn(w, if reply.Ok? then Apply(Persist(snap, index, m, None)) else Abandon(snap, index, m, false))
        else if reply.Ok? then Turn(Commit(w, s), Continue(s, index, m))
        else if reply.Unacked? then Turn(Commit(w, s), Abandon(snap, index, m, false))
        else Turn(w, Abandon(snap, index, m, false))
  }

  // ----- cleanup -------------------------------------------------------------------

  function StepCleanClaim(w: World, op: nat, index: nat, attempt: nat, server: nat, read: Option<Read>,
                          reply: Reply): Turn {
    if read.None? then
      Turn(w, if reply.Ok? then Begin(CleanClaim(op, index, attempt, server, Some(Read(w.version, w.store)))) else
          Stopped)
    else if read.value.state.None? then Turn(w, Stopped)
    else
      var s := read.value.state.value;
      match ClaimCleanup(s, op, index, attempt, server)
      case Write(s') =>
        if read.value.version != w.version then
          Turn(w, if reply.Ok? then Begin(CleanClaim(op, index, attempt, server, None)) else Stopped)
        else if reply.Ok? then
          Turn(Commit(w, s'), Begin(CleanDelete(op, index, attempt, server, s.creation.value.replicas[index].phase)))
        else if reply.Unacked? then Turn(Commit(w, s'), Stopped)
        else Turn(w, Stopped)
      case _ => Turn(w, Stopped)
  }

  function StepCleanDelete(w: World, op: nat, index: nat, attempt: nat, server: nat, prior: ReplicaPhase,
                           reply: Reply): Turn {
    match reply
    case Ok => Turn(Erase(w, server), Begin(CleanFinish(op, index, attempt, server, prior, true, None)))
    case Unacked(_) => Turn(Erase(w, server), Begin(CleanFinish(op, index, attempt, server, prior, false, None)))
    case _ => Turn(w, Begin(CleanFinish(op, index, attempt, server, prior, false, None)))
  }

  function StepCleanFinish(w: World, op: nat, index: nat, attempt: nat, server: nat, prior: ReplicaPhase, deleted: bool,
                           read: Option<Read>, reply: Reply): Turn
  {
    if read.None? then
      Turn(w, if reply.Ok? then
          Begin(CleanFinish(op, index, attempt, server, prior, deleted, Some(Read(w.version, w.store)))) else Stopped)
    else if read.value.state.None? then Turn(w, Stopped)
    else
      match FinishCleanup(read.value.state.value, op, index, attempt, server, prior, deleted)
      case Write(s') =>
        if read.value.version != w.version then
          Turn(w, if reply.Ok? then Begin(CleanFinish(op, index, attempt, server, prior, deleted, None)) else Stopped)
        else if reply.Ok? || reply.Unacked? then Turn(Cleaned(w, s', attempt, deleted), Stopped)
        else Turn(w, Stopped)
      case _ => Turn(w, Stopped)
  }

  /** The end of a cleanup; `spared` keeps the attempts whose delete failed. */
  function Cleaned(w: World, s: State, attempt: nat, deleted: bool): World {
    Commit(w, s).(spared := if deleted then w.spared else w.spared + {attempt})
  }

  // ----- Destroy --------------------------------------------------------------------

  function JobFor(s: State): Job {
    Job(s, if s.creation.Some? then s.creation.value.op else 0, if s.exposure.Some? then s.exposure.value.op else 0, {})
  }

  function StepDestroyRead(w: World, reply: Reply): Turn {
    if reply != Ok || w.store.None? || w.store.value.phase == Destroyed then Turn(w, Stopped)
    else if w.store.value.phase == Destroying then Turn(w, Destroy(Prepare(JobFor(w.store.value))))
    else Turn(w, Destroy(DestroyFence(Read(w.version, w.store))))
  }

  function StepDestroyFence(w: World, claim: Read, reply: Reply): Turn {
    if claim.state.None? || claim.version != w.version || !(reply.Ok? || reply.Unacked?) then Turn(w, Stopped)
    else
      var s := TakeDestroyFence(claim.state.value);
      Turn(Commit(w, s), if reply.Ok? then Destroy(Prepare(JobFor(s))) else Stopped)
  }

  function Surrender(job: Job): Worker {
    Destroy(TearDown(job, 0, EscalateDestroy, None))
  }

  function KnownPolicies(s: State, identity: nat): set<nat> {
    set k | 0 <= k < |s.policies| && s.policies[k].identity == identity :: s.policies[k].id
  }

  /** Everything Destroy settles before the first delete. */
  function StepPrepare(w: World, job: Job, reply: Reply): Turn {
    if job.snap.creation.None? && job.snap.listed != [] then Turn(w, Surrender(job))
    else if job.snap.exposure.None? then
      Turn(w, if job.snap.policies != [] then Surrender(job) else Destroy(Find(job, 0)))
    else
      var e := job.snap.exposure.value;
      var known := KnownPolicies(job.snap, e.identity);
      match reply
      case See(p) => Turn(w, if Opened(w, p, job.eop) then
          Destroy(Find(job.(policies := known + {p}), 0)) else Destroy(Prepare(job)))
      case Absent => Turn(w, if e.unresolved
          && known == {} then Surrender(job) else Destroy(Find(job.(policies := known), 0)))
      case _ => Turn(w, Surrender(job))
  }

  function StepFind(w: World, job: Job, index: nat, reply: Reply): Turn {
    if !HasReplica(job.snap, index) then Turn(w, Destroy(Policies(job)))
    else
      match reply
      case SeeAll(found) =>
        if found <= w.live && forall s :: s in found ==>
            Owned(w, s, job.cop, index) then Turn(w, Destroy(Inspect(job, index, found)))
        else Turn(w, Destroy(Find(job, index)))
      case Err => Turn(w, Surrender(job))
      case _ => Turn(w, Destroy(Find(job, index)))
  }

  function StepInspect(w: World, job: Job, index: nat, seen: set<nat>, reply: Reply): Turn {
    if !HasReplica(job.snap, index) then Turn(w, Stopped)
    else
      var r := job.snap.creation.value.replicas[index];
      if r.server == 0 || reply.Absent? then Turn(w, Judge(job, index, seen))
      else if reply.Ok? && r.server in w.live && Owned(w, r.server, job.cop, index) then
        Turn(w, Judge(job, index, seen + {r.server}))
      else if reply.Err? then Turn(w, Surrender(job))
      else Turn(w, Destroy(Inspect(job, index, seen)))
  }

  /** A replica that may still own a server nobody can see is left to an operator. */
  function Judge(job: Job, index: nat, seen: set<nat>): Worker
    requires HasReplica(job.snap, index)
  {
    var r := job.snap.creation.value.replicas[index];
    if r.phase != Gone && seen == {} && (r.phase == Launching || r.server != 0) then Surrender(job)
    else Destroy(Delete(job, index, seen, seen))
  }

  function StepDelete(w: World, job: Job, index: nat, seen: set<nat>, todo: set<nat>, reply: Reply): Turn {
    if todo == {} then Turn(w, Destroy(TearDown(job, index, MarkGone(index), None)))
    else
      match reply
      case See(s) => if s in todo then Turn(Erase(w, s), Destroy(Delete(job, index, seen, todo - {s}))) else
          Turn(w, Destroy(Delete(job, index, seen, todo)))
      case Unacked(s) => if s in todo then Turn(Erase(w, s), Surrender(job)) else
          Turn(w, Destroy(Delete(job, index, seen, todo)))
      case _ => Turn(w, Surrender(job))
  }

  function StepPolicies(w: World, job: Job, reply: Reply): Turn {
    if job.policies == {} then
      Turn(w,
        if job.snap.exposure.Some? && job.snap.exposure.value.phase != Withdrawn then
            Destroy(TearDown(job, 0, CloseExposure, None))
        else Destroy(TearDown(job, 0, FinishDestroy, None)))
    else
      match reply
      case See(p) =>
        if p in job.policies then Turn(Close(w, p), Destroy(TearDown(job, 0, DropPolicy(p), None))) else
            Turn(w, Destroy(Policies(job)))
      case Unacked(p) => if p in job.policies then
          Turn(Close(w, p), Surrender(job)) else Turn(w, Destroy(Policies(job)))
      case _ => Turn(w, Surrender(job))
  }

  function ContinueTearDown(job: Job, s: State, index: nat, m: Teardown): Worker {
    match m
    case MarkGone(_) => Destroy(Find(job.(snap := s), index + 1))
    case DropPolicy(p) => Destroy(Policies(job.(snap := s, policies := job.policies - {p})))
    case CloseExposure => Destroy(TearDown(job.(snap := s), 0, FinishDestroy, None))
    case _ => Stopped
  }

  function StepTearDown(w: World, job: Job, index: nat, m: Teardown, read: Option<Read>, reply: Reply): Turn {
    if read.None? then
      Turn(w, if reply.Ok? then Destroy(TearDown(job, index, m, Some(Read(w.version, w.store)))) else Stopped)
    else if read.value.state.None? then Turn(w, Stopped)
    else
      match MutateDestroy(read.value.state.value, job.cop, job.eop, m)
      case Write(s) =>
        if read.value.version != w.version then
          Turn(w, if reply.Ok? then Destroy(TearDown(job, index, m, None)) else Stopped)
        else if reply.Ok? then Turn(Commit(w, s), ContinueTearDown(job, s, index, m))
        else if reply.Unacked? then Turn(Commit(w, s), Stopped)
        else Turn(w, Stopped)
      case _ => Turn(w, Stopped)
  }

  // ----- exposure --------------------------------------------------------------------

  /** The policy is open and was made for this exposure. */
  predicate Opened(w: World, policy: nat, eop: nat) {
    policy in w.ends.open && policy in w.ends.made && w.ends.made[policy] == eop
  }

  /** A successful delete of a policy. */
  function Close(w: World, policy: nat): World {
    w.(ends := w.ends.(open := w.ends.open - {policy}))
  }

  /** A new policy of this exposure, under a name never used before. */
  function MakePolicy(w: World, eop: nat): World {
    w.(ends := w.ends.(made := w.ends.made[w.nextId := eop], open := w.ends.open + {w.nextId}), nextId := w.nextId + 1)
  }

  function MatchingPolicies(s: State, identity: nat): seq<nat> {
    MatchingIds(s.policies, identity)
  }

  function MatchingIds(policies: seq<Policy>, identity: nat): seq<nat> {
    if policies == [] then []
    else (if policies[0].identity == identity then [policies[0].id] else []) + MatchingIds(policies[1..], identity)
  }

  /** The decisions of exposeSpecTCP once an intent exists and carries the requested identity. */
  function DecideExposure(s: State, identity: nat, recover: bool, claimed: bool): Worker
    requires s.exposure.Some?
  {
    var e := s.exposure.value;
    var known := MatchingPolicies(s, identity);
    if |known| > 1 then Expose(ExposePersist(e.op, EscalateExposure, None))
    else if |known| == 1 then Expose(ExposePersist(e.op, Complete(known[0], Recoverable(s, recover)), None))
    else if claimed then Expose(ExposeCall(if s.creation.Some? then s.creation.value.op else 0, e.op))
    else if e.phase == Stuck && recover then Expose(ExposeLookup(e.op, true))
    else if e.phase != Opening then Stopped
    else Expose(ExposeLookup(e.op, false))
  }

  function StepExposeRead(w: World, identity: nat, recover: bool, reply: Reply): Turn {
    if reply != Ok || w.store.None? || !Exposable(w.store.value, recover) then Turn(w, Stopped)
    else
      var s := w.store.value;
      if s.exposure.None? then Turn(w, Expose(ExposeClaim(identity, Read(w.version, w.store))))
      else
        var e := s.exposure.value;
        if e.server != s.listed[0].server || e.identity != identity then
            Turn(w, Expose(ExposePersist(e.op, EscalateExposure, None)))
        else Turn(w, DecideExposure(s, identity, recover, false))
  }

  /** The write that alone entitles a worker to call the provider. */
  function StepExposeClaim(w: World, identity: nat, claim: Read, reply: Reply): Turn {
    if claim.state.None? || |claim.state.value.listed| != 1 || claim.version != w.version
        || !(reply.Ok? || reply.Unacked?) then
      Turn(w, Stopped)
    else
      var s := OpenExposure(claim.state.value, w.nextId, identity);
      var cop := if s.creation.Some? then s.creation.value.op else 0;
      var w' := Commit(w, s).(nextId := w.nextId + 1, claims := w.claims[cop := false],
                              ends := w.ends.(calls := w.ends.calls[w.nextId := Due]));
      Turn(w', if reply.Ok? then DecideExposure(s, identity, false, true) else Stopped)
  }

  /** The provider call; what it makes may appear at any later time. */
  function StepExposeCall(w: World, cop: nat, eop: nat): Turn {
    var calls := if eop in w.ends.calls && w.ends.calls[eop] == Due then w.ends.calls[eop := Asked] else w.ends.calls;
    Turn(w.(claims := w.claims[cop := true], exposeCalls := w.exposeCalls + [cop], ends := w.ends.(calls := calls)),
         Expose(ExposeCalled(eop)))
  }

  function StepExposeCalled(w: World, eop: nat, reply: Reply): Turn {
    match reply
    case See(p) =>
      Turn(w, if p in w.ends.made && w.ends.made[p] == eop then Expose(ExposePersist(eop, Complete(p, false), None))
              else Expose(ExposeCalled(eop)))
    case Ambiguous => Turn(w, Expose(ExposePersist(eop, EscalateExposure, None)))
    case _ => Turn(w, Expose(ExposePersist(eop, FailExposure, None)))
  }

  function StepExposeLookup(w: World, eop: nat, recover: bool, reply: Reply): Turn {
    match reply
    case See(p) =>
      Turn(w, if Opened(w, p, eop) then Expose(ExposePersist(eop, Complete(p, recover), None)) else
          Expose(ExposeLookup(eop, recover)))
    case Ambiguous => Turn(w, if recover then Stopped else Expose(ExposePersist(eop, EscalateExposure, None)))
    case _ => Turn(w, if recover then Expose(ExposeRetry(eop)) else Expose(ExposePersist(eop, EscalateExposure, None)))
  }

  /** The provider call of an explicit operator recovery: it finds the policy or makes another one. */
  function StepExposeRetry(w: World, eop: nat, reply: Reply): Turn {
    match reply
    case See(p) => Turn(w, if Opened(w, p, eop) then
        Expose(ExposePersist(eop, Complete(p, true), None)) else Expose(ExposeRetry(eop)))
    case Ok => Turn(MakePolicy(w, eop), Expose(ExposePersist(eop, Complete(w.nextId, true), None)))
    case _ => Turn(w, Expose(ExposePersist(eop, EscalateExposure, None)))
  }

  function AbandonExposure(eop: nat, m: ExposureMutation, fenced: bool): Worker {
    if fenced && m.Complete? && m.policy != 0 then Expose(PolicyClaim(eop, m.policy, None)) else Stopped
  }

  function StepExposePersist(w: World, eop: nat, m: ExposureMutation, read: Option<Read>, reply: Reply): Turn {
    if read.None? then
      Turn(w, if reply.Ok? then Expose(ExposePersist(eop, m, Some(Read(w.version, w.store)))) else Stopped)
    else if read.value.state.None? then Turn(w, AbandonExposure(eop, m, true))
    else
      match MutateExposure(read.value.state.value, eop, m)
      case Fence => Turn(w, AbandonExposure(eop, m, true))
      case Keep => Turn(w, Stopped)
      case Write(s) =>
        if read.value.version != w.version then
          Turn(w, if reply.Ok? then Expose(ExposePersist(eop, m, None)) else Stopped)
        else if reply.Ok? || reply.Unacked? then Turn(Commit(w, s), Stopped)
        else Turn(w, Stopped)
  }

  function StepPolicyClaim(w: World, eop: nat, policy: nat, read: Option<Read>, reply: Reply): Turn {
    if read.None? then
      Turn(w, if reply.Ok? then Expose(PolicyClaim(eop, policy, Some(Read(w.version, w.store)))) else Stopped)
    else if read.value.state.None? then Turn(w, Stopped)
    else
      match ClaimPolicyCleanup(read.value.state.value, eop)
      case Write(s) =>
        if read.value.version != w.version then
          Turn(w, if reply.Ok? then Expose(PolicyClaim(eop, policy, None)) else Stopped)
        else if reply.Ok? then Turn(Commit(w, s), Expose(PolicyDelete(eop, policy)))
        else if reply.Unacked? then Turn(Commit(w, s), Stopped)
        else Turn(w, Stopped)
      case _ => Turn(w, Stopped)
  }

  function StepPolicyDelete(w: World, eop: nat, policy: nat, reply: Reply): Turn {
    match reply
    case Ok => Turn(Close(w, policy), Expose(PolicyFinish(eop, policy, true, None)))
    case Unacked(_) => Turn(Close(w, policy), Expose(PolicyFinish(eop, policy, false, None)))
    case _ => Turn(w, Expose(PolicyFinish(eop, policy, false, None)))
  }

  function StepPolicyFinish(w: World, eop: nat, policy: nat, deleted: bool, read: Option<Read>, reply: Reply): Turn {
    if read.None? then
      Turn(w, if reply.Ok? then Expose(PolicyFinish(eop, policy, deleted, Some(Read(w.version, w.store)))) else Stopped)
    else if read.value.state.None? then Turn(w, Stopped)
    else
      match FinishPolicyCleanup(read.value.state.value, eop, policy, deleted)
      case Write(s) =>
        if read.value.version != w.version then
          Turn(w, if reply.Ok? then Expose(PolicyFinish(eop, policy, deleted, None)) else Stopped)
        else if reply.Ok? || reply.Unacked? then Turn(Commit(w, s), Stopped)
        else Turn(w, Stopped)
      case _ => Turn(w, Stopped)
  }

  // ----- one step, and runs ------------------------------------------------------------

  function ActReconcile(w: World, x: Reconciler, reply: Reply): Turn {
    match x
    case Scan(snap, index) => Turn(w, NextScan(snap, index))
    case Lookup(snap, index) => StepLookup(w, snap, index, reply)
    case AcquireRead(snap, index) =>
      Turn(w, if reply.Ok? then Apply(AcquireWrite(snap, index, Read(w.version, w.store))) else Stopped)
    case AcquireWrite(snap, index, claim) => StepAcquireWrite(w, snap, index, claim, reply)
    case Launch(snap, index) => StepLaunch(w, snap, index)
    case Launched(snap, index) => StepLaunched(w, snap, index, reply)
    case Confirm(snap, index, created) => StepConfirm(w, snap, index, created, reply)
    case Wait(snap, index, server) => StepWait(w, snap, index, server, reply)
    case Discard(snap, index, server) => StepDiscard(w, snap, index, server, reply)
    case Proof(snap, index) => StepProof(w, snap, index, reply)
    case Persist(snap, index, m, read) => StepPersist(w, snap, index, m, read, reply)
  }

  function ActBeginOrClean(w: World, x: Beginner, reply: Reply): Turn {
    match x
    case ApplyRead(spec) => StepApplyRead(w, spec, reply)
    case ApplyIntent(spec, version) => StepApplyIntent(w, spec, version, reply)
    case CleanClaim(op, index, attempt, server, read) => StepCleanClaim(w, op, index, attempt, server, read, reply)
    case CleanDelete(op, index, attempt, server, prior) => StepCleanDelete(w, op, index, attempt, server, prior, reply)
    case CleanFinish(op, index, attempt, server, prior, deleted, read) =>
      StepCleanFinish(w, op, index, attempt, server, prior, deleted, read, reply)
  }

  function ActDestroy(w: World, x: Destroyer, reply: Reply): Turn {
    match x
    case DestroyRead => StepDestroyRead(w, reply)
    case DestroyFence(claim) => StepDestroyFence(w, claim, reply)
    case Prepare(job) => StepPrepare(w, job, reply)
    case Find(job, index) => StepFind(w, job, index, reply)
    case Inspect(job, index, seen) => StepInspect(w, job, index, seen, reply)
    case Delete(job, index, seen, todo) => StepDelete(w, job, index, seen, todo, reply)
    case Policies(job) => StepPolicies(w, job, reply)
    case TearDown(job, index, m, read) => StepTearDown(w, job, index, m, read, reply)
  }

  function ActExpose(w: World, x: Exposer, reply: Reply): Turn {
    match x
    case ExposeRead(identity, recover) => StepExposeRead(w, identity, recover, reply)
    case ExposeClaim(identity, claim) => StepExposeClaim(w, identity, claim, reply)
    case ExposeCall(cop, eop) => StepExposeCall(w, cop, eop)
    case ExposeCalled(eop) => StepExposeCalled(w, eop, reply)
    case ExposeLookup(eop, recover) => StepExposeLookup(w, eop, recover, reply)
    case ExposeRetry(eop) => StepExposeRetry(w, eop, reply)
    case ExposePersist(eop, m, read) => StepExposePersist(w, eop, m, read, reply)
    case PolicyClaim(eop, policy, read) => StepPolicyClaim(w, eop, policy, read, reply)
    case PolicyDelete(eop, policy) => StepPolicyDelete(w, eop, policy, reply)
    case PolicyFinish(eop, policy, deleted, read) => StepPolicyFinish(w, eop, policy, deleted, read, reply)
  }

  function Act(w: World, x: Worker, reply: Reply): Turn {
    if reply == Crash then Turn(w, Stopped)
    else
      match x
      case Stopped => Turn(w, Stopped)
      case Apply(r) => ActReconcile(w, r, reply)
      case Begin(b) => ActBeginOrClean(w, b, reply)
      case Destroy(d) => ActDestroy(w, d, reply)
      case Expose(e) => ActExpose(w, e, reply)
  }

  datatype Event =
    | SpawnApply(who: nat, spec: Spec)
    | SpawnDestroy(who: nat)
    | SpawnExpose(who: nat, identity: nat, recover: bool)
    | Tombstone
    | Materialise(attempt: nat)
    | Vanish(attempt: nat)
    | Establish(eop: nat)
    | Do(who: nat, reply: Reply)

  /** A called create yields its one server, under a name never used before. */
  function Deliver(w: World, attempt: nat): World {
    if attempt in w.creates && w.creates[attempt].status == InFlight then
      w.(creates := w.creates[attempt := w.creates[attempt].(status := Born(w.nextId))],
         servers := w.servers[w.nextId := attempt],
         live := w.live + {w.nextId},
         nextId := w.nextId + 1)
    else w
  }

  /** A called exposure makes its one policy. */
  function EstablishPolicy(w: World, eop: nat): World {
    if eop in w.ends.calls && w.ends.calls[eop] == Asked then
      MakePolicy(w.(ends := w.ends.(calls := w.ends.calls[eop := Made(w.nextId)])), eop)
    else w
  }

  function Spawn(y: System, who: nat, x: Worker): System {
    if who in y.workers then y else y.(workers := y.workers[who := x])
  }

  /** The part of a step that no worker takes. */
  function Happen(w: World, e: Event): World {
    match e
    case Tombstone => if w.store.None? then Commit(w, State(Destroyed, None, None, [], [])) else w
    case Materialise(attempt) => Deliver(w, attempt)
    case Vanish(attempt) =>
      if attempt in w.creates && w.creates[attempt].status == InFlight then
        w.(creates := w.creates[attempt := w.creates[attempt].(status := Lost)])
      else w
    case Establish(eop) => EstablishPolicy(w, eop)
    case _ => w
  }

  function Step(y: System, e: Event): System {
    match e
    case SpawnApply(who, spec) => Spawn(y, who, Begin(ApplyRead(spec)))
    case SpawnDestroy(who) => Spawn(y, who, Destroy(DestroyRead))
    case SpawnExpose(who, identity, recover) => Spawn(y, who, Expose(ExposeRead(identity, recover)))
    case Do(who, reply) =>
      if who !in y.workers then y
      else
        var turn := Act(y.world, y.workers[who], reply);
        System(turn.world, y.workers[who := turn.worker])
    case _ => y.(world := Happen(y.world, e))
  }

  function Run(events: seq<Event>): System {
    if events == [] then Start() else Step(Run(events[..|events| - 1]), events[|events| - 1])
  }
}
