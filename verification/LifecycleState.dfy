/**
 The durable sandbox state of the SDK and every transition that a worker may
 write back to it. A transition takes the state that was just read and answers
 what to write, that nothing needs writing, or that the worker lost its fence.

 Identifiers are natural numbers and 0 stands for the empty string. A replica
 intent is addressed by its index, which also stands for its name.
 */
module LifecycleState {
  import opened Base

  datatype Phase = Creating | Ready | Failed | Escalated | Cleanup | Destroying | Destroyed

  datatype ReplicaPhase = Pending | Launching | Attached | Active | Proven | Cleaning | Gone

  /** One compute resource intent. `network` indexes the network candidates. */
  datatype Replica = Replica(network: nat, server: nat, phase: ReplicaPhase, attempt: nat)

  datatype Creation = Creation(op: nat, networks: nat, replicas: seq<Replica>, phase: Phase)

  datatype ExposurePhase = Opening | Open | Stuck | Closing | Withdrawing | Withdrawn

  /** `identity` stands for name, ownership, protocol and port together. */
  datatype Exposure = Exposure(op: nat, server: nat, identity: nat, phase: ExposurePhase, unresolved: bool)

  datatype Policy = Policy(id: nat, identity: nat)

  /** An entry of the public resource listing. */
  datatype Listed = Listed(server: nat, replica: nat, deleted: bool)

  datatype State = State(
    phase: Phase,
    creation: Option<Creation>,
    exposure: Option<Exposure>,
    policies: seq<Policy>,
    listed: seq<Listed>)

  datatype Outcome = Write(state: State) | Keep | Fence

  // ----- the public resource listing ---------------------------------------

  function ListIndex(listed: seq<Listed>, server: nat, replica: nat): (k: nat)
    ensures k <= |listed|
    ensures k < |listed| ==> listed[k].server == server || listed[k].replica == replica
    ensures forall j :: 0 <= j < k ==> listed[j].server != server && listed[j].replica != replica
  {
    if listed == [] then 0
    else if listed[0].server == server || listed[0].replica == replica then 0
    else 1 + ListIndex(listed[1..], server, replica)
  }

  /** updateResource: replace the entry with this server or name, or append one. */
  function UpdateListed(listed: seq<Listed>, server: nat, replica: nat): seq<Listed> {
    var k := ListIndex(listed, server, replica);
    if k < |listed| then listed[k := Listed(server, replica, false)]
    else listed + [Listed(server, replica, false)]
  }

  /** removeResource: drop the first entry that carries this server. */
  function RemoveListed(listed: seq<Listed>, server: nat): seq<Listed> {
    if listed == [] then []
    else if listed[0].server == server then listed[1..]
    else [listed[0]] + RemoveListed(listed[1..], server)
  }

  function MarkDeleted(listed: seq<Listed>, replica: nat): seq<Listed> {
    seq(|listed|, k requires 0 <= k < |listed| =>
      if listed[k].replica == replica then listed[k].(deleted := true) else listed[k])
  }

  // ----- creation ------------------------------------------------------------

  function FreshReplicas(n: nat): seq<Replica> {
    seq(n, _ => Replica(0, 0, Pending, 0))
  }

  /** The complete intent written before any provider call (createResolvedIntent). */
  function NewIntent(op: nat, replicas: nat, networks: nat): State {
    State(Creating, Some(Creation(op, networks, FreshReplicas(replicas), Creating)), None, [], [])
  }

  /** validateCreationIntent, for the parts of a state that can be malformed. */
  predicate Resumable(s: State, replicas: nat) {
    s.creation.Some? &&
    var c := s.creation.value;
    && c.op != 0 && c.networks > 0 && |c.replicas| == replicas
    && forall k :: 0 <= k < |c.replicas| ==>
         && c.replicas[k].network <= c.networks
         && (c.replicas[k].network == c.networks ==> c.replicas[k].phase == Pending)
         && (c.replicas[k].phase == Launching ==> c.replicas[k].attempt != 0)
  }

  /** acquireResourceCreateAttempt: a pending replica becomes the property of one attempt. */
  function Acquire(s: State, op: nat, index: nat, attempt: nat): Outcome {
    if s.creation.None? || s.creation.value.op != op || index >= |s.creation.value.replicas| then Fence
    else if s.phase != Creating || s.creation.value.phase != Creating then Fence
    else if s.creation.value.replicas[index].phase != Pending then Fence
    else
      var r := s.creation.value.replicas[index];
      Write(SetReplica(s, index, r.(phase := Launching, attempt := attempt)))
  }

  function SetReplica(s: State, index: nat, r: Replica): State
    requires s.creation.Some? && index < |s.creation.value.replicas|
  {
    s.(creation := Some(s.creation.value.(replicas := s.creation.value.replicas[index := r])))
  }

  datatype Mutation =
    | Attach(server: nat)
    | MarkActive(server: nat)
    | Exhaust(server: nat)
    | MarkProven
    | FinishCreation
    | RecordFailure(terminal: bool)
    | Escalate
  {
    predicate Slot() { Attach? || MarkActive? || Exhaust? || MarkProven? }
  }

  /** mutateCreationState: the common fence, then the transition's own test. */
  function MutateCreation(s: State, op: nat, index: nat, attempt: nat, m: Mutation): Outcome {
    if s.creation.None? || s.creation.value.op != op || s.phase in {Destroying, Destroyed}
       || s.creation.value.phase in {Destroying, Destroyed} then Fence
    else if m.Slot() then
      if index >= |s.creation.value.replicas| then Fence
      else if attempt != 0 && s.creation.value.replicas[index].attempt != attempt then Fence
      else MutateSlot(s, index, attempt, m)
    else MutateWhole(s, m)
  }

  predicate BothCreating(s: State) {
    s.phase == Creating && s.creation.Some? && s.creation.value.phase == Creating
  }

  function MutateSlot(s: State, index: nat, attempt: nat, m: Mutation): Outcome
    requires m.Slot() && s.creation.Some? && index < |s.creation.value.replicas|
  {
    var r := s.creation.value.replicas[index];
    match m
    case Attach(server) =>
      if !BothCreating(s) then Fence
      else if r.phase in {Attached, Active, Proven} then
        if r.server != server then Fence else Keep
      else if r.phase != Launching || attempt == 0 then Fence
      else Write(SetReplica(s, index, r.(server := server, phase := Attached))
                 .(listed := UpdateListed(s.listed, server, index)))
    case MarkActive(server) =>
      if !BothCreating(s) || r.server != server then Fence
      else if r.phase in {Active, Proven} then Keep
      else if r.phase != Attached then Fence
      else Write(SetReplica(s, index, r.(phase := Active))
                 .(listed := UpdateListed(s.listed, server, index)))
    case Exhaust(server) =>
      if !BothCreating(s) || r.server != server || r.phase !in {Attached, Active} then Fence
      else Write(SetReplica(s, index, Replica(r.network + 1, 0, Pending, 0))
                 .(listed := RemoveListed(s.listed, server)))
    case MarkProven =>
      if !BothCreating(s) then Fence
      else if r.phase == Proven then Keep
      else if r.phase != Active then Fence
      else Write(SetReplica(s, index, r.(phase := Proven)))
  }

  function SetPhases(s: State, p: Phase): State
    requires s.creation.Some?
  {
    s.(phase := p, creation := Some(s.creation.value.(phase := p)))
  }

  function MutateWhole(s: State, m: Mutation): Outcome
    requires !m.Slot() && s.creation.Some?
  {
    match m
    case FinishCreation =>
      if s.phase == Ready && s.creation.value.phase == Ready then Keep
      else if !BothCreating(s) then Fence
      else if exists r :: r in s.creation.value.replicas && r.phase != Proven then Fence
      else Write(SetPhases(s, Ready))
    case RecordFailure(terminal) =>
      if !BothCreating(s) then Fence
      else if terminal then Write(SetPhases(s, Failed)) else Write(s)
    case Escalate =>
      if s.phase == Escalated && s.creation.value.phase == Escalated then Keep
      else if !BothCreating(s) then Fence
      else Write(SetPhases(s, Escalated))
  }

  // ----- cleanup of a server that was created too late -------------------------

  /** First half of cleanupComputeAfterFence: take the cleanup fence, or leave. */
  function ClaimCleanup(s: State, op: nat, index: nat, attempt: nat, server: nat): Outcome {
    if s.creation.None? || s.creation.value.op != op || index >= |s.creation.value.replicas| then Keep
    else
      var r := s.creation.value.replicas[index];
      if r.attempt != attempt || r.phase == Gone then Keep
      else if s.phase != Escalated then Keep
      else Write(SetReplica(s, index, r.(phase := Cleaning, server := server)).(phase := Cleanup))
  }

  /** Second half: record the deletion, or give the replica its earlier phase back. */
  function FinishCleanup(s: State, op: nat, index: nat, attempt: nat, server: nat,
                         prior: ReplicaPhase, deleted: bool): Outcome
  {
    if s.phase != Cleanup || s.creation.None? || s.creation.value.op != op
        || index >= |s.creation.value.replicas| then Fence
    else
      var r := s.creation.value.replicas[index];
      if r.attempt != attempt || r.phase != Cleaning || r.server != server then Fence
      else Write(SetReplica(s, index, r.(phase := if deleted then Gone else prior))
                 .(phase := Escalated, listed := RemoveListed(s.listed, server)))
  }

  // ----- destroy ---------------------------------------------------------------

  /** What Destroy writes to take its fence from any phase but `destroying`. */
  function TakeDestroyFence(s: State): State {
    s.(phase := Destroying,
       creation := if s.creation.Some? then Some(s.creation.value.(phase := Destroying)) else None,
       exposure := if s.exposure.None? then None else
         var e := s.exposure.value;
         Some(e.(phase := Withdrawing,
                 unresolved := e.unresolved || e.phase in {Opening, Withdrawing, Closing})))
  }

  datatype Teardown =
    | MarkGone(index: nat)
    | DropPolicy(policy: nat)
    | CloseExposure
    | FinishDestroy
    | EscalateDestroy

  /** mutateDestroyState; an operation identifier of 0 is not compared. */
  function MutateDestroy(s: State, cop: nat, eop: nat, m: Teardown): Outcome {
    if s.phase != Destroying
       || (cop != 0 && (s.creation.None? || s.creation.value.op != cop))
       || (eop != 0 && (s.exposure.None? || s.exposure.value.op != eop)) then Fence
    else
      match m
      case MarkGone(index) =>
        if s.creation.None? || index >= |s.creation.value.replicas| then Fence
        else Write(SetReplica(s, index, s.creation.value.replicas[index].(phase := Gone))
                   .(listed := MarkDeleted(s.listed, index)))
      case DropPolicy(policy) => Write(s.(policies := RemovePolicy(s.policies, policy)))
      case CloseExposure =>
        if s.exposure.None? then Fence
        else Write(s.(exposure := Some(s.exposure.value.(phase := Withdrawn, unresolved := false))))
      case FinishDestroy =>
        Write(s.(phase := Destroyed,
                 creation := if s.creation.Some? then Some(s.creation.value.(phase := Destroyed)) else None,
                 exposure := if s.exposure.Some? then
                     Some(s.exposure.value.(phase := Withdrawn, unresolved := false)) else None))
      case EscalateDestroy =>
        Write(s.(phase := Escalated,
                 creation := if s.creation.Some? then Some(s.creation.value.(phase := Escalated)) else None,
                 exposure := if s.exposure.Some? then Some(s.exposure.value.(phase := Stuck)) else None))
  }

  function RemovePolicy(policies: seq<Policy>, id: nat): (r: seq<Policy>)
    ensures forall p :: p in r <==> p in policies && p.id != id
  {
    if policies == [] then []
    else if policies[0].id == id then RemovePolicy(policies[1..], id)
    else [policies[0]] + RemovePolicy(policies[1..], id)
  }

  /** Removing keeps the order and the number of the others: it works part by part. */
  lemma {:induction false} RemovePolicyParts(a: seq<Policy>, b: seq<Policy>, id: nat)
    ensures RemovePolicy(a + b, id) == RemovePolicy(a, id) + RemovePolicy(b, id)
  {
    if a == [] {
      assert a + b == b;
    } else {
      RemovePolicyParts(a[1..], b, id);
      assert (a + b)[1..] == a[1..] + b && (a + b)[0] == a[0];
    }
  }

  lemma RemovePolicyOne(p: Policy, id: nat)
    ensures RemovePolicy([p], id) == if p.id == id then [] else [p]
  {
    assert [p][1..] == [];
  }

  // ----- exposure --------------------------------------------------------------

  predicate Recoverable(s: State, recover: bool) {
    recover && s.phase == Escalated && s.exposure.Some? && s.exposure.value.phase == Stuck
        && s.exposure.value.unresolved
  }

  /** The precondition under which exposeSpecTCP goes on. */
  predicate Exposable(s: State, recover: bool) {
    (s.phase == Ready || Recoverable(s, recover)) && |s.listed| == 1 && !s.listed[0].deleted
  }

  function OpenExposure(s: State, eop: nat, identity: nat): State
    requires |s.listed| == 1
  {
    s.(exposure := Some(Exposure(eop, s.listed[0].server, identity, Opening, true)))
  }

  datatype ExposureMutation =
    | Complete(policy: nat, recovering: bool)
    | FailExposure
    | EscalateExposure

  /** mutateExposureState. */
  function MutateExposure(s: State, eop: nat, m: ExposureMutation): Outcome {
    if s.exposure.None? || s.exposure.value.op != eop || s.phase in {Destroying, Destroyed}
       || s.exposure.value.phase in {Withdrawing, Withdrawn} then Fence
    else
      var e := s.exposure.value;
      match m
      case Complete(policy, recover) =>
        var recovering := recover && s.phase == Escalated && e.phase == Stuck && e.unresolved;
        if !recovering && (s.phase != Ready || e.phase !in {Opening, Open}) then Fence
        else if exists k :: 0 <= k < |s.policies| && s.policies[k].id == policy then
          if e.phase == Open then Keep
          else Write(s.(exposure := Some(e.(phase := Open, unresolved := false))))
        else
          Write(s.(policies := s.policies + [Policy(policy, e.identity)], phase := Ready,
                   exposure := Some(e.(phase := Open, unresolved := false))))
      case FailExposure =>
        if s.phase != Ready || e.phase != Opening then Fence else Write(s)
      case EscalateExposure =>
        if s.phase == Escalated && e.phase == Stuck then Keep
        else if s.phase != Ready || e.phase != Opening then Fence
        else Write(s.(phase := Escalated, exposure := Some(e.(phase := Stuck))))
  }

  /** First half of cleanupExposureAfterFence. */
  function ClaimPolicyCleanup(s: State, eop: nat): Outcome {
    if s.exposure.None? || s.exposure.value.op != eop then Keep
    else if !s.exposure.value.unresolved || s.exposure.value.phase == Withdrawn then Keep
    else if s.phase != Escalated then Keep
    else Write(s.(phase := Cleanup, exposure := Some(s.exposure.value.(phase := Closing))))
  }

  /** Second half of cleanupExposureAfterFence. */
  function FinishPolicyCleanup(s: State, eop: nat, policy: nat, deleted: bool): Outcome {
    if s.phase != Cleanup || s.exposure.None? || s.exposure.value.op != eop
        || s.exposure.value.phase != Closing then Fence
    else
      Write(s.(phase := Escalated, policies := RemovePolicy(s.policies, policy),
               exposure := Some(s.exposure.value.(phase := if deleted then Withdrawn else Stuck,
                                                  unresolved := !deleted))))
  }
}
