/**
 The durable queue of initial-deployment executions: claim, renew and complete
 under a fencing token, with one receipt per operation. Every transaction is one
 step, any number of dispatchers take steps in any order, a commit may lose its
 acknowledgement, and a dispatcher may stop for good between two steps.
 */
module ExecutionQueue {
  import opened Base

  /** register-system, bootstrap-host, publish-release, wait-healthy, verify-public. */
  const OPERATIONS: nat := 5
  const BOOTSTRAP: nat := 1

  datatype OperationPhase = Pending | Running | Succeeded | Failed

  datatype DeploymentPhase = Authorized | Queued | Active | Done | Broken

  datatype Deployment = Deployment(phase: DeploymentPhase, operations: seq<OperationPhase>)

  datatype ExecutionPhase = Waiting | Claimed | Completed | Aborted

  datatype Execution = Execution(phase: ExecutionPhase, human: bool, token: nat, expires: int)

  /** Where a dispatcher stands in execute and operation. */
  datatype Worker =
    | Idle
    | At(execution: nat, token: nat, operation: nat)
    | Doing(execution: nat, token: nat, operation: nat)
    | Finishing(execution: nat, token: nat, operation: nat, ok: bool)
    | Ending(execution: nat, token: nat, ok: bool)

  datatype System = System(
    now: int,
    nextToken: nat,
    deployment: Deployment,
    executions: map<nat, Execution>,
    workers: map<nat, Worker>,
    begun: seq<nat>)

  datatype Event =
    | Tick(seconds: nat)
    | Enqueue(execution: nat, human: bool)
    | Start(who: nat)
    | Claim(who: nat, execution: nat, lease: nat, acked: bool)
    | Renew(who: nat, lease: nat)
    | Abort(who: nat)
    | Begin(who: nat, acked: bool)
    | Reopen(who: nat, acked: bool)
    | Perform(who: nat, ok: bool)
    | Finish(who: nat, acked: bool)
    | Complete(who: nat)
    | Stop(who: nat)

  function Initial(): System {
    System(0, 1, Deployment(Authorized, seq(OPERATIONS, _ => Pending)), map[], map[], [])
  }

  // ----- the transactions -------------------------------------------------------------------------

  predicate IsActive(e: Execution) { e.phase == Waiting || e.phase == Claimed }

  predicate AnyActive(executions: map<nat, Execution>) {
    exists id :: id in executions && IsActive(executions[id])
  }

  /** EnqueueInitialDeployment: every receipt but the succeeded ones is withdrawn. */
  function Requeue(d: Deployment): Deployment {
    Deployment(Queued, seq(|d.operations|, i requires 0 <= i < |d.operations| =>
      if d.operations[i] == Succeeded then Succeeded else Pending))
  }

  /** The condition under which an execution may be claimed. */
  predicate Claimable(e: Execution, now: int) {
    e.phase == Waiting || (e.phase == Claimed && e.expires <= now)
  }

  /** lockActiveInitialExecution: the claim is the caller's and its lease is live. */
  predicate Holds(y: System, execution: nat, token: nat) {
    && execution in y.executions && y.executions[execution].phase == Claimed
    && y.executions[execution].token == token && y.executions[execution].expires > y.now
  }

  predicate PriorFailed(executions: map<nat, Execution>, execution: nat) {
    exists id :: id in executions && id != execution && executions[id].phase == Aborted
  }

  function SetOperation(y: System, k: nat, p: OperationPhase): System
    requires k < |y.deployment.operations|
  {
    y.(deployment := y.deployment.(operations := y.deployment.operations[k := p]))
  }

  function Become(y: System, who: nat, w: Worker): System {
    y.(workers := y.workers[who := w])
  }

  function StepClaim(y: System, who: nat, id: nat, lease: nat, acked: bool): System {
    if id in y.executions && Claimable(y.executions[id], y.now) then
      var e := y.executions[id].(phase := Claimed, token := y.nextToken, expires := y.now + lease);
      Become(y, who, if acked then At(id, y.nextToken, 0) else Idle)
        .(executions := y.executions[id := e], nextToken := y.nextToken + 1,
            deployment := y.deployment.(phase := Active))
    else y
  }

  function StepRenew(y: System, w: Worker, lease: nat): System
    requires !w.Idle?
  {
    if Holds(y, w.execution, w.token) then
      y.(executions := y.executions[w.execution := y.executions[w.execution].(expires := y.now + lease)])
    else y
  }

  /** BeginInitialDeploymentOperation, and what operation makes of its answer. */
  function StepBegin(y: System, who: nat, w: Worker, acked: bool): System
    requires w.At?
  {
    if w.operation >= |y.deployment.operations|
        || !Holds(y, w.execution, w.token) then Become(y, who, Ending(w.execution, w.token, false))
    else if y.deployment.operations[w.operation] == Succeeded then
      Become(y, who, if acked then At(w.execution, w.token, w.operation + 1) else Ending(w.execution, w.token, false))
    else
      Become(SetOperation(y, w.operation, Running), who,
             if acked then Doing(w.execution, w.token, w.operation) else Ending(w.execution, w.token, false))
        .(begun := y.begun + [w.operation])
  }

  /** ReopenDestroyedInitialDeploymentHost, which only ever concerns the host receipt. */
  function StepReopen(y: System, who: nat, w: Worker, acked: bool): System
    requires w.At?
  {
    if BOOTSTRAP >= |y.deployment.operations| || !Holds(y, w.execution, w.token) || !y.executions[w.execution].human
       || !PriorFailed(y.executions, w.execution) then Become(y, who, Ending(w.execution, w.token, false))
    else
      Become(if y.deployment.operations[BOOTSTRAP] == Succeeded then SetOperation(y, BOOTSTRAP, Pending) else y,
             who, if acked then w else Ending(w.execution, w.token, false))
  }

  /** FinishInitialDeploymentOperation. */
  function StepFinish(y: System, who: nat, w: Worker, acked: bool): System
    requires w.Finishing?
  {
    if w.operation >= |y.deployment.operations|
        || !Holds(y, w.execution, w.token) then Become(y, who, Ending(w.execution, w.token, false))
    else
      Become(SetOperation(y, w.operation, if w.ok then Succeeded else Failed), who,
             if acked && w.ok then At(w.execution, w.token, w.operation + 1) else Ending(w.execution, w.token, false))
  }

  /** CompleteInitialDeploymentExecution. */
  function StepComplete(y: System, who: nat, w: Worker): System
    requires w.Ending?
  {
    if Holds(y, w.execution, w.token) then
      var e := y.executions[w.execution].(phase := if w.ok then Completed else Aborted);
      Become(y, who, Idle).(executions := y.executions[w.execution := e],
                            deployment := y.deployment.(phase := if w.ok then Done else Broken))
    else Become(y, who, Idle)
  }

  function Act(y: System, who: nat, w: Worker, e: Event): System {
    match e
    case Claim(_, id, lease, acked) => if w.Idle? then StepClaim(y, who, id, lease, acked) else y
    case Renew(_, lease) => if w.Idle? then y else StepRenew(y, w, lease)
    case Abort(_) => if w.At? || w.Finishing? then Become(y, who, Ending(w.execution, w.token, false)) else y
    case Begin(_, acked) =>
      if w.At? && w.operation < OPERATIONS then StepBegin(y, who, w, acked)
      else if w.At? then Become(y, who, Ending(w.execution, w.token, true))
      else y
    case Reopen(_, acked) => if w.At? && w.operation == BOOTSTRAP then StepReopen(y, who, w, acked) else y
    case Perform(_, ok) => if w.Doing? then Become(y, who, Finishing(w.execution, w.token, w.operation, ok)) else y
    case Finish(_, acked) => if w.Finishing? then StepFinish(y, who, w, acked) else y
    case Complete(_) => if w.Ending? then StepComplete(y, who, w) else y
    case Stop(_) => Become(y, who, Idle)
    case _ => y
  }

  function Step(y: System, e: Event): System {
    match e
    case Tick(seconds) => y.(now := y.now + seconds)
    case Enqueue(id, human) =>
      if id in y.executions || y.deployment.phase !in {Authorized, Broken} || AnyActive(y.executions) then y
      else y.(executions := y.executions[id := Execution(Waiting, human, 0, 0)], deployment := Requeue(y.deployment))
    case Start(who) => if who in y.workers then y else Become(y, who, Idle)
    case _ => if e.who in y.workers then Act(y, e.who, y.workers[e.who], e) else y
  }

  function Run(events: seq<Event>): System {
    if events == [] then Initial() else Step(Run(events[..|events| - 1]), events[|events| - 1])
  }

  // ----- invariant ------------------------------------------------------------------------------------

  ghost predicate AllSucceeded(d: Deployment, upto: nat) {
    |d.operations| == OPERATIONS && forall k :: 0 <= k < upto && k < OPERATIONS ==> d.operations[k] == Succeeded
  }

  /** The token is still the stored one of a claimed execution. */
  predicate Current(y: System, execution: nat, token: nat) {
    execution in y.executions && y.executions[execution].phase == Claimed && y.executions[execution].token == token
  }

  /** While its token is current, a dispatcher knows which receipts are in. */
  ghost predicate WorkerOk(y: System, w: Worker) {
    match w
    case Idle => true
    case At(e, t, k) => 0 < t < y.nextToken && (Current(y, e, t) ==> AllSucceeded(y.deployment, k))
    case Doing(e, t, k) =>
      0 < t < y.nextToken && k < OPERATIONS
          && (Current(y, e, t) ==> AllSucceeded(y.deployment, k) && y.deployment.operations[k] == Running)
    case Finishing(e, t, k, _) =>
      0 < t < y.nextToken && k < OPERATIONS
          && (Current(y, e, t) ==> AllSucceeded(y.deployment, k) && y.deployment.operations[k] == Running)
    case Ending(e, t, ok) => 0 < t < y.nextToken && (ok && Current(y, e, t) ==> AllSucceeded(y.deployment, OPERATIONS))
  }

  ghost predicate QueueOk(y: System) {
    && y.nextToken > 0 && |y.deployment.operations| == OPERATIONS
    && (forall id :: id in y.executions ==> y.executions[id].token < y.nextToken)
    && (forall i, j ::
          i in y.executions && j in y.executions && IsActive(y.executions[i]) && IsActive(y.executions[j]) ==> i == j)
    && (AnyActive(y.executions) ==> y.deployment.phase in {Queued, Active})
    && (y.deployment.phase == Done ==> AllSucceeded(y.deployment, OPERATIONS))
  }

  ghost predicate DistinctTokens(z: map<nat, Worker>) {
    forall p, q :: p in z && q in z && p != q && !z[p].Idle? && !z[q].Idle? ==> z[p].token != z[q].token
  }

  ghost predicate Inv(y: System) {
    && QueueOk(y) && DistinctTokens(y.workers)
    && forall p :: p in y.workers ==> WorkerOk(y, y.workers[p])
  }

  // ----- every step keeps it -----------------------------------------------------------------------------

  /** At most one dispatcher is current, so receipts change only under the one that is. */
  lemma OnlyOneCurrent(y: System, p: nat, q: nat)
    requires Inv(y) && p in y.workers && q in y.workers && p != q && !y.workers[p].Idle? && !y.workers[q].Idle?
    requires Current(y, y.workers[p].execution, y.workers[p].token)
    ensures !Current(y, y.workers[q].execution, y.workers[q].token)
  {
    var a, b := y.workers[p], y.workers[q];
    assert IsActive(y.executions[a.execution]);
    assert b.execution in y.executions && y.executions[b.execution].phase == Claimed ==>
        IsActive(y.executions[b.execution]);
  }

  /** What a turn of `w` leaves to the others. */
  ghost predicate Fair(y: System, w: Worker, z: System) {
    && y.now <= z.now && y.nextToken <= z.nextToken
    && (forall e: nat, t: nat :: Current(z, e, t) && t < y.nextToken ==> Current(y, e, t))
    && (z.deployment.operations == y.deployment.operations || (!w.Idle? && Current(y, w.execution, w.token)))
  }

  lemma OthersOk(y: System, who: nat, z: System, p: nat)
    requires Inv(y) && who in y.workers && p in y.workers && p != who && Fair(y, y.workers[who], z)
    ensures WorkerOk(z, y.workers[p])
  {
    var w := y.workers[p];
    assert WorkerOk(y, w);
    if !w.Idle? && Current(z, w.execution, w.token) && z.deployment.operations != y.deployment.operations {
      OnlyOneCurrent(y, who, p);
    }
  }

  lemma ActOk(y: System, who: nat, e: Event)
    requires Inv(y) && who in y.workers
    ensures var z := Act(y, who, y.workers[who], e);
            && QueueOk(z) && Fair(y, y.workers[who], z)
            && z.workers == y.workers[who := z.workers[who]] && WorkerOk(z, z.workers[who])
            && (z.workers[who].Idle? || z.workers[who].token >= y.nextToken
                || (!y.workers[who].Idle? && z.workers[who].token == y.workers[who].token))
  {
    var w := y.workers[who];
    assert WorkerOk(y, w);
    match e
    case Claim(_, id, lease, acked) => if w.Idle? { ClaimOk(y, who, id, lease, acked); }
    case Renew(_, lease) => if !w.Idle? { RenewOk(y, who, lease); }
    case Begin(_, _) => MarkOk(y, who, e);
    case Reopen(_, _) => MarkOk(y, who, e);
    case Finish(_, _) => MarkOk(y, who, e);
    case Complete(_) => if w.Ending? { CompleteOk(y, who); }
    case _ =>
  }

  /** The transactions that touch a receipt. */
  lemma MarkOk(y: System, who: nat, e: Event)
    requires Inv(y) && who in y.workers && (e.Begin? || e.Reopen? || e.Finish?)
    ensures var w, z := y.workers[who], Act(y, who, y.workers[who], e);
            && z.executions == y.executions && z.nextToken == y.nextToken && z.now == y.now
                && z.deployment.phase == y.deployment.phase
            && |z.deployment.operations| == OPERATIONS && z.workers == y.workers[who := z.workers[who]]
                && WorkerOk(z, z.workers[who])
            && (z.deployment.operations == y.deployment.operations || (!w.Idle? && Current(y, w.execution, w.token)))
            && (z.deployment.phase == Done ==> z.deployment == y.deployment)
            && (w.Idle? ==> z.workers[who].Idle?)
                && (!w.Idle? ==> !z.workers[who].Idle? && z.workers[who].token == w.token)
  {
    var w := y.workers[who];
    assert WorkerOk(y, w);
    if !w.Idle? && w.execution in y.executions && y.executions[w.execution].phase == Claimed {
      assert IsActive(y.executions[w.execution]);
    }
  }

  lemma ClaimOk(y: System, who: nat, id: nat, lease: nat, acked: bool)
    requires Inv(y) && who in y.workers && y.workers[who].Idle?
    ensures var z := StepClaim(y, who, id, lease, acked);
            && QueueOk(z) && Fair(y, Idle, z) && z.workers == y.workers[who := z.workers[who]]
            && WorkerOk(z, z.workers[who]) && (z.workers[who].Idle? || z.workers[who].token >= y.nextToken)
  {
    var z := StepClaim(y, who, id, lease, acked);
    assert AnyActive(z.executions) ==> z == y || (id in y.executions && IsActive(y.executions[id]));
  }

  lemma RenewOk(y: System, who: nat, lease: nat)
    requires Inv(y) && who in y.workers && !y.workers[who].Idle?
    ensures var z := StepRenew(y, y.workers[who], lease);
            QueueOk(z) && Fair(y, y.workers[who], z) && z.workers == y.workers && WorkerOk(z, y.workers[who])
  {
    var w := y.workers[who];
    assert WorkerOk(y, w);
    var z := StepRenew(y, w, lease);
    if Holds(y, w.execution, w.token) { assert IsActive(y.executions[w.execution]); }
  }

  lemma CompleteOk(y: System, who: nat)
    requires Inv(y) && who in y.workers && y.workers[who].Ending?
    ensures var z := StepComplete(y, who, y.workers[who]);
            QueueOk(z) && Fair(y, y.workers[who], z) && z.workers == y.workers[who := Idle]
  {
    var w := y.workers[who];
    assert WorkerOk(y, w);
    var z := StepComplete(y, who, w);
    if Holds(y, w.execution, w.token) {
      assert IsActive(y.executions[w.execution]);
      assert !AnyActive(z.executions);
    }
  }

  lemma StepInv(y: System, e: Event)
    requires Inv(y)
    ensures Inv(Step(y, e))
  {
    var z := Step(y, e);
    if e.Tick? || e.Start? {
    } else if e.Enqueue? {
      EnqueueInv(y, e.execution, e.human);
    } else if e.who in y.workers {
      ActOk(y, e.who, e);
      forall p | p in y.workers && p != e.who ensures WorkerOk(z, z.workers[p]) { OthersOk(y, e.who, z, p); }
      forall p | p in y.workers && !y.workers[p].Idle?
          ensures y.workers[p].token < y.nextToken { assert WorkerOk(y, y.workers[p]); }
    }
  }

  lemma EnqueueInv(y: System, id: nat, human: bool)
    requires Inv(y)
    ensures Inv(Step(y, Enqueue(id, human)))
  {
    var z := Step(y, Enqueue(id, human));
    if z != y {
      forall e: nat, t: nat ensures !Current(y, e, t) { assert e in y.executions ==> !IsActive(y.executions[e]); }
      forall p | p in y.workers ensures WorkerOk(z, z.workers[p]) { assert WorkerOk(y, y.workers[p]); }
    }
  }

  lemma {:induction false} RunInv(events: seq<Event>)
    ensures Inv(Run(events))
  {
    if events != [] {
      RunInv(events[..|events| - 1]);
      StepInv(Run(events[..|events| - 1]), events[|events| - 1]);
    }
  }

  // ----- the theorems -----------------------------------------------------------------------------------------

  /** A deployment is `succeeded` only with all five operations succeeded, in every reachable state. */
  lemma SucceededMeansAllFive(events: seq<Event>)
    ensures var d := Run(events).deployment;
            d.phase == Done ==>
                |d.operations| == OPERATIONS && forall k :: 0 <= k < OPERATIONS ==> d.operations[k] == Succeeded
  {
    RunInv(events);
  }

  /** A claim that is still live is never handed to anyone else. */
  lemma LiveClaimIsNeverStolen(events: seq<Event>, e: Event, id: nat)
    requires id in Run(events).executions
    requires Run(events).executions[id].phase == Claimed && Run(events).executions[id].expires > Run(events).now
    ensures var y, z := Run(events), Step(Run(events), e);
            id in z.executions && z.executions[id].token == y.executions[id].token
  {
    RunInv(events);
  }

  /** The dispatcher's execution has been handed on, completed, or was never its own. */
  predicate Superseded(y: System, who: nat) {
    who in y.workers && !y.workers[who].Idle? && !Current(y, y.workers[who].execution, y.workers[who].token)
  }

  predicate By(e: Event, who: nat) {
    !e.Tick? && !e.Enqueue? && e.who == who
  }

  lemma OwnStepIsVain(y: System, e: Event, who: nat)
    requires Inv(y) && Superseded(y, who) && By(e, who)
    ensures var z := Step(y, e); z.executions == y.executions && z.deployment == y.deployment && z.begun == y.begun
    ensures Superseded(Step(y, e), who) || Step(y, e).workers[who].Idle?
  {
  }

  lemma OtherStepKeeps(y: System, e: Event, who: nat)
    requires Inv(y) && Superseded(y, who) && !By(e, who)
    ensures Superseded(Step(y, e), who)
  {
    assert WorkerOk(y, y.workers[who]);
  }

  /**
   A superseded dispatcher can do no more harm: whatever it tries next leaves every
   execution and every receipt as it is, and it stays superseded until it gives up.
   */
  lemma SupersededIsHarmless(events: seq<Event>, e: Event, who: nat)
    requires Superseded(Run(events), who)
    ensures var y, z := Run(events), Step(Run(events), e);
            && (By(e, who) ==> z.executions == y.executions && z.deployment == y.deployment && z.begun == y.begun)
            && (Superseded(z, who) || z.workers[who].Idle?)
  {
    RunInv(events);
    if By(e, who) { OwnStepIsVain(Run(events), e, who); } else { OtherStepKeeps(Run(events), e, who); }
  }

  predicate Final(e: Execution) { e.phase == Completed || e.phase == Aborted }

  lemma StepFinal(y: System, e: Event, id: nat)
    requires id in y.executions && Final(y.executions[id])
    ensures id in Step(y, e).executions && Step(y, e).executions[id] == y.executions[id]
  {
  }

  /** Each execution completes at most once: a completed record is never written again. */
  lemma {:induction false} CompletesOnce(events: seq<Event>, more: seq<Event>, id: nat)
    requires id in Run(events).executions && Final(Run(events).executions[id])
    ensures id in Run(events + more).executions && Run(events + more).executions[id] == Run(events).executions[id]
  {
    if more == [] {
      assert events + more == events;
    } else {
      var front := more[..|more| - 1];
      CompletesOnce(events, front, id);
      assert (events + more)[..|events + more| - 1] == events + front;
      StepFinal(Run(events + front), more[|more| - 1], id);
    }
  }

  /** The receipt of `k` stays, and nothing begins `k` again. */
  ghost predicate Kept(y: System, z: System, k: nat) {
    && k < |z.deployment.operations| && z.deployment.operations[k] == Succeeded
    && y.begun <= z.begun && forall i :: |y.begun| <= i < |z.begun| ==> z.begun[i] != k
  }

  lemma StepKeeps(y: System, e: Event, k: nat)
    requires Inv(y) && k < |y.deployment.operations| && y.deployment.operations[k] == Succeeded
              && (e.Reopen? ==> k != BOOTSTRAP)
    ensures Kept(y, Step(y, e), k)
  {
    if !(e.Tick? || e.Enqueue?) && e.who in y.workers { assert WorkerOk(y, y.workers[e.who]); }
  }

  lemma NextKeeps(events: seq<Event>, e: Event, k: nat)
    requires k < |Run(events).deployment.operations| && Run(events).deployment.operations[k] == Succeeded
              && (e.Reopen? ==> k != BOOTSTRAP)
    ensures Kept(Run(events), Run(events + [e]), k)
  {
    RunInv(events);
    assert (events + [e])[..|events|] == events;
    StepKeeps(Run(events), e, k);
  }

  lemma KeptTransitive(x: System, y: System, z: System, k: nat)
    requires Kept(x, y, k) && Kept(y, z, k)
    ensures Kept(x, z, k)
  {
  }

  /**
   An operation that has succeeded never begins again, at any later moment of any
   run, except the host bootstrap after the destroyed host was explicitly reopened.
   */
  lemma {:induction false} SucceededNeverBeginsAgain(events: seq<Event>, more: seq<Event>, k: nat)
    requires k < OPERATIONS && k < |Run(events).deployment.operations|
              && Run(events).deployment.operations[k] == Succeeded
    requires k == BOOTSTRAP ==> forall i :: 0 <= i < |more| ==> !more[i].Reopen?
    ensures Kept(Run(events), Run(events + more), k)
  {
    if more == [] {
      assert events + more == events;
    } else {
      var front, last := more[..|more| - 1], more[|more| - 1];
      SucceededNeverBeginsAgain(events, front, k);
      NextKeeps(events + front, last, k);
      assert events + front + [last] == events + more;
      KeptTransitive(Run(events), Run(events + front), Run(events + more), k);
    }
  }
}
