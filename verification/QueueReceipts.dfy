/**
 What the receipts of an initial deployment rest on: in every run a receipt says `succeeded` only because a
 dispatcher performed that operation, successfully and under a claim that still held; and a dispatcher that
 is left alone does get its deployment done.
 */
module QueueReceipts {
  import opened Base
  import opened ExecutionQueue

  lemma RunNext(events: seq<Event>, m: nat)
    requires m < |events|
    ensures Run(events[..m + 1]) == Step(Run(events[..m]), events[m])
  {
    assert events[..m + 1][..m] == events[..m];
  }

  // ----- claims only come to an end -----------------------------------------------------------------

  lemma StepFair(y: System, e: Event, id: nat, token: nat)
    requires Inv(y) && Current(Step(y, e), id, token) && token < y.nextToken
    ensures Current(y, id, token)
  {
    if !(e.Tick? || e.Start? || e.Enqueue?) && e.who in y.workers { ActOk(y, e.who, e); }
  }

  lemma TokensGrow(y: System, e: Event)
    requires Inv(y)
    ensures y.nextToken <= Step(y, e).nextToken
  {
    if !(e.Tick? || e.Start? || e.Enqueue?) && e.who in y.workers { ActOk(y, e.who, e); }
  }

  lemma {:induction false} TokensAscend(events: seq<Event>, m: nat, n: nat)
    requires m <= n <= |events|
    ensures Run(events[..m]).nextToken <= Run(events[..n]).nextToken
  {
    if m < n {
      TokensAscend(events, m, n - 1);
      RunInv(events[..n - 1]);
      TokensGrow(Run(events[..n - 1]), events[n - 1]);
      RunNext(events, n - 1);
    }
  }

  lemma CurrentJustBefore(events: seq<Event>, n: nat, id: nat, token: nat)
    requires 0 < n <= |events| && Current(Run(events[..n]), id, token) && token < Run(events[..n - 1]).nextToken
    ensures Current(Run(events[..n - 1]), id, token)
  {
    RunInv(events[..n - 1]);
    RunNext(events, n - 1);
    StepFair(Run(events[..n - 1]), events[n - 1], id, token);
  }

  /** A token that is current now was current at every earlier moment since it was given. */
  lemma {:induction false} CurrentBefore(events: seq<Event>, m: nat, n: nat, id: nat, token: nat)
    requires m <= n <= |events| && Current(Run(events[..n]), id, token) && token < Run(events[..m]).nextToken
    ensures Current(Run(events[..m]), id, token)
  {
    if m < n {
      TokensAscend(events, m, n - 1);
      CurrentJustBefore(events, n, id, token);
      CurrentBefore(events, m, n - 1, id, token);
    }
  }

  // ----- whoever reports an outcome has performed the operation ------------------------------------------

  /** At moment `m` dispatcher `who` stands at `w`. */
  predicate Stands(events: seq<Event>, m: nat, who: nat, w: Worker)
    requires m <= |events|
  {
    who in Run(events[..m]).workers && Run(events[..m]).workers[who] == w
  }

  /** Event `i` was the performance, with this outcome, of what `who` had begun; it has waited to report since. */
  ghost predicate Performed(events: seq<Event>, i: nat, n: nat, who: nat, id: nat, token: nat, k: nat, ok: bool)
    requires n <= |events|
  {
    && i < n && events[i] == Perform(who, ok) && Stands(events, i, who, Doing(id, token, k))
    && forall m :: i < m <= n ==> Stands(events, m, who, Finishing(id, token, k, ok))
  }

  lemma OnlyPerforms(y: System, e: Event, who: nat, id: nat, token: nat, k: nat, ok: bool)
    requires who in Step(y, e).workers && Step(y, e).workers[who] == Finishing(id, token, k, ok)
    ensures who in y.workers
    ensures y.workers[who] == Finishing(id, token, k, ok) || (e == Perform(who, ok)
                && y.workers[who] == Doing(id, token, k))
  {
  }

  lemma {:induction false} FinishingWasPerformed(events: seq<Event>, n: nat, who: nat, id: nat, token: nat, k: nat,
                                                 ok: bool) returns (i: nat)
    requires n <= |events| && Stands(events, n, who, Finishing(id, token, k, ok))
    ensures Performed(events, i, n, who, id, token, k, ok)
    decreases n
  {
    assert n > 0;
    RunNext(events, n - 1);
    OnlyPerforms(Run(events[..n - 1]), events[n - 1], who, id, token, k, ok);
    if Stands(events, n - 1, who, Finishing(id, token, k, ok)) {
      i := FinishingWasPerformed(events, n - 1, who, id, token, k, ok);
    } else {
      i := n - 1;
    }
  }

  // ----- receipts --------------------------------------------------------------------------------------------

  function Receipt(events: seq<Event>, m: nat, k: nat): OperationPhase
    requires m <= |events|
  {
    if k < |Run(events[..m]).deployment.operations| then Run(events[..m]).deployment.operations[k] else Pending
  }

  /** While the outcome waited to be reported, the receipt said `running`. */
  lemma RunningMeanwhile(events: seq<Event>, i: nat, n: nat, who: nat, id: nat, token: nat, k: nat, ok: bool, m: nat)
    requires n <= |events| && Performed(events, i, n, who, id, token, k, ok) && i < m <= n
    requires Current(Run(events[..n]), id, token)
    ensures Receipt(events, m, k) == Running
  {
    RunInv(events[..m]);
    assert Stands(events, m, who, Finishing(id, token, k, ok));
    assert WorkerOk(Run(events[..m]), Run(events[..m]).workers[who]);
    CurrentBefore(events, m, n, id, token);
  }

  /**
   The receipt rests on a performance: event `i` performed operation `k` with success, event `j` reported it
   under a claim that held, the receipt said `running` in between and has said `succeeded` ever since.
   */
  ghost predicate Rests(events: seq<Event>, k: nat, i: nat, j: nat, who: nat, id: nat, token: nat) {
    && i < j < |events| && Performed(events, i, j, who, id, token, k, true)
    && events[j].Finish? && events[j].who == who && Holds(Run(events[..j]), id, token)
    && (forall m :: i < m <= j ==> Receipt(events, m, k) == Running)
    && (forall m :: j < m <= |events| ==> Receipt(events, m, k) == Succeeded)
  }

  lemma NewReceipt(y: System, e: Event, k: nat)
    requires Inv(y) && k < OPERATIONS && y.deployment.operations[k] != Succeeded
    requires |Step(y, e).deployment.operations| == OPERATIONS && Step(y, e).deployment.operations[k] == Succeeded
    ensures e.Finish? && e.who in y.workers && y.workers[e.who].Finishing? && y.workers[e.who].ok
    ensures y.workers[e.who].operation == k && Holds(y, y.workers[e.who].execution, y.workers[e.who].token)
  {
  }

  lemma RestsNew(events: seq<Event>, k: nat) returns (i: nat, j: nat, who: nat, id: nat, token: nat)
    requires events != [] && k < OPERATIONS
    requires Receipt(events, |events|, k) == Succeeded && Receipt(events, |events| - 1, k) != Succeeded
    ensures Rests(events, k, i, j, who, id, token)
  {
    j := |events| - 1;
    RunInv(events[..j]);
    RunInv(events);
    RunNext(events, j);
    assert events[..j + 1] == events;
    NewReceipt(Run(events[..j]), events[j], k);
    who := events[j].who;
    var w := Run(events[..j]).workers[who];
    id, token := w.execution, w.token;
    i := FinishingWasPerformed(events, j, who, id, token, k, true);
    forall m | i < m <= j ensures Receipt(events, m, k) == Running {
      RunningMeanwhile(events, i, j, who, id, token, k, true, m);
    }
  }

  lemma PerformedLonger(events: seq<Event>, front: seq<Event>, i: nat, n: nat, who: nat, id: nat, token: nat, k: nat)
    requires front <= events && n <= |front| && Performed(front, i, n, who, id, token, k, true)
    ensures Performed(events, i, n, who, id, token, k, true)
  {
    assert forall m :: 0 <= m <= n ==> front[..m] == events[..m];
    forall m | i < m <= n ensures Stands(events, m, who, Finishing(id, token, k, true)) {
      assert Stands(front, m, who, Finishing(id, token, k, true));
    }
  }

  lemma RestsLonger(events: seq<Event>, k: nat, i: nat, j: nat, who: nat, id: nat, token: nat)
    requires events != [] && Rests(events[..|events| - 1], k, i, j, who, id, token)
    requires Receipt(events, |events|, k) == Succeeded
    ensures Rests(events, k, i, j, who, id, token)
  {
    var front := events[..|events| - 1];
    PerformedLonger(events, front, i, j, who, id, token, k);
    assert forall m :: 0 <= m <= |front| ==> front[..m] == events[..m];
    forall m | j < m <= |events| ensures Receipt(events, m, k) == Succeeded {
      if m <= |front| { assert Receipt(front, m, k) == Succeeded; }
    }
    forall m | i < m <= j ensures Receipt(events, m, k) == Running { assert Receipt(front, m, k) == Running; }
  }

  /** In every run a receipt says `succeeded` only if it rests on a successful performance of its operation. */
  lemma {:induction false} SucceededWasPerformed(events: seq<Event>, k: nat)
    returns (i: nat, j: nat, who: nat, id: nat, token: nat)
    requires k < |Run(events).deployment.operations| && Run(events).deployment.operations[k] == Succeeded
    ensures Rests(events, k, i, j, who, id, token)
  {
    RunInv(events);
    assert events[..|events|] == events && events != [];
    var front := events[..|events| - 1];
    RunInv(front);
    if Run(front).deployment.operations[k] == Succeeded {
      i, j, who, id, token := SucceededWasPerformed(front, k);
      RestsLonger(events, k, i, j, who, id, token);
    } else {
      i, j, who, id, token := RestsNew(events, k);
    }
  }

  /** A deployment that is done had all five operations performed successfully. */
  lemma DoneWasPerformed(events: seq<Event>, k: nat) returns (i: nat, j: nat, who: nat, id: nat, token: nat)
    requires Run(events).deployment.phase == Done && k < OPERATIONS
    ensures Rests(events, k, i, j, who, id, token)
  {
    SucceededMeansAllFive(events);
    i, j, who, id, token := SucceededWasPerformed(events, k);
  }

  /** What is reported under a claim that holds is what is recorded, and nothing else is touched. */
  lemma OutcomeIsRecorded(events: seq<Event>, who: nat, acked: bool)
    requires who in Run(events).workers && Run(events).workers[who].Finishing?
    requires var w := Run(events).workers[who]; Holds(Run(events), w.execution, w.token)
    ensures var y, z := Run(events), Step(Run(events), Finish(who, acked));
            var w := y.workers[who];
            && w.operation < OPERATIONS == |z.deployment.operations| == |y.deployment.operations|
            && (w.ok ==> z.deployment.operations[w.operation] == Succeeded)
            && (!w.ok ==> z.deployment.operations[w.operation] == Failed)
            && (!w.ok ==> z.workers[who].Ending? && !z.workers[who].ok)
            && (forall k :: 0 <= k < OPERATIONS && k != w.operation ==>
                  z.deployment.operations[k] == y.deployment.operations[k])
            && z.deployment.phase == y.deployment.phase && z.executions == y.executions
  {
    RunInv(events);
    assert WorkerOk(Run(events), Run(events).workers[who]);
  }

  // ----- a dispatcher left alone -----------------------------------------------------------------------------

  function Drive(y: System, events: seq<Event>): System {
    if events == [] then y else Step(Drive(y, events[..|events| - 1]), events[|events| - 1])
  }

  lemma {:induction false} DriveTwice(y: System, a: seq<Event>, b: seq<Event>)
    ensures Drive(y, a + b) == Drive(Drive(y, a), b)
  {
    if b == [] {
      assert a + b == a;
    } else {
      DriveTwice(y, a, b[..|b| - 1]);
      assert (a + b)[..|a + b| - 1] == a + b[..|b| - 1];
    }
  }

  lemma {:induction false} RunDrive(a: seq<Event>, b: seq<Event>)
    ensures Run(a + b) == Drive(Run(a), b)
  {
    if b == [] {
      assert a + b == a;
    } else {
      RunDrive(a, b[..|b| - 1]);
      assert (a + b)[..|a + b| - 1] == a + b[..|b| - 1];
    }
  }

  lemma DriveOne(y: System, e: Event)
    ensures Drive(y, [e]) == Step(y, e)
  {
    assert [e][..0] == [];
  }

  lemma DriveThree(y: System, a: Event, b: Event, c: Event)
    ensures Drive(y, [a, b, c]) == Step(Step(Step(y, a), b), c)
  {
    DriveOne(y, a);
    DriveTwice(y, [a], [b]);
    DriveOne(Step(y, a), b);
    DriveTwice(y, [a] + [b], [c]);
    DriveOne(Step(Step(y, a), b), c);
    assert [a] + [b] + [c] == [a, b, c];
  }

  /** The dispatcher holds its claim and stands before operation `k`. */
  predicate Before(y: System, who: nat, id: nat, k: nat) {
    && who in y.workers && y.workers[who].At? && y.workers[who].execution == id && y.workers[who].operation == k
    && Holds(y, id, y.workers[who].token) && |y.deployment.operations| == OPERATIONS
    && forall i :: 0 <= i < k && i < OPERATIONS ==> y.deployment.operations[i] == Succeeded
  }

  function Try(who: nat): seq<Event> {
    [Begin(who, true), Perform(who, true), Finish(who, true)]
  }

  lemma TryOne(y: System, who: nat, id: nat, k: nat)
    requires Before(y, who, id, k) && k < OPERATIONS
    ensures Before(Drive(y, Try(who)), who, id, k + 1)
  {
    DriveThree(y, Begin(who, true), Perform(who, true), Finish(who, true));
  }

  function TryAll(who: nat, n: nat): seq<Event> {
    if n == 0 then [] else TryAll(who, n - 1) + Try(who)
  }

  lemma {:induction false} TryThem(y: System, who: nat, id: nat, n: nat)
    requires Before(y, who, id, 0) && n <= OPERATIONS
    ensures Before(Drive(y, TryAll(who, n)), who, id, n)
  {
    if n > 0 {
      TryThem(y, who, id, n - 1);
      DriveTwice(y, TryAll(who, n - 1), Try(who));
      TryOne(Drive(y, TryAll(who, n - 1)), who, id, n - 1);
    }
  }

  lemma ClaimIt(y: System, who: nat, id: nat, lease: nat)
    requires Inv(y) && who in y.workers && y.workers[who].Idle? && id in y.executions && lease > 0
    requires y.executions[id].phase == Waiting
              || (y.executions[id].phase == Claimed && y.executions[id].expires <= y.now)
    ensures Before(Drive(y, [Claim(who, id, lease, true)]), who, id, 0)
  {
    DriveOne(y, Claim(who, id, lease, true));
  }

  lemma CloseIt(y: System, who: nat, id: nat)
    requires Before(y, who, id, OPERATIONS)
    ensures var z := Drive(y, [Begin(who, true), Complete(who)]);
            z.deployment.phase == Done && id in z.executions && z.executions[id].phase == Completed
  {
    DriveOne(y, Begin(who, true));
    DriveOne(Step(y, Begin(who, true)), Complete(who));
    DriveTwice(y, [Begin(who, true)], [Complete(who)]);
    assert [Begin(who, true)] + [Complete(who)] == [Begin(who, true), Complete(who)];
  }

  /**
   From every reachable state: an idle dispatcher that is left alone with an execution that waits, or whose claim
   has expired, and meets only successes, brings the deployment to `succeeded` and the execution to its end.
   */
  lemma AloneGetsDone(events: seq<Event>, who: nat, id: nat, lease: nat)
    requires var y := Run(events);
             && who in y.workers && y.workers[who].Idle? && id in y.executions && lease > 0
             && (y.executions[id].phase == Waiting
                 || (y.executions[id].phase == Claimed && y.executions[id].expires <= y.now))
    ensures var script := [Claim(who, id, lease, true)] + TryAll(who, OPERATIONS) + [Begin(who, true), Complete(who)];
            var z := Run(events + script);
            z.deployment.phase == Done && id in z.executions && z.executions[id].phase == Completed
  {
    var y := Run(events);
    var a, b, c := [Claim(who, id, lease, true)], TryAll(who, OPERATIONS), [Begin(who, true), Complete(who)];
    RunInv(events);
    RunDrive(events, a + b + c);
    DriveTwice(y, a + b, c);
    DriveTwice(y, a, b);
    ClaimIt(y, who, id, lease);
    TryThem(Drive(y, a), who, id, OPERATIONS);
    CloseIt(Drive(y, a + b), who, id);
  }

  // ----- after a failure ---------------------------------------------------------------------------------------

  lemma StepQueued(y: System, e: Event)
    requires Inv(y) && (y.deployment.phase == Queued ==>
               forall k :: 0 <= k < OPERATIONS ==> y.deployment.operations[k] in {Pending, Succeeded})
    requires y.deployment.phase == Queued ==> forall id :: id in y.executions ==> y.executions[id].phase != Claimed
    ensures var z := Step(y, e);
            && |z.deployment.operations| == OPERATIONS
            && (z.deployment.phase == Queued ==>
                  forall k :: 0 <= k < OPERATIONS ==> z.deployment.operations[k] in {Pending, Succeeded})
            && (z.deployment.phase == Queued ==> forall id :: id in z.executions ==> z.executions[id].phase != Claimed)
  {
    StepInv(y, e);
  }

  /** In a queue no receipt is left running or failed: what did not succeed is to be done again. */
  lemma {:induction false} QueuedIsFresh(events: seq<Event>)
    ensures var y := Run(events);
            y.deployment.phase == Queued ==>
              && |y.deployment.operations| == OPERATIONS
              && (forall k :: 0 <= k < OPERATIONS ==> y.deployment.operations[k] in {Pending, Succeeded})
              && (forall id :: id in y.executions ==> y.executions[id].phase != Claimed)
  {
    if events != [] {
      var front := events[..|events| - 1];
      QueuedIsFresh(front);
      RunInv(front);
      StepQueued(Run(front), events[|events| - 1]);
    }
  }

  /** A dispatcher of a human retry after a failed execution may withdraw the host's receipt, and only that one. */
  lemma ReopenWithdraws(events: seq<Event>, who: nat, failed: nat)
    requires var y := Run(events);
             && who in y.workers && y.workers[who].At? && y.workers[who].operation == BOOTSTRAP
             && Holds(y, y.workers[who].execution, y.workers[who].token) && y.executions[y.workers[who].execution].human
             && failed in y.executions && failed != y.workers[who].execution && y.executions[failed].phase == Aborted
    ensures var y, z := Run(events), Step(Run(events), Reopen(who, true));
            && |z.deployment.operations| == |y.deployment.operations| == OPERATIONS
            && z.deployment.operations[BOOTSTRAP] != Succeeded && z.workers[who] == y.workers[who]
            && forall k :: 0 <= k < OPERATIONS && k != BOOTSTRAP ==>
                 z.deployment.operations[k] == y.deployment.operations[k]
  {
    RunInv(events);
  }

  /** A failed execution ends, and its deployment may be queued again. */
  lemma FailureEnds(events: seq<Event>, who: nat)
    requires who in Run(events).workers && Run(events).workers[who].Ending? && !Run(events).workers[who].ok
    requires var w := Run(events).workers[who]; Holds(Run(events), w.execution, w.token)
    ensures var y, z := Run(events), Step(Run(events), Complete(who));
            && z.deployment == y.deployment.(phase := Broken) && z.workers[who].Idle?
            && z.executions == y.executions[y.workers[who].execution :=
                 y.executions[y.workers[who].execution].(phase := Aborted)]
  {
  }

  /** From every reachable state that is not under way or done, a new execution gets the deployment done. */
  lemma RetryGetsDone(events: seq<Event>, who: nat, id: nat, human: bool, lease: nat)
    requires var y := Run(events);
             && y.deployment.phase in {Authorized, Broken} && id !in y.executions && lease > 0
             && who in y.workers && y.workers[who].Idle?
    ensures var script := [Claim(who, id, lease, true)] + TryAll(who, OPERATIONS) + [Begin(who, true), Complete(who)];
            var z := Run(events + [Enqueue(id, human)] + script);
            z.deployment.phase == Done && id in z.executions && z.executions[id].phase == Completed
  {
    RunInv(events);
    assert (events + [Enqueue(id, human)])[..|events|] == events;
    AloneGetsDone(events + [Enqueue(id, human)], who, id, lease);
  }

  /** A renewal under a claim that holds carries its lease on from now, and changes nothing else. */
  lemma RenewExtends(events: seq<Event>, who: nat, lease: nat)
    requires who in Run(events).workers && !Run(events).workers[who].Idle?
    requires var w := Run(events).workers[who]; Holds(Run(events), w.execution, w.token)
    ensures var y, z := Run(events), Step(Run(events), Renew(who, lease));
            var id := y.workers[who].execution;
            z == y.(executions := y.executions[id := y.executions[id].(expires := y.now + lease)])
  {
  }
}
