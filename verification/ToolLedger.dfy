/**
 The ledger of one operator run's tool calls. Workers claim the run under a lease
 token, look a call up, insert its row, invoke the tool and store the result; each
 of these is one step, and a worker may lose its lease, or stop, between any two.
 */
module ToolLedger {
  import opened Base

  /** A row without a result stands for a call that was started. */
  datatype Row = Row(result: Option<nat>)

  datatype Worker =
    | Idle
    | Holding(token: nat)
    | Looked(token: nat, call: nat)
    | Ready(token: nat, call: nat)
    | Have(token: nat, call: nat, value: nat)

  /** What executeTool gave back for a call. */
  datatype Answer = Answer(call: nat, value: nat)

  datatype System = System(
    now: int,
    token: nat,
    expires: int,
    running: bool,
    nextToken: nat,
    rows: map<nat, Row>,
    workers: map<nat, Worker>,
    invoked: seq<nat>,
    answers: seq<Answer>)

  datatype Event =
    | Tick(seconds: nat)
    | Start(who: nat)
    | Claim(who: nat, lease: nat)
    | Renew(who: nat, lease: nat)
    | Finish(who: nat)
    | Yield(who: nat)
    | Cancel
    | Look(who: nat, call: nat)
    | Insert(who: nat, acked: bool)
    | Invoke(who: nat, value: nat)
    | Store(who: nat, acked: bool)
    | Stop(who: nat)

  function Initial(): System {
    System(0, 0, 0, true, 1, map[], map[], [], [])
  }

  function Become(y: System, who: nat, w: Worker): System {
    y.(workers := y.workers[who := w])
  }

  /** The fence of every ledger write: this token, a running run, a live lease. */
  predicate Holds(y: System, token: nat) {
    y.running && y.token == token && y.expires > y.now
  }

  /** The lookup: a stored result is the answer, a started call that must not repeat is refused. */
  function StepLook(safe: nat -> bool, y: System, who: nat, token: nat, call: nat): System {
    if call in y.rows && y.rows[call].result.Some? then
      y.(answers := y.answers + [Answer(call, y.rows[call].result.value)])
    else if call in y.rows && !safe(call) then y
    else Become(y, who, Looked(token, call))
  }

  /** INSERT ... ON CONFLICT DO NOTHING under the fence; no row inserted stops all but retry-safe calls. */
  function StepInsert(safe: nat -> bool, y: System, who: nat, token: nat, call: nat, acked: bool): System {
    if Holds(y, token) && call !in y.rows then
      Become(y, who, if acked then Ready(token, call) else Idle).(rows := y.rows[call := Row(None)])
    else Become(y, who, if safe(call) && acked then Ready(token, call) else Idle)
  }

  function StepStore(y: System, who: nat, w: Worker, acked: bool): System
    requires w.Have?
  {
    if Holds(y, w.token) && w.call in y.rows then
      Become(y, who, if acked then Holding(w.token) else Idle)
        .(rows := y.rows[w.call := Row(Some(w.value))], answers := if acked then
            y.answers + [Answer(w.call, w.value)] else y.answers)
    else Become(y, who, Idle)
  }

  function Act(safe: nat -> bool, y: System, who: nat, w: Worker, e: Event): System {
    match e
    case Claim(_, lease) =>
      if w.Idle? && y.running && (y.token == 0 || y.expires <= y.now) then
        Become(y, who, Holding(y.nextToken)).(token := y.nextToken, expires := y.now + lease,
            nextToken := y.nextToken + 1)
      else y
    case Renew(_, lease) => if !w.Idle? && Holds(y, w.token) then y.(expires := y.now + lease) else y
    case Finish(_) => if !w.Idle? && Holds(y, w.token) then Become(y, who, Idle).(running := false) else y
    case Yield(_) => if !w.Idle? && Holds(y, w.token) then Become(y, who, Idle).(token := 0) else y
    case Look(_, call) => if w.Holding? then StepLook(safe, y, who, w.token, call) else y
    case Insert(_, acked) => if w.Looked? then StepInsert(safe, y, who, w.token, w.call, acked) else y
    case Invoke(_, value) => if w.Ready? then
        Become(y, who, Have(w.token, w.call, value)).(invoked := y.invoked + [w.call]) else y
    case Store(_, acked) => if w.Have? then StepStore(y, who, w, acked) else y
    case Stop(_) => Become(y, who, Idle)
    case _ => y
  }

  function Step(safe: nat -> bool, y: System, e: Event): System {
    match e
    case Tick(seconds) => y.(now := y.now + seconds)
    case Start(who) => if who in y.workers then y else Become(y, who, Idle)
    case Cancel => y.(running := false, token := 0)
    case _ => if e.who in y.workers then Act(safe, y, e.who, y.workers[e.who], e) else y
  }

  function Run(safe: nat -> bool, events: seq<Event>): System {
    if events == [] then Initial() else Step(safe, Run(safe, events[..|events| - 1]), events[|events| - 1])
  }

  // ----- invariant ------------------------------------------------------------------------------------

  predicate Busy(w: Worker) { w.Looked? || w.Ready? || w.Have? }

  /** A worker whose token is current has found no result for its call; a ready one owns its row. */
  ghost predicate WorkerOk(safe: nat -> bool, y: System, w: Worker) {
    && (!w.Idle? ==> 0 < w.token < y.nextToken)
    && (Busy(w) && w.token == y.token && w.call in y.rows ==> y.rows[w.call].result.None?)
    && (w.Ready? && !safe(w.call) ==> w.call in y.rows && w.call !in y.invoked)
  }

  ghost predicate Distinct(safe: nat -> bool, z: map<nat, Worker>) {
    forall p, q :: p in z && q in z && p != q ==>
      && (!z[p].Idle? && !z[q].Idle? ==> z[p].token != z[q].token)
      && (z[p].Ready? && z[q].Ready? && z[p].call == z[q].call ==> safe(z[p].call))
  }

  /** Calls that must not repeat were invoked at most once each. */
  ghost predicate OnceEach(safe: nat -> bool, invoked: seq<nat>) {
    forall i, j :: 0 <= i < j < |invoked| && invoked[i] == invoked[j] ==> safe(invoked[i])
  }

  ghost predicate LedgerOk(safe: nat -> bool, y: System) {
    && y.token < y.nextToken && OnceEach(safe, y.invoked)
    && (forall c :: c in y.invoked && !safe(c) ==> c in y.rows)
    && (forall a :: a in y.answers ==> a.call in y.rows && y.rows[a.call].result == Some(a.value))
  }

  ghost predicate Inv(safe: nat -> bool, y: System) {
    && LedgerOk(safe, y) && Distinct(safe, y.workers)
    && forall p :: p in y.workers ==> WorkerOk(safe, y, y.workers[p])
  }

  /** Rows stay, and a stored result is never written again. */
  ghost predicate Grows(y: System, z: System) {
    forall c :: c in y.rows ==> c in z.rows && (y.rows[c].result.Some? ==> z.rows[c] == y.rows[c])
  }

  lemma ActOk(safe: nat -> bool, y: System, who: nat, e: Event)
    requires Inv(safe, y) && who in y.workers
    ensures Sound(safe, y, Act(safe, y, who, y.workers[who], e), who)
  {
    assert WorkerOk(safe, y, y.workers[who]);
    if e.Insert? {
      InsertOk(safe, y, who, e);
    } else if e.Invoke? {
      InvokeOk(safe, y, who, e);
    } else if e.Store? {
      StoreOk(safe, y, who, e);
    }
  }

  ghost predicate Sound(safe: nat -> bool, y: System, z: System, who: nat) {
    && LedgerOk(safe, z) && Grows(y, z)
    && who in z.workers && WorkerOk(safe, z, z.workers[who]) && z.workers == y.workers[who := z.workers[who]]
  }

  lemma InsertOk(safe: nat -> bool, y: System, who: nat, e: Event)
    requires LedgerOk(safe, y) && who in y.workers && WorkerOk(safe, y, y.workers[who]) && e.Insert?
    ensures Sound(safe, y, Act(safe, y, who, y.workers[who], e), who)
  {
  }

  lemma InvokeOk(safe: nat -> bool, y: System, who: nat, e: Event)
    requires LedgerOk(safe, y) && who in y.workers && WorkerOk(safe, y, y.workers[who]) && e.Invoke?
    ensures Sound(safe, y, Act(safe, y, who, y.workers[who], e), who)
  {
  }

  lemma StoreOk(safe: nat -> bool, y: System, who: nat, e: Event)
    requires LedgerOk(safe, y) && who in y.workers && WorkerOk(safe, y, y.workers[who]) && e.Store?
    ensures Sound(safe, y, Act(safe, y, who, y.workers[who], e), who)
  {
  }

  lemma ActOthers(safe: nat -> bool, y: System, who: nat, e: Event, p: nat)
    requires Inv(safe, y) && who in y.workers && p in y.workers && p != who
    ensures var z := Act(safe, y, who, y.workers[who], e); WorkerOk(safe, z, y.workers[p])
  {
    assert WorkerOk(safe, y, y.workers[p]) && WorkerOk(safe, y, y.workers[who]);
  }

  lemma ActDistinct(safe: nat -> bool, y: System, who: nat, e: Event)
    requires Inv(safe, y) && who in y.workers
    ensures Distinct(safe, Act(safe, y, who, y.workers[who], e).workers)
  {
    forall p | p in y.workers ensures !y.workers[p].Idle? ==>
        y.workers[p].token < y.nextToken { assert WorkerOk(safe, y, y.workers[p]); }
    forall p | p in y.workers && y.workers[p].Ready? ensures safe(y.workers[p].call) || y.workers[p].call in y.rows {
      assert WorkerOk(safe, y, y.workers[p]);
    }
  }

  lemma StepInv(safe: nat -> bool, y: System, e: Event)
    requires Inv(safe, y)
    ensures Inv(safe, Step(safe, y, e)) && Grows(y, Step(safe, y, e))
  {
    if !e.Tick? && !e.Start? && !e.Cancel? && e.who in y.workers {
      var z := Step(safe, y, e);
      ActOk(safe, y, e.who, e);
      ActDistinct(safe, y, e.who, e);
      forall p | p in y.workers && p != e.who
          ensures WorkerOk(safe, z, z.workers[p]) { ActOthers(safe, y, e.who, e, p); }
    }
  }

  lemma {:induction false} RunInv(safe: nat -> bool, events: seq<Event>)
    ensures Inv(safe, Run(safe, events))
  {
    if events != [] {
      RunInv(safe, events[..|events| - 1]);
      StepInv(safe, Run(safe, events[..|events| - 1]), events[|events| - 1]);
    }
  }

  // ----- the theorems -----------------------------------------------------------------------------------

  /** Across crashes, lease loss and reclaim, a tool that is not retry-safe is invoked at most once per call. */
  lemma InvokedAtMostOnce(safe: nat -> bool, events: seq<Event>, i: nat, j: nat)
    requires i < j < |Run(safe, events).invoked| && !safe(Run(safe, events).invoked[i])
    ensures Run(safe, events).invoked[i] != Run(safe, events).invoked[j]
  {
    RunInv(safe, events);
  }

  /** A stored result is there for good, whatever happens later. */
  lemma {:induction false} ResultIsWriteOnce(safe: nat -> bool, events: seq<Event>, more: seq<Event>, call: nat)
    requires call in Run(safe, events).rows && Run(safe, events).rows[call].result.Some?
    ensures call in Run(safe, events + more).rows && Run(safe, events + more).rows[call] == Run(safe, events).rows[call]
  {
    if more == [] {
      assert events + more == events;
    } else {
      var front := more[..|more| - 1];
      ResultIsWriteOnce(safe, events, front, call);
      RunInv(safe, events + front);
      assert (events + more)[..|events + more| - 1] == events + front;
      StepInv(safe, Run(safe, events + front), more[|more| - 1]);
    }
  }

  /** So every answer to a call, first or replayed, is the same. */
  lemma ReplaysAgree(safe: nat -> bool, events: seq<Event>, a: Answer, b: Answer)
    requires a in Run(safe, events).answers && b in Run(safe, events).answers && a.call == b.call
    ensures a == b
  {
    RunInv(safe, events);
  }

  // ----- what is stored was computed by the tool -----------------------------------------------------------------

  lemma RunNext(safe: nat -> bool, events: seq<Event>, m: nat)
    requires m < |events|
    ensures Run(safe, events[..m + 1]) == Step(safe, Run(safe, events[..m]), events[m])
  {
    assert events[..m + 1][..m] == events[..m];
  }

  predicate Stands(safe: nat -> bool, events: seq<Event>, m: nat, who: nat, w: Worker)
    requires m <= |events|
  {
    who in Run(safe, events[..m]).workers && Run(safe, events[..m]).workers[who] == w
  }

  /** Event `i` was the invocation of this call by `who`, with this value. */
  predicate InvokedAt(safe: nat -> bool, events: seq<Event>, i: nat, who: nat, token: nat, call: nat, value: nat) {
    i < |events| && events[i] == Invoke(who, value) && Stands(safe, events, i, who, Ready(token, call))
  }

  lemma OnlyInvokes(safe: nat -> bool, y: System, e: Event, who: nat, token: nat, call: nat, value: nat)
    requires who in Step(safe, y, e).workers && Step(safe, y, e).workers[who] == Have(token, call, value)
    ensures who in y.workers
    ensures y.workers[who] == Have(token, call, value) || (e == Invoke(who, value)
                && y.workers[who] == Ready(token, call))
  {
  }

  lemma {:induction false} HadIsInvoked(safe: nat -> bool, events: seq<Event>, n: nat, who: nat, token: nat, call: nat,
                                        value: nat) returns (i: nat)
    requires n <= |events| && Stands(safe, events, n, who, Have(token, call, value))
    ensures i < n && InvokedAt(safe, events, i, who, token, call, value)
    decreases n
  {
    assert n > 0;
    RunNext(safe, events, n - 1);
    OnlyInvokes(safe, Run(safe, events[..n - 1]), events[n - 1], who, token, call, value);
    if Stands(safe, events, n - 1, who, Have(token, call, value)) {
      i := HadIsInvoked(safe, events, n - 1, who, token, call, value);
    } else {
      i := n - 1;
    }
  }

  lemma NewResult(safe: nat -> bool, y: System, e: Event, call: nat, value: nat)
    requires call in Step(safe, y, e).rows && Step(safe, y, e).rows[call].result == Some(value)
    requires !(call in y.rows && y.rows[call].result == Some(value))
    ensures e.Store? && e.who in y.workers && y.workers[e.who].Have? && y.workers[e.who].call == call
    ensures y.workers[e.who].value == value && Holds(y, y.workers[e.who].token)
  {
  }

  /** Event `j` stored this value for the call, as event `i` had computed it, under a lease that held. */
  predicate StoredAt(safe: nat -> bool, events: seq<Event>, i: nat, j: nat, who: nat, token: nat, call: nat, value: nat)
  {
    && i < j < |events| && InvokedAt(safe, events, i, who, token, call, value)
    && events[j].Store? && events[j].who == who && Stands(safe, events, j, who, Have(token, call, value))
    && Holds(Run(safe, events[..j]), token)
  }

  lemma StoredLast(safe: nat -> bool, events: seq<Event>, call: nat, value: nat)
    returns (i: nat, j: nat, who: nat, token: nat)
    requires events != [] && call in Run(safe, events).rows && Run(safe, events).rows[call].result == Some(value)
    requires var rows := Run(safe, events[..|events| - 1]).rows; !(call in rows && rows[call].result == Some(value))
    ensures StoredAt(safe, events, i, j, who, token, call, value)
  {
    j := |events| - 1;
    assert events[..|events|] == events;
    RunNext(safe, events, j);
    NewResult(safe, Run(safe, events[..j]), events[j], call, value);
    who := events[j].who;
    token := Run(safe, events[..j]).workers[who].token;
    i := HadIsInvoked(safe, events, j, who, token, call, value);
  }

  /**
   In every run a stored result is the value with which some worker invoked the tool for that call, and
   it was stored under a lease of that worker's that still held.
   */
  lemma {:induction false} StoredWasInvoked(safe: nat -> bool, events: seq<Event>, call: nat, value: nat)
    returns (i: nat, j: nat, who: nat, token: nat)
    requires call in Run(safe, events).rows && Run(safe, events).rows[call].result == Some(value)
    ensures StoredAt(safe, events, i, j, who, token, call, value)
  {
    var front := events[..|events| - 1];
    if call in Run(safe, front).rows && Run(safe, front).rows[call].result == Some(value) {
      i, j, who, token := StoredWasInvoked(safe, front, call, value);
      assert front[..i] == events[..i] && front[..j] == events[..j];
    } else {
      i, j, who, token := StoredLast(safe, events, call, value);
    }
  }

  /** So every answer, first or replayed, is a value that the tool gave for that call. */
  lemma AnsweredWasInvoked(safe: nat -> bool, events: seq<Event>, a: Answer)
    returns (i: nat, who: nat, token: nat)
    requires a in Run(safe, events).answers
    ensures InvokedAt(safe, events, i, who, token, a.call, a.value)
  {
    RunInv(safe, events);
    var j;
    i, j, who, token := StoredWasInvoked(safe, events, a.call, a.value);
  }

  // ----- a worker left alone --------------------------------------------------------------------------------------

  function Drive(safe: nat -> bool, y: System, events: seq<Event>): System {
    if events == [] then y else Step(safe, Drive(safe, y, events[..|events| - 1]), events[|events| - 1])
  }

  lemma {:induction false} RunDrive(safe: nat -> bool, a: seq<Event>, b: seq<Event>)
    ensures Run(safe, a + b) == Drive(safe, Run(safe, a), b)
  {
    if b == [] {
      assert a + b == a;
    } else {
      RunDrive(safe, a, b[..|b| - 1]);
      assert (a + b)[..|a + b| - 1] == a + b[..|b| - 1];
    }
  }

  lemma DriveNext(safe: nat -> bool, y: System, events: seq<Event>, e: Event)
    ensures Drive(safe, y, events + [e]) == Step(safe, Drive(safe, y, events), e)
  {
    assert (events + [e])[..|events|] == events;
  }

  /** The run can be claimed: nobody has it, or the lease has expired. */
  predicate Claimable(y: System, who: nat) {
    who in y.workers && y.workers[who].Idle? && y.running && (y.token == 0 || y.expires <= y.now)
  }

  function Preparing(who: nat, lease: nat, call: nat): seq<Event> {
    [Claim(who, lease)] + [Look(who, call)] + [Insert(who, true)]
  }

  function Call(who: nat, lease: nat, call: nat, value: nat): seq<Event> {
    Preparing(who, lease, call) + [Invoke(who, value)] + [Store(who, true)]
  }

  predicate Open(safe: nat -> bool, y: System, call: nat) {
    call in y.rows ==> y.rows[call].result.None? && safe(call)
  }

  lemma ClaimsRun(safe: nat -> bool, y: System, who: nat, lease: nat)
    requires Claimable(y, who) && lease > 0
    ensures var z := Step(safe, y, Claim(who, lease));
            && z == y.(token := y.nextToken, nextToken := y.nextToken + 1, expires := y.now + lease,
                       workers := y.workers[who := Holding(y.nextToken)])
            && Holds(z, y.nextToken)
  {
  }

  lemma LooksUp(safe: nat -> bool, y: System, who: nat, token: nat, call: nat)
    requires who in y.workers && y.workers[who] == Holding(token) && Open(safe, y, call)
    ensures Step(safe, y, Look(who, call)) == y.(workers := y.workers[who := Looked(token, call)])
  {
  }

  lemma InsertsRow(safe: nat -> bool, y: System, who: nat, token: nat, call: nat)
    requires who in y.workers && y.workers[who] == Looked(token, call) && Open(safe, y, call) && Holds(y, token)
    ensures var z := Step(safe, y, Insert(who, true));
            && who in z.workers && z.workers[who] == Ready(token, call) && Holds(z, token)
            && call in z.rows && z.rows[call].result.None? && z.answers == y.answers && z.invoked == y.invoked
            && z.token == y.token
  {
  }

  lemma Prepared(safe: nat -> bool, y: System, who: nat, lease: nat, call: nat)
    requires Claimable(y, who) && lease > 0 && Open(safe, y, call)
    ensures var z := Drive(safe, y, Preparing(who, lease, call));
            && who in z.workers && z.workers[who] == Ready(z.token, call) && Holds(z, z.token)
            && call in z.rows && z.rows[call].result.None? && z.answers == y.answers && z.invoked == y.invoked
  {
    var a := [Claim(who, lease)];
    assert [] + a == a;
    DriveNext(safe, y, [], Claim(who, lease));
    DriveNext(safe, y, a, Look(who, call));
    DriveNext(safe, y, a + [Look(who, call)], Insert(who, true));
    var y1 := Step(safe, y, Claim(who, lease));
    ClaimsRun(safe, y, who, lease);
    LooksUp(safe, y1, who, y1.token, call);
    InsertsRow(safe, Step(safe, y1, Look(who, call)), who, y1.token, call);
  }

  /** A worker left alone with a call that was never started, or may be repeated, gets it answered and stored. */
  lemma AloneAnswers(safe: nat -> bool, events: seq<Event>, who: nat, lease: nat, call: nat, value: nat)
    requires Claimable(Run(safe, events), who) && lease > 0 && Open(safe, Run(safe, events), call)
    ensures var y, z := Run(safe, events), Run(safe, events + Call(who, lease, call, value));
            && z.answers == y.answers + [Answer(call, value)] && z.invoked == y.invoked + [call]
            && call in z.rows && z.rows[call].result == Some(value) && Holds(z, z.token)
            && who in z.workers && z.workers[who] == Holding(z.token)
  {
    var y, a := Run(safe, events), Preparing(who, lease, call);
    RunDrive(safe, events, Call(who, lease, call, value));
    Prepared(safe, y, who, lease, call);
    DriveNext(safe, y, a, Invoke(who, value));
    DriveNext(safe, y, a + [Invoke(who, value)], Store(who, true));
  }

  /** A stored result is replayed without another invocation; */
  lemma StoredIsReplayed(safe: nat -> bool, events: seq<Event>, who: nat, call: nat)
    requires var y := Run(safe, events); who in y.workers && y.workers[who].Holding?
    requires var y := Run(safe, events); call in y.rows && y.rows[call].result.Some?
    ensures var y, z := Run(safe, events), Run(safe, events + [Look(who, call)]);
            && z.answers == y.answers + [Answer(call, y.rows[call].result.value)] && z.workers == y.workers
            && z.invoked == y.invoked && z.rows == y.rows
  {
    assert (events + [Look(who, call)])[..|events|] == events;
  }

  /** and a call that was started, without a result, and must not repeat is refused. */
  lemma StartedIsRefused(safe: nat -> bool, events: seq<Event>, who: nat, call: nat)
    requires var y := Run(safe, events); who in y.workers && y.workers[who].Holding?
    requires var y := Run(safe, events); call in y.rows && y.rows[call].result.None? && !safe(call)
    ensures Run(safe, events + [Look(who, call)]) == Run(safe, events)
  {
    assert (events + [Look(who, call)])[..|events|] == events;
  }

  // ----- the lease of the run ---------------------------------------------------------------------------------

  predicate HoldsRun(y: System, who: nat) {
    who in y.workers && !y.workers[who].Idle? && Holds(y, y.workers[who].token)
  }

  /** Renewing carries the lease on, yielding lets the next worker claim, finishing and cancelling end the run. */
  lemma LeaseEnds(safe: nat -> bool, events: seq<Event>, who: nat, other: nat, lease: nat)
    requires HoldsRun(Run(safe, events), who)
    ensures var y := Run(safe, events);
            && Step(safe, y, Renew(who, lease)) == y.(expires := y.now + lease)
            && (other in y.workers && other != who && y.workers[other].Idle? ==>
                  Claimable(Step(safe, y, Yield(who)), other))
            && !Step(safe, y, Finish(who)).running && !Step(safe, y, Cancel).running
            && Step(safe, y, Finish(who)).rows == y.rows && Step(safe, y, Yield(who)).rows == y.rows
  {
  }

  lemma StepStaysOver(safe: nat -> bool, y: System, e: Event)
    requires !y.running
    ensures var z := Step(safe, y, e);
            !z.running && z.rows == y.rows
  {
  }

  /** A run that has ended is never claimed again, and its ledger never changes. */
  lemma {:induction false} EndedForever(safe: nat -> bool, events: seq<Event>, more: seq<Event>)
    requires !Run(safe, events).running
    ensures var z := Run(safe, events + more); !z.running && z.rows == Run(safe, events).rows
  {
    if more == [] {
      assert events + more == events;
    } else {
      var front := more[..|more| - 1];
      EndedForever(safe, events, front);
      assert (events + more)[..|events + more| - 1] == events + front;
      StepStaysOver(safe, Run(safe, events + front), more[|more| - 1]);
    }
  }
}
