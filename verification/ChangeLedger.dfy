/**
 The write-ahead operation log of one Change: authorization bound to a digest,
 execution in program order, and compensation. Calls of AuthorizeChange and
 ApplyChange follow one another; a call may stop anywhere, and a save may fail,
 succeed, or succeed without its acknowledgement.
 */
module ChangeLedger {
  import opened Base

  datatype Kind = StateAssert | Migrate | SetDesired | Scale | WaitHealthy | WaitReplicas | Verify | Unsupported

  /** The part of an operation that the digest covers. */
  datatype Instruction = Instruction(id: nat, kind: Kind, text: string)

  datatype OperationPhase = Pending | Running | Failed | Completed

  datatype Operation = Operation(instruction: Instruction, phase: OperationPhase, attempts: nat)

  datatype Phase =
      Drafted | Authorized | Applying | Verifying | Compensating | Committed | Rejected | Reverted | Escalated

  datatype Manifest = Manifest(version: nat, replicas: int, capacityLease: Option<int>, artifact: nat)

  datatype ReplicaScale = ReplicaScale(from: int, to: int)

  datatype Plan = Plan(base: nat, release: Manifest, scale: Option<ReplicaScale>, migration: Option<nat>)

  datatype Evidence = Done(id: nat) | RestoredScale | RestoredRelease

  datatype Change = Change(
    phase: Phase,
    digest: nat,
    plan: Plan,
    authorization: Option<nat>,
    operations: seq<Operation>,
    evidence: seq<Evidence>,
    residuals: seq<nat>)

  /** A write of the desired release by this change. */
  datatype Write = Planned(manifest: Manifest) | Restored(manifest: Manifest)

  function Program(operations: seq<Operation>): seq<Instruction> {
    seq(|operations|, i requires 0 <= i < |operations| => operations[i].instruction)
  }

  predicate Terminal(p: Phase) {
    p in {Committed, Rejected, Reverted, Escalated}
  }

  /** The phases in which ApplyChange has work to do. */
  predicate Live(p: Phase) {
    p in {Authorized, Applying, Verifying, Compensating}
  }

  predicate Reached(operations: seq<Operation>, kind: Kind) {
    exists i :: 0 <= i < |operations| && operations[i].instruction.kind == kind && operations[i].phase != Pending
  }

  predicate CompletedKind(operations: seq<Operation>, kind: Kind) {
    exists i :: 0 <= i < |operations| && operations[i].instruction.kind == kind && operations[i].phase == Completed
  }

  /** The test at the head of compensateChange, negated. */
  predicate Compensable(operations: seq<Operation>) {
    CompletedKind(operations, Migrate) || Reached(operations, SetDesired) || Reached(operations, Scale)
  }

  /** What ApplyChange requires of the digest before it runs anything. */
  predicate Recheck(hash: (Plan, seq<Instruction>) -> nat, c: Change) {
    c.authorization == Some(c.digest) && hash(c.plan, Program(c.operations)) == c.digest
  }

  /** What the plan must provide for an instruction, so that only the environment can make it fail. */
  predicate Doable(plan: Plan, i: Instruction) {
    match i.kind
    case Scale => plan.scale.Some? && plan.release.replicas == plan.scale.value.to
    case Migrate => plan.migration.Some?
    case WaitReplicas => plan.scale.Some?
    case Unsupported => false
    case _ => true
  }

  predicate AllDoable(plan: Plan, program: seq<Instruction>) {
    forall i :: 0 <= i < |program| ==> Doable(plan, program[i])
  }

  /** Compensation has the manifest that it may need. */
  predicate Restorable(c: Change, releases: map<nat, Manifest>) {
    Reached(c.operations, SetDesired) ==> c.plan.base in releases
  }

  function ScaleRestore(plan: Plan): Manifest
    requires plan.scale.Some?
  {
    plan.release.(replicas := plan.scale.value.from, capacityLease := None)
  }

  /** The released version and artifact, at the count from before the scale, without a capacity lease. */
  predicate Rescaled(plan: Plan, m: Manifest) {
    && plan.scale.Some? && m.replicas == plan.scale.value.from && m.capacityLease == None
    && m.version == plan.release.version && m.artifact == plan.release.artifact
  }

  /** Whatever compensation may need is stored. */
  predicate CanRestore(c: Change, releases: map<nat, Manifest>) {
    (exists i :: 0 <= i < |c.operations| && c.operations[i].instruction.kind == SetDesired) ==> c.plan.base in releases
  }

  /** A migration that was completed is named among the residuals. */
  predicate Noted(c: Change) {
    c.plan.migration.Some? && CompletedKind(c.operations, Migrate) ==> c.plan.migration.value in c.residuals
  }

  /** The failed change is over: reverted if anything that needs compensation was begun, else rejected. */
  predicate Settled(c: Change) {
    c.phase == if Compensable(c.operations) then Reverted else Rejected
  }

  predicate SameButEvidence(a: Change, b: Change) {
    b == a.(evidence := b.evidence)
  }

  // ----- what every durable change satisfies --------------------------------------------------

  /** At most one operation is under way, everything before it is completed, nothing after it has begun. */
  ghost predicate InOrder(operations: seq<Operation>) {
    forall i, j :: 0 <= i < j < |operations| && operations[j].phase != Pending ==> operations[i].phase == Completed
  }

  function CompletedIds(operations: seq<Operation>): seq<nat> {
    if operations == [] then []
    else
      var last := operations[|operations| - 1];
      CompletedIds(operations[..|operations| - 1]) + (if last.phase == Completed then [last.instruction.id] else [])
  }

  function DoneIds(evidence: seq<Evidence>): seq<nat> {
    if evidence == [] then []
    else
      var last := evidence[|evidence| - 1];
      DoneIds(evidence[..|evidence| - 1]) + (if last.Done? then [last.id] else [])
  }

  predicate AllPhase(operations: seq<Operation>, p: OperationPhase) {
    forall i :: 0 <= i < |operations| ==> operations[i].phase == p
  }

  /** Some operation that may write the desired release has begun. */
  predicate Touched(c: Change) {
    Reached(c.operations, SetDesired) || (c.plan.scale.Some? && Reached(c.operations, Scale))
  }

  /** The manifest that compensation leaves as the desired release. */
  predicate IsCompensation(c: Change, releases: map<nat, Manifest>, m: Manifest) {
    if Reached(c.operations, SetDesired) then c.plan.base in releases && m == releases[c.plan.base]
    else Rescaled(c.plan, m)
  }

  ghost predicate DesiredOk(c: Change, releases: map<nat, Manifest>, desired: seq<Write>) {
    && (desired != [] ==> Touched(c))
    && (forall w :: w in desired && w.Planned? ==> w.manifest == c.plan.release)
    && (c.phase == Rejected ==> desired == [])
    && (c.phase == Reverted && desired != [] ==>
          var last := desired[|desired| - 1];
          last.Restored? && IsCompensation(c, releases, last.manifest))
  }

  /** Execution follows the log: begun before it runs, in program order, never again once completed. */
  ghost predicate ExecutedOk(c: Change, executed: seq<nat>) {
    && (forall k :: k in executed ==> k < |c.operations| && c.operations[k].phase != Pending)
    && (forall k :: 0 <= k < |c.operations| && c.operations[k].phase == Completed ==> k in executed)
    && (forall i, j :: 0 <= i < j < |executed| ==> executed[i] <= executed[j])
  }

  ghost predicate RecordOk(c: Change) {
    && InOrder(c.operations)
    && DoneIds(c.evidence) == CompletedIds(c.operations)
    && (c.phase in {Drafted, Authorized} ==> AllPhase(c.operations, Pending))
    && (c.phase == Committed ==> AllPhase(c.operations, Completed))
    && (c.phase == Compensating ==> Compensable(c.operations))
    && (c.phase == Rejected ==> !Compensable(c.operations)) && (c.phase == Reverted ==> Noted(c))
    && (c.phase in {Applying, Verifying} ==> forall i :: 0 <= i < |c.operations| && c.operations[i].phase == Running ==>
          (c.phase == Verifying <==> c.operations[i].instruction.kind == Verify))
  }

  /** How a later save may differ from an earlier one. */
  ghost predicate Progress(a: Change, b: Change) {
    && b.plan == a.plan && b.digest == a.digest && Program(b.operations) == Program(a.operations)
    && (Terminal(a.phase) ==> b == a)
    && (a.authorization.Some? ==> b.authorization == a.authorization)
    && (a.phase != Drafted ==> b.phase != Drafted)
    && |b.operations| == |a.operations|
    && (forall i :: 0 <= i < |a.operations| ==>
          && (a.operations[i].phase == Completed ==> b.operations[i] == a.operations[i])
          && (a.operations[i].phase != Pending ==> b.operations[i].phase != Pending))
  }

  /** Every save is progress over the one before it. */
  ghost predicate Progressive(history: seq<Change>) {
    |history| < 2
    || (Progressive(history[..|history| - 1]) && Progress(history[|history| - 2], history[|history| - 1]))
  }

  lemma ProgressTransitive(a: Change, b: Change, c: Change)
    requires Progress(a, b) && Progress(b, c)
    ensures Progress(a, c)
  {
  }

  lemma ProgressAppends(history: seq<Change>, c: Change)
    requires history != [] && Progressive(history) && Progress(history[|history| - 1], c)
    ensures Progressive(history + [c])
  {
    assert (history + [c])[..|history|] == history;
  }

  /** So is any later one over any earlier one. */
  lemma {:induction false} ProgressBetween(history: seq<Change>, i: nat, j: nat)
    requires Progressive(history) && i <= j < |history|
    ensures Progress(history[i], history[j])
  {
    if j < |history| - 1 {
      ProgressBetween(history[..|history| - 1], i, j);
    } else if i < j {
      ProgressBetween(history[..|history| - 1], i, j - 1);
      ProgressTransitive(history[i], history[j - 1], history[j]);
    }
  }

  // ----- steps of the log --------------------------------------------------------------------

  /** The operation about to run is the first that is not completed. */
  predicate Head(operations: seq<Operation>, k: nat) {
    && k < |operations| && operations[k].phase != Completed
    && (forall i :: 0 <= i < k ==> operations[i].phase == Completed)
  }

  function Begun(c: Change, k: nat): Change
    requires k < |c.operations|
  {
    var o := c.operations[k];
    c.(phase := if o.instruction.kind == Verify then Verifying else Applying,
       operations := c.operations[k := o.(phase := Running, attempts := o.attempts + 1)])
  }

  function Finished(c: Change, k: nat): Change
    requires k < |c.operations|
  {
    var o := c.operations[k];
    c.(operations := c.operations[k := o.(phase := Completed)], evidence := c.evidence + [Done(o.instruction.id)])
  }

  function Broken(c: Change, k: nat): Change
    requires k < |c.operations|
  {
    c.(operations := c.operations[k := c.operations[k].(phase := Failed)])
  }

  lemma {:induction false} CompletedIdsSame(a: seq<Operation>, b: seq<Operation>)
    requires |a| == |b|
    requires forall i :: 0 <= i < |a| ==>
              a[i].instruction == b[i].instruction && (a[i].phase == Completed) == (b[i].phase == Completed)
    ensures CompletedIds(a) == CompletedIds(b)
  {
    if a != [] { CompletedIdsSame(a[..|a| - 1], b[..|b| - 1]); }
  }

  lemma {:induction false} NoneCompletedIds(a: seq<Operation>)
    requires forall i :: 0 <= i < |a| ==> a[i].phase != Completed
    ensures CompletedIds(a) == []
  {
    if a != [] { NoneCompletedIds(a[..|a| - 1]); }
  }

  /** Completing the head adds exactly its identifier, at the end. */
  lemma {:induction false} CompletedIdsGrow(a: seq<Operation>, k: nat)
    requires k < |a| && forall i :: k <= i < |a| ==> a[i].phase != Completed
    ensures CompletedIds(a[k := a[k].(phase := Completed)]) == CompletedIds(a) + [a[k].instruction.id]
    decreases |a|
  {
    var b := a[k := a[k].(phase := Completed)];
    if k == |a| - 1 {
      assert b[..k] == a[..k];
    } else {
      CompletedIdsGrow(a[..|a| - 1], k);
      assert b[..|b| - 1] == a[..|a| - 1][k := a[k].(phase := Completed)];
    }
  }

  /** Beginning, breaking and finishing the head each keep the record, and are progress. */
  lemma BegunOk(c: Change, k: nat, executed: seq<nat>)
    requires RecordOk(c) && ExecutedOk(c, executed) && Head(c.operations, k) && Live(c.phase)
    ensures RecordOk(Begun(c, k)) && ExecutedOk(Begun(c, k), executed) && Progress(c, Begun(c, k))
  {
    CompletedIdsSame(c.operations, Begun(c, k).operations);
  }

  lemma BrokenOk(c: Change, k: nat, executed: seq<nat>)
    requires RecordOk(c) && ExecutedOk(c, executed) && Head(c.operations, k) && c.operations[k].phase == Running
              && Live(c.phase)
    ensures RecordOk(Broken(c, k)) && ExecutedOk(Broken(c, k), executed) && Progress(c, Broken(c, k))
  {
    CompletedIdsSame(c.operations, Broken(c, k).operations);
    if c.phase == Compensating { CompensableSame(c.operations, Broken(c, k).operations); }
  }

  lemma CompensableSame(a: seq<Operation>, b: seq<Operation>)
    requires |a| == |b| && Compensable(a)
    requires forall i :: 0 <= i < |a| ==>
              a[i].instruction == b[i].instruction && (a[i].phase == Completed) == (b[i].phase == Completed)
    requires forall i :: 0 <= i < |a| ==> (a[i].phase == Pending) == (b[i].phase == Pending)
    ensures Compensable(b)
  {
    var i :| 0 <= i < |a| && ((a[i].phase == Completed && a[i].instruction.kind == Migrate)
                              || (a[i].phase != Pending && a[i].instruction.kind in {SetDesired, Scale}));
    assert b[i].instruction == a[i].instruction;
  }

  lemma FinishedOk(c: Change, k: nat, executed: seq<nat>)
    requires RecordOk(c) && ExecutedOk(c, executed) && Head(c.operations, k) && c.operations[k].phase == Running
    requires c.phase in {Applying, Verifying} && k in executed
    ensures RecordOk(Finished(c, k)) && ExecutedOk(Finished(c, k), executed) && Progress(c, Finished(c, k))
  {
    CompletedIdsGrow(c.operations, k);
    assert Finished(c, k).evidence[..|c.evidence|] == c.evidence;
  }

  /** The write-ahead order: what runs next is no earlier than anything that ever ran. */
  lemma ExecutesForward(c: Change, k: nat, executed: seq<nat>)
    requires RecordOk(c) && ExecutedOk(c, executed) && Head(c.operations, k) && c.operations[k].phase == Running
    ensures ExecutedOk(c, executed + [k])
  {
    forall i | 0 <= i < |executed| ensures executed[i] <= k {
      assert executed[i] in executed;
      assert c.operations[executed[i]].phase != Pending;
    }
  }

  /** Two copies of the record that agree on what has begun and what is completed. */
  ghost predicate Aligned(a: seq<Operation>, b: seq<Operation>) {
    && |a| == |b|
    && forall i :: 0 <= i < |a| ==>
         && a[i].instruction == b[i].instruction
         && (a[i].phase == Completed) == (b[i].phase == Completed)
         && (a[i].phase == Pending) == (b[i].phase == Pending)
  }

  /** Nothing that was touched becomes untouched. */
  lemma TouchedGrows(a: Change, b: Change)
    requires |a.operations| == |b.operations| && a.plan == b.plan && Touched(a)
    requires forall i :: 0 <= i < |a.operations| ==> a.operations[i].instruction == b.operations[i].instruction
    requires forall i :: 0 <= i < |a.operations| && a.operations[i].phase != Pending ==>
              b.operations[i].phase != Pending
    ensures Touched(b)
  {
    var i :| 0 <= i < |a.operations| && a.operations[i].phase != Pending
             && (a.operations[i].instruction.kind == SetDesired
                 || (a.plan.scale.Some? && a.operations[i].instruction.kind == Scale));
    assert b.operations[i].instruction == a.operations[i].instruction;
  }

  lemma RestorableSame(a: Change, b: Change, releases: map<nat, Manifest>)
    requires a.plan == b.plan && Aligned(a.operations, b.operations)
    ensures Restorable(a, releases) <==> Restorable(b, releases)
  {
    assert forall i :: 0 <= i < |a.operations| ==> a.operations[i].instruction == b.operations[i].instruction;
  }

  lemma CanRestoreSame(a: Change, b: Change, releases: map<nat, Manifest>)
    requires a.plan == b.plan && |a.operations| == |b.operations|
    requires forall i :: 0 <= i < |a.operations| ==> a.operations[i].instruction == b.operations[i].instruction
    ensures CanRestore(a, releases) <==> CanRestore(b, releases)
  {
    if i :| 0 <= i < |a.operations| && a.operations[i].instruction.kind == SetDesired {
      assert b.operations[i].instruction.kind == SetDesired;
    }
    if i :| 0 <= i < |b.operations| && b.operations[i].instruction.kind == SetDesired {
      assert a.operations[i].instruction.kind == SetDesired;
    }
  }

  lemma DoneCanRestore(c: Change, k: nat, releases: map<nat, Manifest>)
    requires k < |c.operations|
    ensures CanRestore(Finished(Begun(c, k), k), releases) <==> CanRestore(c, releases)
    ensures CanRestore(c, releases) ==> Restorable(Begun(c, k), releases)
  {
    CanRestoreSame(c, Finished(Begun(c, k), k), releases);
    CanRestoreSame(c, Begun(c, k), releases);
  }

  /** The change after the loop has passed `k` operations. */
  ghost function Ran(first: Change, k: nat): (c: Change)
    requires k <= |first.operations|
    ensures |c.operations| == |first.operations|
  {
    if k == 0 then first
    else
      var c := Ran(first, k - 1);
      if c.operations[k - 1].phase == Completed then c else Finished(Begun(c, k - 1), k - 1)
  }

  lemma {:induction false} RanIs(first: Change, k: nat, releases: map<nat, Manifest>)
    requires k <= |first.operations|
    ensures var c := Ran(first, k);
            && c.plan == first.plan && (CanRestore(c, releases) <==> CanRestore(first, releases))
            && (forall i :: 0 <= i < k ==> c.operations[i].phase == Completed)
            && (forall i :: k <= i < |first.operations| ==> c.operations[i] == first.operations[i])
  {
    if k > 0 {
      RanIs(first, k - 1, releases);
      DoneCanRestore(Ran(first, k - 1), k - 1, releases);
    }
  }

  lemma RanNext(first: Change, k: nat, releases: map<nat, Manifest>)
    requires k < |first.operations|
    ensures var c := Ran(first, k);
            && c.plan == first.plan && (CanRestore(c, releases) <==> CanRestore(first, releases))
            && c.operations[k] == first.operations[k]
            && (if c.operations[k].phase == Completed then Ran(first, k + 1) == c
                else Head(c.operations, k) && Ran(first, k + 1) == Finished(Begun(c, k), k))
  {
    RanIs(first, k, releases);
  }

  lemma RanAll(first: Change, releases: map<nat, Manifest>)
    ensures AllPhase(Ran(first, |first.operations|).operations, Completed)
  {
    RanIs(first, |first.operations|, releases);
  }

  function Witnessed(c: Change, e: Evidence): Change {
    c.(evidence := c.evidence + [e])
  }

  // ----- the ledger -----------------------------------------------------------------------------

  /** How a request to the world outside ends: done and answered, done without an answer, or neither. */
  datatype Reply = Fine | Unheard | Refused

  /** Operation `k` does what it is for, if the environment's answer is `works`. */
  predicate Works(c: Change, k: nat, works: bool)
    requires k < |c.operations|
  {
    works && Doable(c.plan, c.operations[k].instruction)
  }

  /**
   Each answer of the outside is given beforehand: `world` for saves, writes, the lease and whether the caller
   goes on, `outcome` for whether what an operation executes or waits for succeeds at its so-manieth attempt.
   */
  class Ledger {
    const hash: (Plan, seq<Instruction>) -> nat
    const releases: map<nat, Manifest>
    const world: nat -> Reply
    const outcome: (nat, nat) -> bool
    var asked: nat
    var durable: Change
    var desired: seq<Write>
    ghost var history: seq<Change>
    ghost var executed: seq<nat>

    /** From now on nothing outside fails, and the caller goes on. */
    ghost predicate Smooth(from: nat) {
      forall i: nat :: i >= from ==> world(i) == Fine
    }

    method Ask() returns (reply: Reply)
      modifies this`asked
      ensures asked == old(asked) + 1 && reply == world(old(asked))
    {
      reply := world(asked);
      asked := asked + 1;
    }

    /** What may be saved next. */
    ghost predicate Admissible(c: Change)
      reads this
    {
      && RecordOk(c) && DesiredOk(c, releases, desired) && ExecutedOk(c, executed)
      && c.digest == hash(c.plan, Program(c.operations))
      && c.authorization == (if c.phase == Drafted then None else Some(c.digest))
    }

    ghost predicate Valid()
      reads this
    {
      && Admissible(durable)
      && history != [] && history[|history| - 1] == durable && Progressive(history)
    }

    /** DraftChange: the record a program starts from. */
    constructor (hash: (Plan, seq<Instruction>) -> nat, releases: map<nat, Manifest>, world: nat -> Reply,
                 outcome: (nat, nat) -> bool, plan: Plan, program: seq<Instruction>)
      ensures Valid() && durable.phase == Drafted && durable.plan == plan && Program(durable.operations) == program
      ensures desired == [] && executed == [] && history == [durable] && this.hash == hash && this.releases == releases
      ensures this.world == world && this.outcome == outcome && asked == 0
    {
      var operations := seq(|program|, i requires 0 <= i < |program| => Operation(program[i], Pending, 0));
      assert Program(operations) == program;
      NoneCompletedIds(operations);
      this.hash := hash;
      this.releases := releases;
      this.world := world;
      this.outcome := outcome;
      durable := Change(Drafted, hash(plan, program), plan, None, operations, [], []);
      history := [Change(Drafted, hash(plan, program), plan, None, operations, [], [])];
      desired := [];
      executed := [];
      asked := 0;
    }

    /** A save is lost, acknowledged, or done without acknowledgement. */
    method Save(c: Change) returns (ok: bool)
      requires Valid() && Admissible(c) && Progress(durable, c)
      modifies this`durable, this`history, this`asked
      ensures Valid() && asked == old(asked) + 1
      ensures durable == if world(old(asked)) == Refused then old(durable) else c
      ensures history == if world(old(asked)) == Refused then old(history) else old(history) + [c]
      ensures ok <==> world(old(asked)) == Fine
    {
      var reply := Ask();
      if reply != Refused {
        ProgressAppends(history, c);
        durable := c;
        history := history + [c];
      }
      ok := reply == Fine;
    }

    /** AuthorizeChange: only the digest of the plan and program on record authorizes them. */
    method Authorize(digest: nat) returns (ok: bool)
      requires Valid()
      modifies this`durable, this`history, this`asked
      ensures Valid() && old(history) <= history
      ensures ok ==>
                old(durable).phase == Drafted && digest == hash(old(durable).plan, Program(old(durable).operations))
      ensures ok ==> durable == old(durable).(phase := Authorized, authorization := Some(digest))
      ensures durable != old(durable) ==> durable == old(durable).(phase := Authorized, authorization := Some(digest))
      ensures ok <==>
                old(durable).phase == Drafted && digest == old(durable).digest && world(old(asked)) == Fine
    {
      var c := durable;
      if c.phase != Drafted || digest != c.digest || digest != hash(c.plan, Program(c.operations)) { return false; }
      c := c.(phase := Authorized, authorization := Some(digest));
      ok := Save(c);
    }

    /** PutJSON of the desired release. */
    method PutDesired(w: Write) returns (ok: bool)
      requires Valid() && Live(durable.phase) && Touched(durable) && (w.Planned? ==> w.manifest == durable.plan.release)
      modifies this`desired, this`asked
      ensures Valid() && asked == old(asked) + 1
      ensures desired == if world(old(asked)) == Refused then old(desired) else old(desired) + [w]
      ensures ok <==> world(old(asked)) == Fine
    {
      var reply := Ask();
      if reply != Refused { desired := desired + [w]; }
      ok := reply == Fine;
    }

    /** executeChangeOperation: everything but the desired release is the environment's answer. */
    method Execute(k: nat) returns (ok: bool)
      requires Valid() && durable.phase in {Applying, Verifying} && Head(durable.operations, k)
                && durable.operations[k].phase == Running
      modifies this`desired, this`executed, this`asked
      ensures Valid() && executed == old(executed) + [k] && asked >= old(asked)
      ensures desired == old(desired) || desired == old(desired) + [Planned(durable.plan.release)]
      ensures ok && durable.operations[k].instruction.kind in {SetDesired, Scale} ==>
                desired == old(desired) + [Planned(durable.plan.release)]
      ensures ok ==> Works(durable, k, outcome(k, durable.operations[k].attempts))
      ensures Smooth(old(asked)) ==> (ok <==> Works(durable, k, outcome(k, durable.operations[k].attempts)))
    {
      ExecutesForward(durable, k, executed);
      ok := outcome(k, durable.operations[k].attempts);
      executed := executed + [k];
      var kind := durable.operations[k].instruction.kind;
      match kind
      case SetDesired =>
        if ok { ok := PutDesired(Planned(durable.plan.release)); }
      case Scale =>
        if durable.plan.scale.None? || durable.plan.release.replicas != durable.plan.scale.value.to { ok := false; }
        if ok { ok := PutDesired(Planned(durable.plan.release)); }
      case Migrate =>
        if durable.plan.migration.None? { ok := false; }
      case WaitReplicas =>
        if durable.plan.scale.None? { ok := false; }
      case Unsupported => ok := false;
      case _ =>
    }

    /** The in-memory change differs from the saved one only in how far one begun operation got. */
    ghost predicate InHand(c: Change)
      reads this
    {
      Valid() && Admissible(c) && Progress(durable, c) && Live(durable.phase)
          && Aligned(c.operations, durable.operations)
    }

    /** One compensating write: the lease, the store or the wait for health may refuse. */
    method Restore(c: Change, m: Manifest) returns (ok: bool)
      requires InHand(c) && c.phase == Compensating && Touched(c)
      modifies this`desired, this`asked
      ensures InHand(c) && asked >= old(asked)
      ensures ok ==> desired != [] && desired[|desired| - 1] == Restored(m)
      ensures Smooth(old(asked)) ==> ok
    {
      var reply := Ask();
      ok := reply == Fine;
      if ok {
        ok := PutRestored(c, m);
        reply := Ask();
        ok := ok && reply == Fine;
      }
    }

    method PutRestored(c: Change, m: Manifest) returns (ok: bool)
      requires InHand(c) && c.phase == Compensating && Touched(c)
      modifies this`desired, this`asked
      ensures InHand(c) && asked == old(asked) + 1
      ensures desired == if world(old(asked)) == Refused then old(desired) else old(desired) + [Restored(m)]
      ensures ok <==> world(old(asked)) == Fine
    {
      TouchedGrows(c, durable);
      ok := PutDesired(Restored(m));
    }

    /** Leave the change to an operator; nobody looks at whether this save was written. */
    method Escalate(m: Change) returns (c: Change)
      requires InHand(m) && m.phase == Compensating
      modifies this`durable, this`history, this`asked
      ensures Valid() && (history == old(history) || history == old(history) + [c]) && asked >= old(asked)
      ensures durable == c || durable == old(durable)
      ensures c == m.(phase := Escalated)
    {
      c := m.(phase := Escalated);
      var _ := Save(c);
    }

    /** Closing the in-memory change in another phase is again a possible save. */
    lemma Closing(c: Change, p: Phase)
      requires InHand(c) && Live(c.phase) && p in {Compensating, Escalated, Rejected, Reverted}
      requires p == Compensating ==> Compensable(c.operations)
      requires p == Rejected ==> !Compensable(c.operations)
      requires p == Reverted ==> Noted(c)
      requires p == Reverted && desired != [] ==>
                 desired[|desired| - 1].Restored? && IsCompensation(c, releases, desired[|desired| - 1].manifest)
      ensures Admissible(c.(phase := p)) && Progress(durable, c.(phase := p))
    {
    }

    lemma Witnessing(c: Change, e: Evidence)
      requires InHand(c) && c.phase == Compensating && !e.Done?
      ensures InHand(Witnessed(c, e))
    {
      assert Witnessed(c, e).evidence[..|c.evidence|] == c.evidence;
    }

    /** Undo a scale that may have been written. */
    method UndoScale(m: Change) returns (c: Change, ok: bool)
      requires InHand(m) && m.phase == Compensating
      modifies this`desired, this`asked
      ensures InHand(c) && SameButEvidence(m, c) && asked >= old(asked)
      ensures ok && m.plan.scale.Some? && Reached(m.operations, Scale) ==>
                desired != [] && desired[|desired| - 1].Restored? && Rescaled(m.plan, desired[|desired| - 1].manifest)
      ensures Smooth(old(asked)) ==> ok
    {
      c, ok := m, true;
      if c.plan.scale.Some? && Reached(c.operations, Scale) {
        ok := Restore(c, ScaleRestore(c.plan));
        if ok {
          Witnessing(c, RestoredScale);
          c := Witnessed(c, RestoredScale);
        }
      }
    }

    /** Undo a release that may have been written. */
    method UndoRelease(m: Change) returns (c: Change, ok: bool)
      requires InHand(m) && m.phase == Compensating
      modifies this`desired, this`asked
      ensures InHand(c) && SameButEvidence(m, c) && asked >= old(asked)
      ensures if Reached(m.operations, SetDesired)
              then ok ==>
                  m.plan.base in releases && desired != [] && desired[|desired| - 1] == Restored(releases[m.plan.base])
              else desired == old(desired)
      ensures ok ==> Restorable(m, releases)
      ensures Smooth(old(asked)) && Restorable(m, releases) ==> ok
    {
      c, ok := m, true;
      if Reached(c.operations, SetDesired) {
        ok := false;
        if c.plan.base in releases { ok := Restore(c, releases[c.plan.base]); }
        if ok {
          Witnessing(c, RestoredRelease);
          c := Witnessed(c, RestoredRelease);
        }
      }
    }

    /** The compensating writes, in their order. */
    method UndoBoth(m: Change) returns (c: Change, ok: bool)
      requires InHand(m) && m.phase == Compensating
      modifies this`desired, this`asked
      ensures InHand(c) && SameButEvidence(m, c) && asked >= old(asked)
      ensures Smooth(old(asked)) && Restorable(m, releases) ==> ok
      ensures ok && desired != [] ==>
                desired[|desired| - 1].Restored? && IsCompensation(c, releases, desired[|desired| - 1].manifest)
    {
      c, ok := UndoScale(m);
      if !ok { return; }
      c, ok := UndoRelease(c);
    }

    /** The compensating writes and the phase they end in. */
    method Undo(m: Change) returns (c: Change, ok: bool)
      requires InHand(m) && m.phase == Compensating && Noted(m)
      modifies this`durable, this`history, this`desired, this`asked
      ensures Valid() && (history == old(history) || history == old(history) + [c]) && asked >= old(asked)
      ensures ok ==> durable == c && c.phase == Reverted && c.operations == m.operations
      ensures Smooth(old(asked)) && Restorable(m, releases) ==> ok
    {
      c, ok := UndoBoth(m);
      var going := Ask();
      if going != Fine { return c, false; }
      if !ok { c := Escalate(c); return; }
      Closing(c, Reverted);
      c := c.(phase := Reverted);
      ok := Save(c);
    }

    /** A save of the in-memory change that nobody looks after. */
    method SaveInHand(c: Change)
      requires InHand(c) && Live(c.phase)
      modifies this`durable, this`history, this`asked
      ensures InHand(c) && old(history) <= history && asked == old(asked) + 1
    {
      var _ := Save(c);
    }

    lemma Entering(c: Change)
      requires InHand(c) && Live(c.phase) && Compensable(c.operations)
      ensures InHand(c.(phase := Compensating))
    {
      Closing(c, Compensating);
    }

    lemma Residual(c: Change, migration: nat)
      requires InHand(c) && c.phase == Compensating
      ensures InHand(c.(residuals := c.residuals + [migration]))
    {
    }

    /** Enter compensation, whether or not that can be saved, and name the migration that stays. */
    method StartUndo(m: Change) returns (c: Change, on: bool)
      requires InHand(m) && Live(m.phase) && Compensable(m.operations)
      modifies this`durable, this`history, this`asked
      ensures InHand(c) && c.phase == Compensating && c.operations == m.operations && c.plan == m.plan
      ensures old(history) <= history && asked >= old(asked) && (on ==> Noted(c)) && (Smooth(old(asked)) ==> on)
    {
      Entering(m);
      c := m.(phase := Compensating);
      SaveInHand(c);
      var going := Ask();
      on := going == Fine;
      if on && c.plan.migration.Some? && CompletedKind(c.operations, Migrate)
          && c.plan.migration.value !in c.residuals {
        Residual(c, c.plan.migration.value);
        c := c.(residuals := c.residuals + [c.plan.migration.value]);
      }
    }

    /** Nothing needs to be undone. */
    method Reject(m: Change) returns (ok: bool)
      requires InHand(m) && Live(m.phase) && !Compensable(m.operations)
      modifies this`durable, this`history, this`asked
      ensures Valid() && old(history) <= history && asked >= old(asked) && (Smooth(old(asked)) ==> ok)
      ensures ok ==> durable == m.(phase := Rejected)
    {
      Closing(m, Rejected);
      ok := Save(m.(phase := Rejected));
    }

    /** compensateChange. */
    method Compensate(m: Change) returns (ok: bool)
      requires InHand(m) && Live(m.phase)
      modifies this`durable, this`history, this`desired, this`asked
      ensures Valid() && old(history) <= history && asked >= old(asked)
      ensures ok ==> durable.operations == m.operations && Settled(durable)
      ensures Smooth(old(asked)) && Restorable(m, releases) ==> ok
    {
      if !Compensable(m.operations) {
        ok := Reject(m);
        return;
      }
      var c;
      c, ok := StartUndo(m);
      if ok { c, ok := Undo(c); }
    }

    lemma BegunAdmissible(k: nat)
      requires Valid() && Head(durable.operations, k) && Live(durable.phase)
      ensures Admissible(Begun(durable, k)) && Progress(durable, Begun(durable, k))
    {
      BegunOk(durable, k, executed);
      if desired != [] { TouchedGrows(durable, Begun(durable, k)); }
      assert Program(Begun(durable, k).operations) == Program(durable.operations);
    }

    lemma BrokenAdmissible(k: nat)
      requires Valid() && Head(durable.operations, k) && durable.operations[k].phase == Running && Live(durable.phase)
      ensures InHand(Broken(durable, k))
    {
      BrokenOk(durable, k, executed);
      if desired != [] { TouchedGrows(durable, Broken(durable, k)); }
      assert Program(Broken(durable, k).operations) == Program(durable.operations);
    }

    lemma FinishedAdmissible(k: nat)
      requires Valid() && Head(durable.operations, k) && durable.operations[k].phase == Running
      requires durable.phase in {Applying, Verifying} && k in executed
      ensures Admissible(Finished(durable, k)) && Progress(durable, Finished(durable, k))
    {
      FinishedOk(durable, k, executed);
      if desired != [] { TouchedGrows(durable, Finished(durable, k)); }
      assert Program(Finished(durable, k).operations) == Program(durable.operations);
    }

    /**
     One turn of ApplyChange's loop: write ahead, execute, record. The operation is completed exactly if it
     works, and one that does not work is compensated for.
     */
    method Advance(k: nat) returns (on: bool)
      requires Valid() && durable.phase in {Authorized, Applying, Verifying} && Head(durable.operations, k)
      modifies this`durable, this`history, this`desired, this`executed, this`asked
      ensures Valid() && old(history) <= history && old(executed) <= executed && asked >= old(asked)
      ensures on ==> durable.phase in {Applying, Verifying}
                     && durable == Finished(Begun(old(durable), k), k) && executed == old(executed) + [k]
      ensures Smooth(old(asked)) ==> (on <==> LeftWorksAt(old(durable), k))
      ensures Smooth(old(asked)) && !on && Restorable(Begun(old(durable), k), releases) ==>
                Settled(durable)
    {
      on := Begin(k);
      if on { on := Attempt(k); }
    }

    /** The operation is on record as running: execute it and record how it went. */
    method Attempt(k: nat) returns (on: bool)
      requires Valid() && durable.phase in {Applying, Verifying} && Head(durable.operations, k)
                && durable.operations[k].phase == Running
      modifies this`durable, this`history, this`desired, this`executed, this`asked
      ensures Valid() && old(history) <= history && executed == old(executed) + [k] && asked >= old(asked)
      ensures on ==> durable == Finished(old(durable), k)
      ensures Smooth(old(asked)) ==> (on <==> Works(old(durable), k, outcome(k, old(durable).operations[k].attempts)))
      ensures Smooth(old(asked)) && !on && Restorable(old(durable), releases) ==> Settled(durable)
    {
      var done := Execute(k);
      var going := Ask();
      if going != Fine { return false; }
      if done { on := Finish(k); } else { Fail(k); on := false; }
    }

    method Begin(k: nat) returns (ok: bool)
      requires Valid() && Live(durable.phase) && Head(durable.operations, k)
      modifies this`durable, this`history, this`asked
      ensures Valid() && old(history) <= history && asked >= old(asked)
      ensures ok ==> durable == Begun(old(durable), k)
      ensures Smooth(old(asked)) ==> ok
    {
      BegunAdmissible(k);
      ok := Save(Begun(durable, k));
    }

    method Finish(k: nat) returns (ok: bool)
      requires Valid() && durable.phase in {Applying, Verifying} && Head(durable.operations, k)
      requires durable.operations[k].phase == Running && k in executed
      modifies this`durable, this`history, this`asked
      ensures Valid() && old(history) <= history && asked >= old(asked)
      ensures ok ==> durable == Finished(old(durable), k)
      ensures Smooth(old(asked)) ==> ok
    {
      FinishedAdmissible(k);
      ok := Save(Finished(durable, k));
    }

    /** The failure branch: record it if possible, then compensate. */
    method Fail(k: nat)
      requires Valid() && durable.phase in {Applying, Verifying} && Head(durable.operations, k)
                && durable.operations[k].phase == Running
      modifies this`durable, this`history, this`desired, this`asked
      ensures Valid() && old(history) <= history && asked >= old(asked)
      ensures Smooth(old(asked)) && Restorable(old(durable), releases) ==> Settled(durable)
    {
      var c := RecordFailure(k);
      var going := Ask();
      if going == Fine { var _ := Compensate(c); }
    }

    method RecordFailure(k: nat) returns (c: Change)
      requires Valid() && durable.phase in {Applying, Verifying} && Head(durable.operations, k)
                && durable.operations[k].phase == Running
      modifies this`durable, this`history, this`asked
      ensures InHand(c) && Live(c.phase) && (Restorable(c, releases) <==> Restorable(old(durable), releases))
      ensures old(history) <= history && asked >= old(asked)
    {
      BrokenAdmissible(k);
      c := Broken(durable, k);
      RestorableSame(durable, c, releases);
      SaveInHand(c);
    }

    /**
     ApplyChange: one call, from wherever the record stands. If nothing outside fails, it ends the change:
     committed exactly if every operation that is left works, else rejected or reverted.
     */
    method Apply() returns (ok: bool)
      requires Valid()
      modifies this`durable, this`history, this`desired, this`executed, this`asked
      ensures Valid() && old(history) <= history && old(executed) <= executed
      ensures Terminal(old(durable).phase) || old(durable).phase == Drafted ==>
                durable == old(durable) && desired == old(desired) && executed == old(executed)
                    && history == old(history)
      ensures ok ==> Terminal(durable.phase)
      ensures Smooth(old(asked)) && old(durable).phase in {Authorized, Applying, Verifying} ==>
                if LeftWorks(old(durable)) then ok && durable.phase == Committed
                else CanRestore(old(durable), releases) ==> Settled(durable)
      ensures Smooth(old(asked)) && old(durable).phase == Compensating && Restorable(old(durable), releases) ==>
                ok && durable.phase == Reverted
    {
      if Terminal(durable.phase) { return true; }
      if !Live(durable.phase) || !Recheck(hash, durable) { return false; }
      var lease := Ask();
      if lease != Fine { return false; }
      if durable.phase == Compensating {
        ok := Compensate(durable);
        return;
      }
      ok := RunProgram();
      if ok { ok := Commit(old(durable)); }
    }

    /** Every operation is completed. */
    method Commit(ghost first: Change) returns (ok: bool)
      requires Valid() && durable.phase in {Authorized, Applying, Verifying}
      requires durable == Ran(first, |first.operations|)
      modifies this`durable, this`history, this`asked
      ensures Valid() && old(history) <= history
      ensures ok ==> durable.phase == Committed
      ensures Smooth(old(asked)) ==> ok
    {
      RanAll(first, releases);
      ok := Save(durable.(phase := Committed));
    }

    /** Operation `k` is completed, or works with the answer that its next attempt gets. */
    ghost predicate LeftWorksAt(c: Change, k: nat)
      requires k < |c.operations|
    {
      c.operations[k].phase == Completed || Works(c, k, outcome(k, c.operations[k].attempts + 1))
    }

    ghost predicate WorksUpTo(c: Change, n: nat)
      requires n <= |c.operations|
    {
      n == 0 || (WorksUpTo(c, n - 1) && LeftWorksAt(c, n - 1))
    }

    /** Whatever is not completed works. */
    ghost predicate LeftWorks(c: Change) {
      WorksUpTo(c, |c.operations|)
    }

    lemma {:induction false} WorksFewer(c: Change, n: nat, m: nat)
      requires n <= m <= |c.operations| && WorksUpTo(c, m)
      ensures WorksUpTo(c, n)
      decreases m
    {
      if n < m { WorksFewer(c, n, m - 1); }
    }

    lemma {:induction false} WorksAre(c: Change, n: nat)
      requires n <= |c.operations|
      ensures WorksUpTo(c, n) <==> forall k :: 0 <= k < n ==> LeftWorksAt(c, k)
    {
      if n > 0 { WorksAre(c, n - 1); }
    }

    /**
     Where the loop over the operations of `first` stands before operation `k`: going on with all before it
     completed, as they must if nothing failed outside, or at an end, with what did not work compensated for.
     */
    ghost predicate Standing(first: Change, k: nat, on: bool, since: nat)
      requires k <= |first.operations|
      reads this
    {
      && asked >= since
      && (on ==> durable.phase in {Authorized, Applying, Verifying} && durable == Ran(first, k))
      && (Smooth(since) && on ==> WorksUpTo(first, k))
      && (Smooth(since) && !on ==> !LeftWorks(first) && (CanRestore(first, releases) ==> Settled(durable)))
    }

    lemma Ahead(first: Change, k: nat)
      requires k < |first.operations|
      ensures var c := Ran(first, k);
              && (CanRestore(c, releases) <==> CanRestore(first, releases))
              && (LeftWorksAt(c, k) <==> LeftWorksAt(first, k))
              && (if c.operations[k].phase == Completed then Ran(first, k + 1) == c
                  else Head(c.operations, k) && Ran(first, k + 1) == Finished(Begun(c, k), k))
      ensures WorksUpTo(first, k + 1) <==> WorksUpTo(first, k) && LeftWorksAt(first, k)
      ensures LeftWorks(first) ==> LeftWorksAt(first, k)
    {
      RanNext(first, k, releases);
      if LeftWorks(first) { WorksFewer(first, k + 1, |first.operations|); }
    }

    /** One turn of the loop. */
    method Turn(ghost first: Change, k: nat, ghost since: nat) returns (on: bool)
      requires Valid() && k < |first.operations| && Standing(first, k, true, since)
      modifies this`durable, this`history, this`desired, this`executed, this`asked
      ensures Valid() && old(history) <= history && old(executed) <= executed && Standing(first, k + 1, on, since)
    {
      Ahead(first, k);
      on := true;
      if durable.operations[k].phase != Completed { on := Try(k); }
    }

    /** Unless the lease is lost, carry the operation out. */
    method Try(k: nat) returns (on: bool)
      requires Valid() && durable.phase in {Authorized, Applying, Verifying} && Head(durable.operations, k)
      modifies this`durable, this`history, this`desired, this`executed, this`asked
      ensures Valid() && old(history) <= history && old(executed) <= executed && asked >= old(asked)
      ensures on ==> durable.phase in {Applying, Verifying} && durable == Finished(Begun(old(durable), k), k)
      ensures Smooth(old(asked)) ==> (on <==> LeftWorksAt(old(durable), k))
      ensures Smooth(old(asked)) && !on && CanRestore(old(durable), releases) ==> Settled(durable)
    {
      var lease := Ask();
      if lease != Fine { return false; }
      DoneCanRestore(durable, k, releases);
      on := Advance(k);
    }

    /** The loop over the operations. */
    method RunProgram() returns (on: bool)
      requires Valid() && durable.phase in {Authorized, Applying, Verifying}
      modifies this`durable, this`history, this`desired, this`executed, this`asked
      ensures Valid() && old(history) <= history && old(executed) <= executed && asked >= old(asked)
      ensures Standing(old(durable), |old(durable).operations|, on, old(asked))
    {
      ghost var first := durable;
      on := true;
      var k, n := 0, |durable.operations|;
      while on && k < n
        invariant 0 <= k <= n == |first.operations|
        invariant Valid() && old(history) <= history && old(executed) <= executed
        invariant Standing(first, k, on, old(asked))
      {
        on := Turn(first, k, old(asked));
        k := k + 1;
      }
    }
  }

  // ----- the theorems ---------------------------------------------------------------------------

  predicate CompletedUpTo(operations: seq<Operation>, n: nat) {
    n <= |operations| && forall i :: 0 <= i < |operations| ==> (operations[i].phase == Completed <==> i < n)
  }

  function Ids(program: seq<Instruction>): seq<nat> {
    seq(|program|, i requires 0 <= i < |program| => program[i].id)
  }

  lemma {:induction false} CompletedPrefix(operations: seq<Operation>) returns (n: nat)
    requires InOrder(operations)
    ensures CompletedUpTo(operations, n)
    ensures CompletedIds(operations) == Ids(Program(operations)[..n])
  {
    if operations == [] {
      n := 0;
    } else {
      var front, last := operations[..|operations| - 1], operations[|operations| - 1];
      n := CompletedPrefix(front);
      assert Program(operations)[..|front|] == Program(front);
      if last.phase == Completed {
        assert forall i :: 0 <= i < |front| ==> front[i].phase == Completed && i < n;
        n := |operations|;
        assert Ids(Program(operations)) == Ids(Program(front)) + [last.instruction.id];
      } else {
        assert Program(operations)[..n] == Program(front)[..n];
      }
    }
  }

  /**
   After any history of calls, wherever each of them stopped: completed operations
   are a prefix of the program and the evidence names exactly that prefix in order;
   `committed` means all of it; `rejected` means this change never wrote the desired
   release; `reverted` means its last write, if any, is the compensation manifest.
   */
  lemma Outcomes(l: Ledger) returns (n: nat)
    requires l.Valid()
    ensures CompletedUpTo(l.durable.operations, n)
    ensures DoneIds(l.durable.evidence) == Ids(Program(l.durable.operations)[..n])
    ensures l.durable.phase == Committed ==> n == |l.durable.operations|
    ensures l.durable.phase in {Applying, Verifying} && n < |l.durable.operations|
              && l.durable.operations[n].phase == Running ==>
              (l.durable.phase == Verifying <==> l.durable.operations[n].instruction.kind == Verify)
    ensures l.durable.phase == Rejected ==> l.desired == [] && forall i :: 0 <= i < |l.durable.operations| ==>
              && (l.durable.operations[i].instruction.kind in {SetDesired, Scale} ==>
                    l.durable.operations[i].phase == Pending)
              && (l.durable.operations[i].instruction.kind == Migrate ==> i >= n)
    ensures l.durable.phase == Reverted && l.desired != [] ==>
              && l.desired[|l.desired| - 1].Restored?
              && IsCompensation(l.durable, l.releases, l.desired[|l.desired| - 1].manifest)
    ensures l.durable.phase == Reverted && l.durable.plan.migration.Some? ==> forall i ::
              0 <= i < n && l.durable.operations[i].instruction.kind == Migrate ==>
                l.durable.plan.migration.value in l.durable.residuals
  {
    n := CompletedPrefix(l.durable.operations);
    if l.durable.phase == Committed {
      assert forall i :: 0 <= i < |l.durable.operations| ==> l.durable.operations[i].phase == Completed && i < n;
    }
  }

  /**
   A reverted change has put back what was desired before it exactly if that was the manifest stored for the base
   version, or, where only a scale had begun, the released manifest at its former count without a capacity lease.
   */
  lemma RevertRestoresIff(l: Ledger, earlier: Manifest)
    requires l.Valid() && l.durable.phase == Reverted && l.desired != []
    ensures l.desired[|l.desired| - 1].manifest == earlier <==>
              if Reached(l.durable.operations, SetDesired)
              then l.durable.plan.base in l.releases && l.releases[l.durable.plan.base] == earlier
              else
                && l.durable.plan.scale.Some? && earlier.replicas == l.durable.plan.scale.value.from
                && earlier.capacityLease == None && earlier.version == l.durable.plan.release.version
                && earlier.artifact == l.durable.plan.release.artifact
  {
    var n := Outcomes(l);
  }

  /** A base that was scaled after its release comes back at the count of its release. */
  lemma ScaledBaseIsLost(l: Ledger, stored: Manifest, replicas: int)
    requires l.Valid() && l.durable.phase == Reverted && l.desired != [] && Reached(l.durable.operations, SetDesired)
    requires l.durable.plan.base in l.releases && l.releases[l.durable.plan.base] == stored
    ensures l.desired[|l.desired| - 1].manifest == stored.(replicas := replicas) <==> replicas == stored.replicas
  {
    RevertRestoresIff(l, stored.(replicas := replicas));
  }

  /**
   Over the same histories: plan and program never change, a terminal record is
   the last one ever written, and a live record always passes its digest check.
   */
  lemma HistoryIsFaithful(l: Ledger, i: nat, j: nat)
    requires l.Valid() && i <= j < |l.history|
    ensures l.history[j].plan == l.history[i].plan
              && Program(l.history[j].operations) == Program(l.history[i].operations)
    ensures l.hash(l.history[i].plan, Program(l.history[i].operations)) == l.history[i].digest == l.durable.digest
    ensures Terminal(l.history[i].phase) ==> l.history[j] == l.history[i] && l.durable == l.history[i]
    ensures Live(l.durable.phase) ==> Recheck(l.hash, l.durable)
  {
    ProgressBetween(l.history, i, j);
    ProgressBetween(l.history, i, |l.history| - 1);
  }

  ghost predicate Injective(hash: (Plan, seq<Instruction>) -> nat) {
    forall p, q, a, b :: hash(p, a) == hash(q, b) ==> p == q && a == b
  }

  /** With an injective digest, whatever passes the check is what was authorized, even if the record was replaced. */
  lemma OnlyAuthorizedRuns(hash: (Plan, seq<Instruction>) -> nat, c: Change, plan: Plan, program: seq<Instruction>)
    requires Injective(hash) && Recheck(hash, c) && c.authorization == Some(hash(plan, program))
    ensures c.plan == plan && Program(c.operations) == program
  {
    assert hash(c.plan, Program(c.operations)) == hash(plan, program);
  }

  /**
   Any history: a drafted change, then any number of authorizations with whatever
   digest and of calls that stop anywhere and meet whatever answers.
   */
  method AnyHistory(hash: (Plan, seq<Instruction>) -> nat, releases: map<nat, Manifest>, world: nat -> Reply,
                    outcome: (nat, nat) -> bool, plan: Plan, program: seq<Instruction>)
    returns (l: Ledger, ghost n: nat)
    ensures l.Valid() && l.hash == hash && l.releases == releases
    ensures l.durable.plan == plan && Program(l.durable.operations) == program
    ensures CompletedUpTo(l.durable.operations, n) && DoneIds(l.durable.evidence) == Ids(program[..n])
    ensures l.durable.phase == Committed ==> n == |program|
    ensures l.durable.phase == Rejected ==> l.desired == []
    ensures l.durable.phase == Reverted && l.desired != [] ==>
              && l.desired[|l.desired| - 1].Restored?
              && IsCompensation(l.durable, releases, l.desired[|l.desired| - 1].manifest)
    ensures l.executed != [] ==> l.durable.authorization == Some(hash(plan, program))
  {
    l := new Ledger(hash, releases, world, outcome, plan, program);
    var calls: nat := *;
    while calls > 0
      invariant fresh(l) && l.Valid() && l.hash == hash && l.releases == releases
      invariant l.history[0].plan == plan && Program(l.history[0].operations) == program
    {
      if * {
        var digest: nat := *;
        var _ := l.Authorize(digest);
      } else {
        var _ := l.Apply();
      }
      calls := calls - 1;
    }
    HistoryIsFaithful(l, 0, |l.history| - 1);
    n := Outcomes(l);
    assert |l.durable.operations| == |program|;
    if l.executed != [] { assert l.executed[0] in l.executed; }
  }
}
