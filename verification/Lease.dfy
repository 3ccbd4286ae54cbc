/**
 The execution lease of a system: a versioned object, a monotone clock, and any
 number of contenders that read, compare-and-swap, heartbeat and close. Every
 store operation is one step and may lose its acknowledgement.
 */
module Lease {
  import opened Base

  /** Seconds. */
  const LEASE_DURATION: nat := 20

  const MAX_ATTEMPTS: nat := 5

  datatype Lease = Lease(change: nat, token: nat, expires: int)

  /** The stored object; version 0 means that it was never written. */
  datatype Register = Register(version: nat, lease: Option<Lease>)

  datatype Contender =
    | Reading(change: nat, attempt: nat)
    | Writing(change: nat, attempt: nat, etag: nat, lease: Lease)
    | Guard(lease: Lease, etag: nat, broken: bool)
    | Gone

  datatype System = System(register: Register, now: int, nextToken: nat, contenders: map<nat, Contender>)

  /** How a conditional write ends for the writer. */
  datatype Ack = Written | Lost | Refused

  datatype Event =
    | Tick(seconds: nat)
    | Enter(who: nat, change: nat)
    | ReadLease(who: nat, ok: bool)
    | PutLease(who: nat, ack: Ack)
    | Heartbeat(who: nat, taken: int, ack: Ack)
    | Close(who: nat, taken: int, ack: Ack)

  function Start(): System {
    System(Register(0, None), 0, 1, map[])
  }

  /** PutJSONIfMatch, and PutJSONIfAbsent when `etag` is 0. */
  function Put(r: Register, etag: nat, lease: Lease, ack: Ack): Register {
    if etag == r.version && ack != Refused then Register(r.version + 1, Some(lease)) else r
  }

  predicate Took(r: Register, etag: nat, ack: Ack) {
    etag == r.version && ack == Written
  }

  /** One pass of the acquisition loop up to its conditional write. */
  function StepRead(y: System, change: nat, attempt: nat, ok: bool): (Contender, nat) {
    if !ok || attempt >= MAX_ATTEMPTS then (Gone, y.nextToken)
    else if y.register.lease.Some? && y.register.lease.value.expires > y.now then (Gone, y.nextToken)
    else (Writing(change, attempt, y.register.version, Lease(change, y.nextToken, y.now + LEASE_DURATION)),
        y.nextToken + 1)
  }

  function StepPut(r: Register, c: Contender, ack: Ack): Contender
    requires c.Writing?
  {
    if Took(r, c.etag, ack) then Guard(c.lease, r.version + 1, false)
    else if ack == Lost then Gone
    else Reading(c.change, c.attempt + 1)
  }

  /** A heartbeat that is not acknowledged breaks the guard for good. */
  function StepHeartbeat(r: Register, g: Contender, taken: int, ack: Ack): Contender
    requires g.Guard?
  {
    var lease := g.lease.(expires := taken + LEASE_DURATION);
    if Took(r, g.etag, ack) then Guard(lease, r.version + 1, g.broken) else Guard(lease, g.etag, true)
  }

  function StepClose(r: Register, g: Contender, taken: int, ack: Ack): Contender
    requires g.Guard?
  {
    var lease := g.lease.(expires := taken);
    if Took(r, g.etag, ack) then Guard(lease, r.version + 1, g.broken) else Guard(lease, g.etag, g.broken)
  }

  function Become(y: System, who: nat, c: Contender): System {
    y.(contenders := y.contenders[who := c])
  }

  function Step(y: System, e: Event): System {
    match e
    case Tick(seconds) => y.(now := y.now + seconds)
    case Enter(who, change) => if who in y.contenders then y else Become(y, who, Reading(change, 0))
    case ReadLease(who, ok) =>
      if who in y.contenders && y.contenders[who].Reading? then
        var (c, next) := StepRead(y, y.contenders[who].change, y.contenders[who].attempt, ok);
        Become(y, who, c).(nextToken := next)
      else y
    case PutLease(who, ack) =>
      if who in y.contenders && y.contenders[who].Writing? then
        var c := y.contenders[who];
        Become(y, who, StepPut(y.register, c, ack)).(register := Put(y.register, c.etag, c.lease, ack))
      else y
    case Heartbeat(who, taken, ack) =>
      if who in y.contenders && y.contenders[who].Guard? && !y.contenders[who].broken && taken <= y.now then
        var g := y.contenders[who];
        Become(y, who, StepHeartbeat(y.register, g, taken, ack))
          .(register := Put(y.register, g.etag, g.lease.(expires := taken + LEASE_DURATION), ack))
      else y
    case Close(who, taken, ack) =>
      if who in y.contenders && y.contenders[who].Guard? && taken <= y.now then
        var g := y.contenders[who];
        Become(y, who, StepClose(y.register, g, taken, ack)).(register :=
            Put(y.register, g.etag, g.lease.(expires := taken), ack))
      else y
  }

  function Run(events: seq<Event>): System {
    if events == [] then Start() else Step(Run(events[..|events| - 1]), events[|events| - 1])
  }

  /** Assert: the guard is unbroken, its token is the stored one, and the stored lease has not expired. */
  predicate Passes(y: System, who: nat) {
    && who in y.contenders && y.contenders[who].Guard? && !y.contenders[who].broken
    && y.register.lease.Some? && y.register.lease.value.token == y.contenders[who].lease.token
    && y.register.lease.value.expires > y.now
  }

  // ----- invariant ---------------------------------------------------------------------------

  predicate Holds(r: Register, token: nat) {
    r.lease.Some? && r.lease.value.token == token
  }

  /** A contender that still has the current version knows what is stored. */
  ghost predicate ContenderOk(y: System, c: Contender) {
    match c
    case Writing(_, _, etag, lease) =>
      && etag <= y.register.version && lease.token < y.nextToken && !Holds(y.register, lease.token)
      && (etag == y.register.version && y.register.lease.Some? ==> y.register.lease.value.expires <= y.now)
    case Guard(lease, etag, _) =>
      && etag <= y.register.version && lease.token < y.nextToken
      && (etag == y.register.version ==>
          Holds(y.register, lease.token) && y.register.lease.value.change == lease.change)
    case _ => true
  }

  predicate Tokened(c: Contender) { c.Writing? || c.Guard? }

  ghost predicate DistinctTokens(z: map<nat, Contender>) {
    forall p, q :: p in z && q in z && p != q && Tokened(z[p]) && Tokened(z[q]) ==> z[p].lease.token != z[q].lease.token
  }

  ghost predicate Inv(y: System) {
    && y.nextToken > 0
    && (y.register.lease.Some? ==> y.register.lease.value.token < y.nextToken)
    && (forall p :: p in y.contenders ==> ContenderOk(y, y.contenders[p]))
    && DistinctTokens(y.contenders)
  }

  /** Only reading the lease gives out a token, and it is a new one. */
  lemma StepDistinct(y: System, e: Event)
    requires Inv(y)
    ensures DistinctTokens(Step(y, e).contenders)
  {
    forall p | p in y.contenders && Tokened(y.contenders[p]) ensures y.contenders[p].lease.token < y.nextToken {
      assert ContenderOk(y, y.contenders[p]);
    }
  }

  lemma StepInv(y: System, e: Event)
    requires Inv(y)
    ensures Inv(Step(y, e))
  {
    StepDistinct(y, e);
    var z := Step(y, e);
    forall p | p in z.contenders ensures ContenderOk(z, z.contenders[p]) {
      assert p in y.contenders ==> ContenderOk(y, y.contenders[p]);
    }
  }

  lemma {:induction false} RunInv(events: seq<Event>)
    ensures Inv(Run(events))
  {
    if events != [] {
      RunInv(events[..|events| - 1]);
      StepInv(Run(events[..|events| - 1]), events[|events| - 1]);
    }
  }

  // ----- the theorems --------------------------------------------------------------------------

  /** At any instant of any run at most one guard can pass Assert. */
  lemma OneGuardPasses(events: seq<Event>, p: nat, q: nat)
    requires Passes(Run(events), p) && Passes(Run(events), q)
    ensures p == q
  {
    RunInv(events);
  }

  /** A step that puts another token into the store finds the old lease expired. */
  lemma UnexpiredIsNeverReplaced(events: seq<Event>, e: Event)
    requires Run(events).register.lease.Some?
    ensures var y, z := Run(events), Step(Run(events), e);
            z.register.lease.Some? &&
            (z.register.lease.value.token != y.register.lease.value.token
                || z.register.lease.value.change != y.register.lease.value.change ==>
              y.register.lease.value.expires <= y.now)
  {
    RunInv(events);
  }

  /** The guard exists and the store names another token, or none. */
  predicate Superseded(y: System, who: nat) {
    who in y.contenders && y.contenders[who].Guard? && !Holds(y.register, y.contenders[who].lease.token)
  }

  lemma StepSuperseded(y: System, e: Event, who: nat)
    requires Inv(y) && Superseded(y, who)
    ensures Superseded(Step(y, e), who)
  {
  }

  /** Once superseded, a guard never passes Assert again, whatever its heartbeat and Close do. */
  lemma {:induction false} SupersededForever(events: seq<Event>, more: seq<Event>, who: nat)
    requires Superseded(Run(events), who)
    ensures Superseded(Run(events + more), who) && !Passes(Run(events + more), who)
  {
    if more == [] {
      assert events + more == events;
    } else {
      var front := more[..|more| - 1];
      SupersededForever(events, front, who);
      RunInv(events + front);
      assert (events + more)[..|events + more| - 1] == events + front;
      StepSuperseded(Run(events + front), more[|more| - 1], who);
    }
  }

  // ----- what a contender that meets no failure achieves ----------------------------------------------------

  lemma RunNext(events: seq<Event>, e: Event)
    ensures Run(events + [e]) == Step(Run(events), e)
  {
    assert (events + [e])[..|events|] == events;
  }

  predicate Free(y: System) {
    y.register.lease.None? || y.register.lease.value.expires <= y.now
  }

  /** The guard's version is the stored one. */
  predicate UpToDate(y: System, who: nat) {
    who in y.contenders && y.contenders[who].Guard? && y.contenders[who].etag == y.register.version
  }

  /** Whenever no lease is live, a new contender that meets no failure gets one for its change, twenty seconds long. */
  lemma FreeCanBeTaken(events: seq<Event>, who: nat, change: nat)
    requires Free(Run(events)) && who !in Run(events).contenders
    ensures var y := Run(events + [Enter(who, change)] + [ReadLease(who, true)] + [PutLease(who, Written)]);
            && Passes(y, who) && UpToDate(y, who) && y.now == Run(events).now
            && y.register.lease.value.change == change && y.register.lease.value.expires == y.now + 20
  {
    RunNext(events, Enter(who, change));
    RunNext(events + [Enter(who, change)], ReadLease(who, true));
    RunNext(events + [Enter(who, change)] + [ReadLease(who, true)], PutLease(who, Written));
  }

  /** A live lease turns every newcomer away. */
  lemma LiveRefuses(events: seq<Event>, who: nat, change: nat, ok: bool)
    requires !Free(Run(events)) && who !in Run(events).contenders
    ensures var y := Run(events + [Enter(who, change)] + [ReadLease(who, ok)]);
            who in y.contenders && y.contenders[who] == Gone && y.register == Run(events).register
  {
    RunNext(events, Enter(who, change));
    RunNext(events + [Enter(who, change)], ReadLease(who, ok));
  }

  /** An acknowledged heartbeat carries a passing guard twenty seconds on. */
  lemma HeartbeatExtends(events: seq<Event>, who: nat)
    requires Passes(Run(events), who) && UpToDate(Run(events), who)
    ensures var y := Run(events + [Heartbeat(who, Run(events).now, Written)]);
            && Passes(y, who) && UpToDate(y, who) && y.register.lease.value.expires == Run(events).now + 20
            && y.register.lease.value.change == Run(events).register.lease.value.change
  {
    RunInv(events);
    assert ContenderOk(Run(events), Run(events).contenders[who]);
    RunNext(events, Heartbeat(who, Run(events).now, Written));
  }

  /** One that is not acknowledged breaks the guard: it passes no more, even where its write took effect. */
  lemma UnansweredHeartbeatBreaks(events: seq<Event>, who: nat, ack: Ack)
    requires Passes(Run(events), who) && (ack != Written || !UpToDate(Run(events), who))
    ensures !Passes(Run(events + [Heartbeat(who, Run(events).now, ack)]), who)
  {
    RunNext(events, Heartbeat(who, Run(events).now, ack));
  }

  /** Closing gives the lease up: the guard passes no more, and the next contender can have it at once. */
  lemma CloseFrees(events: seq<Event>, who: nat)
    requires UpToDate(Run(events), who)
    ensures var y := Run(events + [Close(who, Run(events).now, Written)]); Free(y) && !Passes(y, who)
  {
    RunNext(events, Close(who, Run(events).now, Written));
  }
}
