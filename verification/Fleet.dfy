/**
 The node's fleet reconciler: the set of application processes, their private
 ports, and the routing table that the proxy reads while processes come and go.
 */
module Fleet {
  import opened Base

  const FIRST_PORT: int := 18080
  const LAST_PORT: int := 65535
  /** How many private ports there are. */
  const PORTS: int := LAST_PORT - FIRST_PORT + 1

  datatype Process = Process(pid: nat, port: int, identity: string)

  /** What the proxy could see at one instant. */
  datatype Instant = Instant(targets: seq<int>, running: set<Process>)

  function Ports(s: seq<Process>): seq<int> {
    seq(|s|, i requires 0 <= i < |s| => s[i].port)
  }

  ghost function Members(s: seq<Process>): set<Process> {
    set p | p in s
  }

  ghost predicate PortsOk(s: seq<Process>) {
    && (forall i :: 0 <= i < |s| ==> FIRST_PORT <= s[i].port <= LAST_PORT)
    && forall i, j :: 0 <= i < j < |s| ==> s[i].port != s[j].port
  }

  /** Every routed port belongs to a process that is running. */
  ghost predicate Serves(i: Instant) {
    forall t :: t in i.targets ==> exists p :: p in i.running && p.port == t
  }

  /** Since instant `from` the routes have not changed and have always been served. */
  ghost predicate QuietSince(trace: seq<Instant>, from: nat, targets: seq<int>) {
    forall k :: from <= k < |trace| ==> trace[k].targets == targets && Serves(trace[k])
  }

  /** Since instant `from` the routes have always been served, and never been empty if `open`. */
  ghost predicate SteadySince(trace: seq<Instant>, from: nat, open: bool) {
    forall k :: from <= k < |trace| ==> Serves(trace[k]) && (open ==> trace[k].targets != [])
  }

  lemma QuietThenSteady(before: seq<Instant>, after: seq<Instant>, from: nat, targets: seq<int>, open: bool)
    requires from <= |before| && before <= after && QuietSince(before, from, targets) && (open ==> targets != [])
    requires SteadySince(after, |before|, true)
    ensures SteadySince(after, from, open)
  {
    forall k | from <= k < |after| ensures Serves(after[k]) && (open ==> after[k].targets != []) {
      if k < |before| { assert after[k] == before[k]; }
    }
  }

  lemma MembersAppend(a: seq<Process>, b: seq<Process>)
    ensures Members(a + b) == Members(a) + Members(b)
  {
  }

  lemma ServesOwn(s: seq<Process>, running: set<Process>)
    requires Members(s) <= running
    ensures Serves(Instant(Ports(s), running))
  {
    forall t | t in Ports(s) ensures exists p :: p in running && p.port == t {
      var i :| 0 <= i < |s| && s[i].port == t;
      assert s[i] in Members(s);
    }
  }

  /** `n` consecutive ports. */
  ghost function Span(first: int, n: nat): (s: set<int>)
    ensures forall q :: q in s <==> first <= q < first + n
    ensures |s| == n
  {
    if n == 0 then {} else Span(first, n - 1) + {first + n - 1}
  }

  ghost function Listed(ports: seq<int>): (s: set<int>)
    ensures forall q :: q in s <==> q in ports
    ensures |s| <= |ports|
  {
    if ports == [] then {} else Listed(ports[..|ports| - 1]) + {ports[|ports| - 1]}
  }

  /** A list of ports that covers the whole range is at least as long as the range. */
  lemma PortsRunOut(ports: seq<int>)
    requires forall q :: FIRST_PORT <= q <= LAST_PORT ==> q in ports
    ensures |ports| > LAST_PORT - FIRST_PORT
  {
    SubsetCount(Span(FIRST_PORT, LAST_PORT - FIRST_PORT + 1), Listed(ports));
  }

  lemma {:induction false} ListedAll(ports: seq<int>)
    requires forall i, j :: 0 <= i < j < |ports| ==> ports[i] != ports[j]
    ensures |Listed(ports)| == |ports|
  {
    if ports != [] {
      var front := ports[..|ports| - 1];
      ListedAll(front);
      assert ports[|ports| - 1] !in Listed(front);
    }
  }

  lemma InRange(ports: set<int>, n: nat)
    requires forall q :: q in ports ==> FIRST_PORT <= q < FIRST_PORT + n
    ensures |ports| <= n
  {
    SubsetCount(ports, Span(FIRST_PORT, n));
  }

  /** Processes with ports of their own are no more than there are ports. */
  lemma PortsFit(s: seq<Process>)
    requires PortsOk(s)
    ensures |s| <= PORTS
  {
    ListedAll(Ports(s));
    InRange(Listed(Ports(s)), PORTS);
  }

  lemma PortsFull(a: seq<Process>, b: seq<Process>)
    requires forall q :: FIRST_PORT <= q <= LAST_PORT ==> q in Ports(a) || q in Ports(b)
    ensures |a| + |b| >= PORTS
  {
    PortsRunOut(Ports(a) + Ports(b));
  }

  lemma PortsExtend(a: seq<Process>, b: seq<Process>, p: Process)
    requires PortsOk(a + b) && FIRST_PORT <= p.port <= LAST_PORT && p.port !in Ports(a) && p.port !in Ports(b)
    ensures PortsOk(a + (b + [p]))
  {
    var s := a + b;
    forall i | 0 <= i < |s| ensures s[i].port != p.port {
      if i < |a| { assert Ports(a)[i] == s[i].port; } else { assert Ports(b)[i - |a|] == s[i].port; }
    }
    assert a + (b + [p]) == s + [p];
  }

  lemma PortsParts(a: seq<Process>, b: seq<Process>)
    requires PortsOk(a + b)
    ensures PortsOk(a) && PortsOk(b) && Members(a) !! Members(b)
  {
    var s := a + b;
    assert forall i :: 0 <= i < |a| ==> s[i] == a[i];
    assert forall i :: 0 <= i < |b| ==> s[|a| + i] == b[i];
  }

  // ----- requests -----------------------------------------------------------------------------------------

  /** The counters hold exactly how many requests in flight each target has. */
  ghost predicate Counted(inflight: map<int, int>, requests: seq<Process>) {
    forall t :: (if t in inflight then inflight[t] else 0) == multiset(Ports(requests))[t]
  }

  /** A request in flight is at a running process, unless that process was cut off. */
  ghost predicate Answered(requests: seq<Process>, launched: set<Process>, stopped: set<Process>, cut: set<Process>) {
    cut <= launched && forall p :: p in requests ==> p in launched && (p in stopped ==> p in cut)
  }

  lemma AnsweredWithout(requests: seq<Process>, launched: set<Process>, stopped: set<Process>, cut: set<Process>,
                        gone: set<Process>)
    requires Answered(requests, launched, stopped, cut) && gone <= cut
    ensures Answered(requests, launched, stopped + gone, cut)
  {
  }

  lemma PortsAppend(s: seq<Process>, p: Process)
    ensures Ports(s + [p]) == Ports(s) + [p.port]
  {
  }

  lemma PortsWithout(s: seq<Process>, i: nat)
    requires i < |s|
    ensures multiset(Ports(s)) == multiset(Ports(s[..i] + s[i + 1..])) + multiset{s[i].port}
  {
    WithoutCount(Ports(s), i);
    assert Ports(s[..i] + s[i + 1..]) == Ports(s)[..i] + Ports(s)[i + 1..];
  }

  /** A counter above zero counts somebody's request; which of them ends makes no difference to it. */
  lemma SomeRequest(inflight: map<int, int>, requests: seq<Process>, target: int) returns (i: nat)
    requires Counted(inflight, requests) && target in inflight && inflight[target] > 0
    ensures i < |requests| && requests[i].port == target
  {
    assert target in multiset(Ports(requests));
    i :| 0 <= i < |Ports(requests)| && Ports(requests)[i] == target;
  }

  /** A target without requests in flight belongs to no process that has one. */
  lemma NoRequest(inflight: map<int, int>, requests: seq<Process>, p: Process)
    requires Counted(inflight, requests) && (p.port in inflight ==> inflight[p.port] == 0)
    ensures p !in requests
  {
    assert p.port !in multiset(Ports(requests));
    forall i | 0 <= i < |requests| ensures requests[i] != p { assert Ports(requests)[i] in multiset(Ports(requests)); }
  }

  class Node {
    var active: seq<Process>
    var targets: seq<int>
    var nextTarget: nat
    var inflight: map<int, int>
    var restartRequested: bool
    var restarts: nat
    var nextPid: nat
    ghost var launched: set<Process>
    ghost var stopped: set<Process>
    ghost var trace: seq<Instant>
    /** The process that each request in flight was sent to. */
    ghost var requests: seq<Process>
    /** Processes that were stopped, or stopped themselves, without waiting for their requests. */
    ghost var cut: set<Process>
    /** Drain waits that ended before the requests did. */
    ghost var timeouts: nat
    /** Which launch, counted from the first, starts a process, and which one's process becomes healthy. */
    const starts: nat -> bool
    const healthy: nat -> bool
    var launches: nat

    /** Bookkeeping that also holds in the middle of a reconcile. */
    ghost predicate Sound()
      reads this
    {
      && PortsOk(active) && Members(active) <= launched && stopped <= launched && Members(active) !! stopped
      && targets == Ports(active)
      && (forall p :: p in launched ==> p.pid < nextPid)
      && nextTarget < WORD && Counted(inflight, requests) && Answered(requests, launched, stopped, cut)
    }

    /** Between reconciles nothing runs that is not active. */
    ghost predicate Valid()
      reads this
    {
      Sound() && Running() == Members(active)
    }

    ghost function Running(): set<Process>
      reads this
    {
      launched - stopped
    }

    constructor (starts: nat -> bool, healthy: nat -> bool)
      ensures Valid() && active == [] && trace == [] && launches == 0
      ensures this.starts == starts && this.healthy == healthy
    {
      this.starts, this.healthy, launches := starts, healthy, 0;
      active, targets, nextTarget, inflight, restartRequested, restarts, nextPid := [], [], 0, map[], false, 0, 0;
      launched, stopped, trace, requests, cut, timeouts := {}, {}, [], [], {}, 0;
      assert Ports([]) == [];
    }

    // ----- processes ------------------------------------------------------------------------------

    /** stop: the process and its group are killed, together with whatever requests it still has. */
    method Stop(p: Process, ghost waited: bool)
      requires Sound() && p in launched && p !in Members(active) && (waited ==> p !in requests)
      modifies this`stopped, this`trace, this`cut
      ensures Sound() && stopped == old(stopped) + {p} && cut == (if waited then old(cut) else old(cut) + {p})
      ensures trace == old(trace) + [Instant(targets, Running())] && Serves(Instant(targets, Running()))
    {
      stopped := stopped + {p};
      if !waited { cut := cut + {p}; }
      ServesOwn(active, Running());
      trace := trace + [Instant(targets, Running())];
    }

    method Begin(port: int, identity: string) returns (p: Process)
      requires Sound()
      modifies this`launched, this`nextPid, this`trace
      ensures Sound() && p !in old(launched) && p.port == port && p.identity == identity
                && launched == old(launched) + {p}
      ensures trace == old(trace) + [Instant(targets, Running())] && Serves(Instant(targets, Running()))
    {
      p := Process(nextPid, port, identity);
      nextPid := nextPid + 1;
      launched := launched + {p};
      ServesOwn(active, Running());
      trace := trace + [Instant(targets, Running())];
    }

    predicate Works(n: nat) {
      starts(n) && healthy(n)
    }

    /** The next launches all start a process that becomes healthy. */
    ghost predicate AllWork(from: nat, wanted: nat) {
      forall n :: from <= n < from + wanted ==> Works(n)
    }

    /** launchReplica: start a process and wait for its health; an unhealthy one is stopped again. */
    method Launch(identity: string, port: int) returns (p: Option<Process>)
      requires Sound()
      modifies this`launched, this`stopped, this`nextPid, this`trace, this`launches, this`nextTarget, this`inflight,
          this`requests, this`cut
      ensures Sound() && old(launched) <= launched && old(stopped) <= stopped && old(trace) <= trace
      ensures Quiet(old(|trace|)) && cut == old(cut) && Since(old(requests))
      ensures p.Some? ==>
                p.value.port == port && port >= 1 && p.value.identity == identity && p.value !in old(launched)
                && p.value !in requests
      ensures p.Some? ==> launched == old(launched) + {p.value} && stopped == old(stopped)
      ensures p.None? ==> Running() == old(Running())
      ensures p.Some? <==> port >= 1 && Works(old(launches))
      ensures launches == old(launches) + 1
    {
      var n := launches;
      launches := launches + 1;
      if port < 1 || !starts(n) { return None; }
      var started := Begin(port, identity);
      assert started !in Members(active) && started !in requests;
      Requests();
      if healthy(n) { return Some(started); }
      Stop(started, true);
      p := None;
    }

    /** Every request in flight is one of `before`, or has been sent to an active process since. */
    ghost predicate Since(before: seq<Process>)
      reads this
    {
      forall p :: p in requests ==> p in before || p in Members(active)
    }

    ghost predicate Quiet(from: nat)
      reads this
    {
      QuietSince(trace, from, targets)
    }

    ghost predicate Steady(from: nat, open: bool)
      reads this
    {
      SteadySince(trace, from, open)
    }

    // ----- ports ------------------------------------------------------------------------------------

    /** nextProcessPort: the lowest private port that neither list uses, or 0. */
    method NextPort(extra: seq<Process>) returns (port: int)
      ensures port != 0 ==> FIRST_PORT <= port <= LAST_PORT && port !in Ports(active) && port !in Ports(extra)
      ensures forall q :: FIRST_PORT <= q <= LAST_PORT && (port == 0 || q < port) ==>
                q in Ports(active) || q in Ports(extra)
      ensures |active| + |extra| <= LAST_PORT - FIRST_PORT ==> port != 0
    {
      var used := (set q | q in Ports(active)) + (set q | q in Ports(extra));
      assert forall q :: q in used <==> q in Ports(active) || q in Ports(extra);
      port := FIRST_PORT;
      while port <= LAST_PORT
        invariant FIRST_PORT <= port <= LAST_PORT + 1
        invariant forall q :: FIRST_PORT <= q < port ==> q in used
      {
        if port !in used { return; }
        port := port + 1;
      }
      PortsRunOut(Ports(active) + Ports(extra));
      port := 0;
    }

    // ----- routing ------------------------------------------------------------------------------------

    /** setTargets, together with the active list that it publishes. */
    method Publish(processes: seq<Process>)
      requires Sound() && PortsOk(processes) && Members(processes) <= launched && Members(processes) !! stopped
      modifies this`active, this`targets, this`nextTarget, this`trace
      ensures Sound() && active == processes
      ensures trace == old(trace) + [Instant(targets, Running())] && Serves(Instant(targets, Running()))
    {
      Route(processes);
      ServesOwn(active, Running());
    }

    /** acquireTarget: the next target in turn, counted as in flight. */
    method Acquire() returns (target: Option<int>)
      requires Sound()
      modifies this`nextTarget, this`inflight, this`requests
      ensures Sound() && (target.None? <==> targets == [])
      ensures target.Some? ==>
                var k := old(nextTarget) % |targets|;
                k < |active| && target.value == targets[k] == active[k].port && requests == old(requests) + [active[k]]
      ensures target.None? ==> requests == old(requests) && nextTarget == old(nextTarget)
      ensures old(Valid()) ==> Valid()
    {
      if targets == [] { return None; }
      var k := nextTarget % |targets|;
      var t := targets[k];
      nextTarget := (nextTarget + 1) % WORD;
      inflight := inflight[t := (if t in inflight then inflight[t] else 0) + 1];
      PortsAppend(requests, active[k]);
      assert active[k] in Members(active);
      requests := requests + [active[k]];
      target := Some(t);
    }

    /** The release closure of the request at `i`. */
    method Release(target: int, ghost i: nat)
      requires Sound() && i < |requests| && requests[i].port == target
      modifies this`inflight, this`requests
      ensures Sound() && requests == old(requests)[..i] + old(requests)[i + 1..] && target in inflight
                && inflight[target] >= 0
      ensures old(Valid()) ==> Valid()
    {
      PortsWithout(requests, i);
      inflight := inflight[target := inflight[target] - 1];
      requests := requests[..i] + requests[i + 1..];
    }

    /** The proxy meanwhile: any number of requests begin and end. */
    method Requests()
      requires Sound()
      modifies this`nextTarget, this`inflight, this`requests
      ensures Sound() && Since(old(requests))
    {
      var steps: nat := *;
      while steps > 0
        invariant Sound() && Since(old(requests))
      {
        if * {
          var _ := Acquire();
        } else {
          var target: int := *;
          if target in inflight && inflight[target] > 0 {
            ghost var i := SomeRequest(inflight, requests, target);
            Release(target, i);
          }
        }
        steps := steps - 1;
      }
    }

    /** waitForDrain, while the proxy goes on: it sees no request left, or gives up. */
    method WaitForDrain(p: Process) returns (drained: bool)
      requires Sound() && p !in Members(active)
      modifies this`nextTarget, this`inflight, this`requests, this`timeouts
      ensures Sound() && Since(old(requests)) && (drained ==> p !in requests)
      ensures timeouts == old(timeouts) + (if drained then 0 else 1)
      ensures old(p.port !in inflight || inflight[p.port] == 0) ==> drained && requests == old(requests)
    {
      var ticks: nat := *;
      drained := p.port !in inflight || inflight[p.port] == 0;
      while !drained && ticks > 0
        invariant Sound() && Since(old(requests)) && timeouts == old(timeouts)
        invariant drained ==> p.port !in inflight || inflight[p.port] == 0
        invariant old(p.port !in inflight || inflight[p.port] == 0) ==> drained && requests == old(requests)
        decreases ticks
      {
        Requests();
        drained := p.port !in inflight || inflight[p.port] == 0;
        ticks := ticks - 1;
      }
      if drained { NoRequest(inflight, requests, p); } else { timeouts := timeouts + 1; }
    }

    // ----- the reconcile --------------------------------------------------------------------------------

    /** Stop candidates that were never routed. */
    method Discard(ps: seq<Process>)
      requires Sound() && Members(ps) <= launched && Members(ps) !! Members(active) && Unasked(ps)
      modifies this`stopped, this`trace, this`cut, this`nextTarget, this`inflight, this`requests
      ensures Sound() && stopped == old(stopped) + Members(ps) && cut == old(cut) && Since(old(requests))
      ensures old(trace) <= trace && Quiet(old(|trace|))
    {
      var i := 0;
      while i < |ps|
        invariant 0 <= i <= |ps| && Sound() && stopped == old(stopped) + Members(ps[..i]) && cut == old(cut)
        invariant old(trace) <= trace && Quiet(old(|trace|)) && Unasked(ps) && Since(old(requests))
      {
        Requests();
        assert ps[i] in Members(ps);
        Stop(ps[i], true);
        assert ps[..i + 1] == ps[..i] + [ps[i]];
        MembersAppend(ps[..i], [ps[i]]);
        i := i + 1;
      }
      assert ps[..i] == ps;
    }

    /** No request was sent to any of these. */
    ghost predicate Unasked(ps: seq<Process>)
      reads this
    {
      forall p :: p in requests ==> p !in Members(ps)
    }

    /** Stop a list of processes that are no longer routed, each after its drain wait. */
    method StopAll(ps: seq<Process>)
      requires Sound() && Members(ps) <= launched && Members(ps) !! Members(active)
      modifies this`stopped, this`trace, this`cut, this`nextTarget, this`inflight, this`requests, this`timeouts
      ensures Sound() && stopped == old(stopped) + Members(ps) && Cuts(old(cut), old(timeouts))
      ensures old(trace) <= trace && Quiet(old(|trace|))
    {
      var i := 0;
      while i < |ps|
        invariant 0 <= i <= |ps| && Sound() && stopped == old(stopped) + Members(ps[..i])
                  && Cuts(old(cut), old(timeouts))
        invariant old(trace) <= trace && Quiet(old(|trace|))
      {
        assert ps[i] in Members(ps);
        StopOne(ps[i]);
        assert ps[..i + 1] == ps[..i] + [ps[i]];
        MembersAppend(ps[..i], [ps[i]]);
        i := i + 1;
      }
      assert ps[..i] == ps;
    }

    method StopOne(p: Process)
      requires Sound() && p in launched && p !in Members(active)
      modifies this`stopped, this`trace, this`cut, this`nextTarget, this`inflight, this`requests, this`timeouts
      ensures Sound() && stopped == old(stopped) + {p} && Cuts(old(cut), old(timeouts))
      ensures trace == old(trace) + [Instant(targets, Running())] && Serves(Instant(targets, Running()))
    {
      var drained := WaitForDrain(p);
      Requests();
      Stop(p, drained);
    }

    /** Both launch loops: start processes until `wanted` of them run, or stop them all again. */
    method LaunchMany(identity: string, wanted: nat) returns (started: seq<Process>, ok: bool)
      requires Sound()
      modifies this`launched, this`stopped, this`nextPid, this`trace, this`launches, this`nextTarget, this`inflight,
          this`requests, this`cut
      ensures Sound() && old(trace) <= trace && Quiet(old(|trace|)) && old(stopped) <= stopped && cut == old(cut)
      ensures ok <==> AllWork(old(launches), wanted) && |active| + wanted <= PORTS
      ensures ok ==>
                |started| == wanted && PortsOk(active + started)
                && forall i :: 0 <= i < |started| ==> started[i].identity == identity
      ensures ok ==>
                Members(started) !! old(launched) && stopped == old(stopped)
                && Running() == old(Running()) + Members(started)
      ensures !ok ==> Running() == old(Running())
    {
      started := [];
      while |started| < wanted
        invariant |started| <= wanted && Sound() && old(trace) <= trace && Quiet(old(|trace|))
        invariant launches == old(launches) + |started| && AllWork(old(launches), |started|)
        invariant PortsOk(active + started) && forall i :: 0 <= i < |started| ==> started[i].identity == identity
        invariant launched == old(launched) + Members(started) && stopped == old(stopped)
                  && Members(started) !! old(launched)
        invariant cut == old(cut) && Unasked(started)
        decreases wanted - |started|
      {
        var port := NextPort(started);
        var p := Launch(identity, port);
        if p.None? {
          if port == 0 { PortsFull(active, started); }
          assert Running() == old(Running()) + Members(started);
          Discard(started);
          return started, false;
        }
        PortsExtend(active, started, p.value);
        MembersAppend(started, [p.value]);
        started := started + [p.value];
      }
      PortsFit(active + started);
      ok := true;
    }

    /** Publish a nonempty list of running processes, then stop those it leaves out. */
    method Retire(next: seq<Process>, gone: seq<Process>)
      requires Sound() && next != [] && PortsOk(next) && Members(next) <= Running()
      requires Members(gone) <= launched && Members(gone) !! Members(next)
      modifies this`active, this`targets, this`nextTarget, this`stopped, this`trace, this`cut, this`inflight,
          this`requests, this`timeouts
      ensures Sound() && active == next && Running() == old(Running()) - Members(gone) && Cuts(old(cut), old(timeouts))
      ensures old(trace) <= trace && Steady(old(|trace|), true)
    {
      Requests();
      Publish(next);
      StopAll(gone);
    }

    /** Route a complete new fleet instead of the old one, then stop that. */
    method TakeOver(candidates: seq<Process>)
      requires Sound() && candidates != [] && PortsOk(active + candidates)
                && Running() == Members(active) + Members(candidates)
      modifies this`active, this`targets, this`nextTarget, this`stopped, this`trace, this`cut, this`inflight,
          this`requests, this`timeouts
      ensures Valid() && active == candidates && Members(active) !! old(Members(active))
                && Cuts(old(cut), old(timeouts))
      ensures old(trace) <= trace && Steady(old(|trace|), true)
    {
      PortsParts(active, candidates);
      Retire(candidates, active);
    }

    /** Replace the whole fleet: start a complete new one, publish it, then stop the old one. */
    method Replace(identity: string, replicas: nat) returns (ok: bool)
      requires Valid() && replicas >= 1
      modifies this`active, this`targets, this`nextTarget, this`launched, this`stopped, this`nextPid, this`trace,
          this`launches, this`restartRequested, this`restarts,
               this`inflight, this`requests, this`cut, this`timeouts
      ensures Valid() && Cuts(old(cut), old(timeouts)) && !restartRequested
                && old(trace) <= trace && Steady(old(|trace|), old(targets) != [])
      ensures ok <==> AllWork(old(launches), replicas) && |old(active)| + replicas <= PORTS
      ensures ok ==> |active| == replicas && Uniform(identity) && Members(active) !! old(Members(active))
      ensures !ok ==> active == old(active) && targets == old(targets)
      ensures restarts == old(restarts) + (if ok && old(restartRequested) then 1 else 0)
    {
      var candidates;
      candidates, ok := LaunchMany(identity, replicas);
      if !ok {
        restartRequested := false;
        return;
      }
      ghost var midway := trace;
      TakeOver(candidates);
      QuietThenSteady(midway, trace, old(|trace|), old(targets), old(targets) != []);
      if restartRequested { restarts := restarts + 1; }
      restartRequested := false;
    }

    /** Add replicas of the identity that already runs. */
    method Grow(identity: string, replicas: nat) returns (ok: bool)
      requires Valid() && 1 <= |active| < replicas && Uniform(identity)
      modifies this`active, this`targets, this`nextTarget, this`launched, this`stopped, this`nextPid, this`trace,
          this`launches, this`inflight, this`requests, this`cut, this`timeouts
      ensures Valid() && Cuts(old(cut), old(timeouts)) && old(trace) <= trace && Steady(old(|trace|), true)
      ensures ok <==> AllWork(old(launches), replicas - |old(active)|) && replicas <= PORTS
      ensures ok ==> |active| == replicas && old(active) <= active && Uniform(identity)
      ensures !ok ==> active == old(active) && targets == old(targets)
    {
      var added;
      added, ok := LaunchMany(identity, replicas - |active|);
      if !ok { return; }
      MembersAppend(active, added);
      ghost var midway := trace;
      Retire(active + added, []);
      QuietThenSteady(midway, trace, old(|trace|), old(targets), true);
    }

    /** Drop the replicas beyond the wanted number. */
    method Shrink(identity: string, replicas: nat)
      requires Valid() && 1 <= replicas < |active| && Uniform(identity)
      modifies this`active, this`targets, this`nextTarget, this`stopped, this`trace, this`inflight, this`requests,
          this`cut, this`timeouts
      ensures Valid() && Cuts(old(cut), old(timeouts)) && active == old(active)[..replicas] && Uniform(identity)
      ensures old(trace) <= trace && Steady(old(|trace|), true)
    {
      var kept, removed := active[..replicas], active[replicas..];
      assert active == kept + removed;
      PortsParts(kept, removed);
      MembersAppend(kept, removed);
      Retire(kept, removed);
    }

    /** Processes were cut off only by drain waits that timed out. */
    ghost predicate Cuts(before: set<Process>, waits: nat)
      reads this
    {
      before <= cut && waits <= timeouts && (timeouts == waits ==> cut == before)
    }

    ghost predicate Uniform(identity: string)
      reads this
    {
      forall i :: 0 <= i < |active| ==> active[i].identity == identity
    }

    /** There are ports for the processes that are to be launched, and all of these launches work. */
    ghost predicate Possible(fleet: seq<Process>, restart: bool, from: nat, identity: string, replicas: nat) {
      var kept := !restart && fleet != [] && forall i :: 0 <= i < |fleet| ==> fleet[i].identity == identity;
      if !kept then AllWork(from, replicas) && |fleet| + replicas <= PORTS
      else |fleet| < replicas ==> AllWork(from, replicas - |fleet|) && replicas <= PORTS
    }

    /**
     reconcileReleaseFleet. It fails exactly when the release cannot run here, or one of the
     launches that it takes will fail or find no port, and then leaves the active set and the
     routes as they were. On success exactly the wanted number of processes of the wanted
     identity is active, and processes that already had it are kept. Either way every process
     ever launched is active or stopped, and at no instant in between does an open routing
     table close or name a process that is not running.
     */
    method Reconcile(runnable: bool, identity: string, replicas: nat) returns (ok: bool)
      requires Valid() && replicas >= 1
      modifies this`active, this`targets, this`nextTarget, this`launched, this`stopped, this`nextPid, this`trace,
          this`launches, this`restartRequested, this`restarts,
               this`inflight, this`requests, this`cut, this`timeouts
      ensures Valid() && Cuts(old(cut), old(timeouts)) && old(trace) <= trace
                && Steady(old(|trace|), old(targets) != [])
      ensures ok <==> runnable && Possible(old(active), old(restartRequested), old(launches), identity, replicas)
      ensures ok ==> |active| == replicas && Uniform(identity) && !restartRequested
      ensures !ok ==> active == old(active) && targets == old(targets) && restarts == old(restarts)
      ensures ok && old(restartRequested) ==> restarts == old(restarts) + 1 && Members(active) !! old(Members(active))
      ensures !old(restartRequested) && old(active) != [] && old(Uniform(identity)) ==>
                (active <= old(active) || old(active) <= active) && (|old(active)| == replicas ==> trace == old(trace))
    {
      if !runnable { return false; }
      var matches := Matches(active, identity);
      if restartRequested || !matches {
        ok := Replace(identity, replicas);
        return;
      }
      ok := true;
      if |active| < replicas {
        ok := Grow(identity, replicas);
        if !ok { return; }
      }
      if |active| > replicas {
        Shrink(identity, replicas);
      }
    }

    /** Processes are gone while they are still routed: whatever requests they have or get are lost. */
    method CutOff(ghost gone: set<Process>)
      requires Sound() && gone <= launched
      modifies this`cut, this`nextTarget, this`inflight, this`requests
      ensures Sound() && cut == old(cut) + gone
    {
      cut := cut + gone;
      Requests();
    }

    /** Take processes that are gone out of the routes. */
    method Bury(survivors: seq<Process>, ghost gone: set<Process>)
      requires Valid() && PortsOk(survivors) && gone <= Members(active) && Members(survivors) == Members(active) - gone
      modifies this`active, this`targets, this`nextTarget, this`stopped, this`trace, this`cut, this`inflight,
          this`requests
      ensures Valid() && active == survivors && cut == old(cut) + gone
    {
      CutOff(gone);
      AnsweredWithout(requests, launched, stopped, cut, gone);
      stopped := stopped + gone;
      Route(survivors);
    }

    /**
     reapExited: processes that exited on their own are stopped with their group and
     leave the active list and the routes. Requests that reach them until then are lost.
     */
    method ReapExited(done: set<Process>) returns (exited: nat)
      requires Valid()
      modifies this`active, this`targets, this`nextTarget, this`stopped, this`trace, this`restarts, this`cut,
          this`inflight, this`requests
      ensures Valid() && cut == old(cut) + old(Members(active)) * done && Members(active) == old(Members(active)) - done
      ensures restarts == old(restarts) + exited && exited == old(|active|) - |active|
      ensures exited == 0 ==> active == old(active) && trace == old(trace)
    {
      var survivors;
      survivors, exited := Partition(active, done);
      KeepMembers(active, done);
      KeepPorts(active, done);
      restarts := restarts + exited;
      if exited > 0 {
        Bury(survivors, Members(active) * done);
      }
    }

    /** The assignments of setTargets. */
    method Route(processes: seq<Process>)
      requires nextTarget < WORD
      modifies this`active, this`targets, this`nextTarget, this`trace
      ensures active == processes && targets == Ports(processes) && nextTarget < WORD
      ensures trace == old(trace) + [Instant(targets, Running())]
    {
      active := processes;
      targets := Ports(processes);
      if targets != [] { Wraps(nextTarget, |targets|); }
      nextTarget := if targets == [] then 0 else nextTarget % |targets|;
      trace := trace + [Instant(targets, Running())];
    }
  }

  method Matches(active: seq<Process>, identity: string) returns (matches: bool)
    ensures matches <==> active != [] && forall k :: 0 <= k < |active| ==> active[k].identity == identity
  {
    matches := |active| > 0;
    var i := 0;
    while i < |active|
      invariant 0 <= i <= |active|
      invariant matches <==> |active| > 0 && forall k :: 0 <= k < i ==> active[k].identity == identity
    {
      matches := matches && active[i].identity == identity;
      i := i + 1;
    }
  }

  function Keep(active: seq<Process>, done: set<Process>): seq<Process> {
    if active == [] then []
    else
      var last := active[|active| - 1];
      Keep(active[..|active| - 1], done) + (if last in done then [] else [last])
  }

  lemma {:induction false} KeepMembers(active: seq<Process>, done: set<Process>)
    ensures |Keep(active, done)| <= |active| && Members(Keep(active, done)) == Members(active) - done
    ensures |Keep(active, done)| == |active| ==> Keep(active, done) == active
  {
    if active != [] {
      var front, last := active[..|active| - 1], active[|active| - 1];
      KeepMembers(front, done);
      assert active == front + [last];
      var kept := Keep(front, done);
      MembersAppend(front, [last]);
      if last in done {
        assert Keep(active, done) == kept;
      } else {
        assert Keep(active, done) == kept + [last];
        MembersAppend(kept, [last]);
      }
    }
  }

  lemma PortsLast(s: seq<Process>, p: Process)
    requires PortsOk(s + [p])
    ensures PortsOk(s) && FIRST_PORT <= p.port <= LAST_PORT && forall q :: q in Members(s) ==> q.port != p.port
  {
    PortsParts(s, [p]);
    assert (s + [p])[|s|] == p;
    forall i | 0 <= i < |s| ensures s[i].port != p.port { assert (s + [p])[i] == s[i]; }
  }

  lemma {:induction false} KeepPorts(active: seq<Process>, done: set<Process>)
    requires PortsOk(active)
    ensures PortsOk(Keep(active, done))
  {
    if active != [] {
      var front, last := active[..|active| - 1], active[|active| - 1];
      assert active == front + [last];
      PortsLast(front, last);
      KeepPorts(front, done);
      KeepMembers(front, done);
      var kept := Keep(front, done);
      if last in done {
        assert Keep(active, done) == kept;
      } else {
        PortsJoin(kept, last);
        assert Keep(active, done) == kept + [last];
      }
    }
  }

  lemma PortsJoin(s: seq<Process>, p: Process)
    requires PortsOk(s) && FIRST_PORT <= p.port <= LAST_PORT && forall q :: q in Members(s) ==> q.port != p.port
    ensures PortsOk(s + [p])
  {
    forall i | 0 <= i < |s| ensures s[i].port != p.port { assert s[i] in Members(s); }
  }

  /** The loop of reapExited: the survivors in order, and how many are gone. */
  method Partition(active: seq<Process>, done: set<Process>) returns (survivors: seq<Process>, exited: nat)
    ensures survivors == Keep(active, done) && exited == |active| - |survivors|
  {
    survivors, exited := [], 0;
    var i := 0;
    while i < |active|
      invariant 0 <= i <= |active| && survivors == Keep(active[..i], done) && exited == i - |survivors|
    {
      assert active[..i + 1][..i] == active[..i];
      if active[i] in done { exited := exited + 1; } else { survivors := survivors + [active[i]]; }
      i := i + 1;
    }
    assert active[..i] == active;
  }

  lemma Wraps(counter: nat, n: nat)
    requires counter < WORD && n > 0
    ensures counter % n < WORD
  {
    assert counter == counter / n * n + counter % n;
  }
}
