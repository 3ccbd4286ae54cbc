/** System.Validate: its loops and overflow guards, against the contract over unbounded integers. */
module SystemValidate {
  import opened Base
  import opened Dependencies
  import opened SystemHeader
  import opened SystemSpec

  const MAX: Int := MAX_INT as Int
  const NODES: Int := MAX_NODES as Int
  const EDGES: Int := MAX_EDGES as Int

  // ----- arithmetic of the guards ------------------------------------------------------------

  /** The division guard is exact. */
  lemma DivisionGuard(a: int, b: int, limit: int)
    requires b > 0 && limit >= 0
    ensures a > limit / b <==> a * b > limit
  {
    var q := limit / b;
    assert limit == q * b + limit % b;
    if a > q {
      assert a * b >= (q + 1) * b;
    } else {
      assert a * b <= q * b;
    }
  }

  lemma Product(a: int, b: int)
    requires a >= 0 && b >= 0
    ensures a * b >= 0
  {
  }

  lemma {:induction false} TotalsGrow(services: seq<Service>, i: nat)
    requires i <= |services| && forall s :: s in services ==> ServiceOk(s)
    ensures 0 <= Instances(services[..i]) <= Instances(services)
    ensures 0 <= GuestMemory(services[..i]) <= GuestMemory(services)
    ensures 0 <= Edges(services[..i]) <= Edges(services)
    ensures |services| <= Instances(services)
    decreases |services|
  {
    if services == [] {
      assert services[..i] == services;
    } else {
      var front, last := services[..|services| - 1], services[|services| - 1];
      assert ServiceOk(last);
      assert forall s :: s in front ==> s in services;
      Product(last.instances as int, last.memory as int);
      Product(|last.dependsOn|, last.instances as int);
      TotalsGrow(front, if i == |services| then |front| else i);
      assert services[..i] == if i == |services| then services else front[..i];
    }
  }

  lemma Prefix(services: seq<Service>, i: nat)
    requires i < |services|
    ensures services[..i + 1][..i] == services[..i] && services[..i + 1][i] == services[i]
    ensures services[..i + 1] == services[..i] + [services[i]]
    ensures Declared(services[..i + 1]) == Declared(services[..i]) + {services[i].name}
  {
    assert services[..i + 1] == services[..i] + [services[i]];
  }

  /** The running totals after one more service. */
  lemma NextTotals(services: seq<Service>, i: nat)
    requires i < |services| && forall s :: s in services ==> ServiceOk(s)
    ensures 0 <= Instances(services[..i]) && 0 <= GuestMemory(services[..i]) <= GuestMemory(services[..i + 1])
    ensures Instances(services[..i + 1]) ==
              Instances(services[..i]) + services[i].instances as int <= Instances(services)
    ensures GuestMemory(services[..i + 1]) ==
              GuestMemory(services[..i]) + services[i].instances as int * services[i].memory as int
    ensures GuestMemory(services[..i + 1]) <= GuestMemory(services)
  {
    Prefix(services, i);
    TotalsGrow(services, i);
    TotalsGrow(services, i + 1);
    assert ServiceOk(services[i]);
    Product(services[i].instances as int, services[i].memory as int);
  }

  // ----- first loop: the services one by one -----------------------------------------------------

  ghost predicate TotalsOk(services: seq<Service>) {
    Instances(services) <= MAX_NODES / 2 && GuestMemory(services) <= MAX_INT
  }

  ghost predicate Accepted(services: seq<Service>) {
    Unique(services) && (forall s :: s in services ==> ServiceOk(s)) && TotalsOk(services)
  }

  /** One service against the running totals, in the order of the source's checks. */
  method CheckService(service: Service, total: Int, guest: Int) returns (ok: bool, total': Int, guest': Int)
    requires 0 <= total <= NODES / 2 && 0 <= guest <= MAX
    ensures ok <==> && ServiceOk(service) && total as int + service.instances as int <= MAX_NODES / 2
                    && guest as int + service.instances as int * service.memory as int <= MAX_INT
    ensures ok ==> total' as int == total as int + service.instances as int
    ensures ok ==> guest' as int == guest as int + service.instances as int * service.memory as int
  {
    ok, total', guest' := false, total, guest;
    if !SafeName(service.name) { return; }
    if service.kind == "" || service.instances < 1 || service.vcpu < 1 || service.memory < 1 { return; }
    if service.isolation != Firecracker && service.isolation != Process { return; }
    if service.kind == "database" && service.engine == "" { return; }
    if service.protocol == "" || service.port < 1 || service.port > 65535 { return; }
    if service.instances > NODES / 2 - total { return; }
    DivisionGuard(service.memory as int, service.instances as int, MAX_INT);
    if service.memory > MAX / service.instances { return; }
    var memory := service.instances * service.memory;
    if memory > MAX - guest { return; }
    return true, total + service.instances, guest + memory;
  }

  method CheckServices(services: seq<Service>) returns (ok: bool, seen: set<string>, total: Int, guest: Int)
    ensures ok <==> Accepted(services)
    ensures ok ==> seen == Declared(services)
    ensures ok ==>
              total as int == Instances(services) && guest as int == GuestMemory(services) && 0 <= total <= NODES / 2
              && guest >= 0
  {
    ok, seen, total, guest := false, {}, 0, 0;
    var i := 0;
    while i < |services|
      invariant 0 <= i <= |services|
      invariant seen == Declared(services[..i]) && Accepted(services[..i])
      invariant 0 <= total <= NODES / 2 && total as int == Instances(services[..i])
      invariant guest >= 0 && guest as int == GuestMemory(services[..i])
    {
      var service := services[i];
      Prefix(services, i);
      if service.name in seen {
        Repeats(services, i);
        return;
      }
      var fits, t, m := CheckService(service, total, guest);
      if !fits {
        Refuses(services, i);
        return;
      }
      total, guest, seen := t, m, seen + {service.name};
      Accepts(services, i);
      i := i + 1;
    }
    assert services[..i] == services;
    ok := true;
  }

  lemma Repeats(services: seq<Service>, i: nat)
    requires i < |services| && services[i].name in Declared(services[..i])
    ensures !Accepted(services)
  {
    var s :| s in services[..i] && s.name == services[i].name;
    var k :| 0 <= k < i && services[k] == s;
  }

  lemma Refuses(services: seq<Service>, i: nat)
    requires i < |services| && Accepted(services[..i])
    requires !(&& ServiceOk(services[i]) && Instances(services[..i]) + services[i].instances as int <= MAX_NODES / 2
               && GuestMemory(services[..i]) + services[i].instances as int * services[i].memory as int <= MAX_INT)
    ensures !Accepted(services)
  {
    assert services[i] in services;
    if Accepted(services) {
      Prefix(services, i);
      TotalsGrow(services, i + 1);
    }
  }

  lemma Accepts(services: seq<Service>, i: nat)
    requires i < |services| && Accepted(services[..i]) && services[i].name !in Declared(services[..i])
    requires ServiceOk(services[i]) && Instances(services[..i]) + services[i].instances as int <= MAX_NODES / 2
    requires GuestMemory(services[..i]) + services[i].instances as int * services[i].memory as int <= MAX_INT
    ensures Accepted(services[..i + 1])
  {
    Prefix(services, i);
    forall k | 0 <= k < i ensures services[k].name != services[i].name {
      assert services[..i][k] in services[..i];
    }
  }

  // ----- second loop: the dependencies -----------------------------------------------------------------

  ghost predicate LinkedOk(services: seq<Service>, upto: nat)
    requires upto <= |services|
  {
    && (forall k :: 0 <= k < upto ==> LinksOk(services, services[k]))
    && Edges(services[..upto]) <= MAX_EDGES
  }

  /** Self, unknown and repeated dependencies. */
  method CheckLinks(ghost services: seq<Service>, service: Service, seen: set<string>) returns (ok: bool)
    requires seen == Declared(services)
    ensures ok <==> LinksOk(services, service)
  {
    var dependencies: set<string> := {};
    var j := 0;
    while j < |service.dependsOn|
      invariant 0 <= j <= |service.dependsOn|
      invariant forall d :: d in dependencies <==> d in service.dependsOn[..j]
      invariant NoDuplicates(service.dependsOn[..j])
                && forall d :: d in service.dependsOn[..j] ==> d != service.name && d in seen
    {
      var d := service.dependsOn[j];
      assert service.dependsOn[..j + 1] == service.dependsOn[..j] + [d];
      assert d in service.dependsOn;
      if d == service.name || d !in seen { return false; }
      if d in dependencies {
        var k :| 0 <= k < j && service.dependsOn[..j][k] == d;
        return false;
      }
      dependencies := dependencies + {d};
      j := j + 1;
    }
    assert service.dependsOn[..j] == service.dependsOn;
    ok := true;
  }

  /** Who depends on whom, after the first `upto` services and `j` more links of the next one. */
  ghost predicate ReversedUpTo(services: seq<Service>, dependents: map<string, seq<string>>, upto: nat, j: nat)
    requires upto <= |services| && Unique(services) && (upto < |services| ==> j <= |services[upto].dependsOn|)
  {
    && (forall d :: NoDuplicates(Listed(dependents, d)))
    && forall d, n :: n in Listed(dependents, d) <==>
         || (n in Declared(services[..upto]) && Edge(Depends(services), n, d))
         || (upto < |services| && n == services[upto].name && d in services[upto].dependsOn[..j])
  }

  method Append(ghost services: seq<Service>, ghost at: nat, service: Service, before: map<string, seq<string>>)
    returns (dependents: map<string, seq<string>>)
    requires Unique(services) && at < |services| && services[at] == service && LinksOk(services, service)
    requires ReversedUpTo(services, before, at, 0)
    ensures ReversedUpTo(services, dependents, at, |service.dependsOn|)
  {
    dependents := before;
    var j := 0;
    while j < |service.dependsOn|
      invariant 0 <= j <= |service.dependsOn| && ReversedUpTo(services, dependents, at, j)
    {
      var d := service.dependsOn[j];
      AppendOne(services, dependents, at, j);
      dependents := dependents[d := Listed(dependents, d) + [service.name]];
      j := j + 1;
    }
  }

  lemma AppendOne(services: seq<Service>, dependents: map<string, seq<string>>, at: nat, j: nat)
    requires Unique(services) && at < |services| && LinksOk(services, services[at]) && j < |services[at].dependsOn|
    requires ReversedUpTo(services, dependents, at, j)
    ensures var d := services[at].dependsOn[j];
            ReversedUpTo(services, dependents[d := Listed(dependents, d) + [services[at].name]], at, j + 1)
  {
    var s := services[at];
    var d := s.dependsOn[j];
    assert s.dependsOn[..j + 1] == s.dependsOn[..j] + [d];
    assert d !in s.dependsOn[..j];
    NotYet(services, at);
    assert s.name !in Listed(dependents, d);
    var after := dependents[d := Listed(dependents, d) + [s.name]];
    assert forall e :: Listed(after, e) == if e == d then Listed(dependents, d) + [s.name] else Listed(dependents, e);
    forall e, n
      ensures n in Listed(after, e) <==>
                || (n in Declared(services[..at]) && Edge(Depends(services), n, e))
                || (n == s.name && e in s.dependsOn[..j + 1])
    {
      assert n in Listed(after, e) <==> n in Listed(dependents, e) || (n == s.name && e == d);
    }
  }

  lemma NotYet(services: seq<Service>, at: nat)
    requires Unique(services) && at < |services|
    ensures services[at].name !in Declared(services[..at])
  {
  }

  lemma NextService(services: seq<Service>, dependents: map<string, seq<string>>, at: nat)
    requires Unique(services) && at < |services| && ReversedUpTo(services, dependents, at, |services[at].dependsOn|)
    ensures ReversedUpTo(services, dependents, at + 1, 0)
  {
    Prefix(services, at);
    var s := services[at];
    assert s.dependsOn[..|s.dependsOn|] == s.dependsOn;
    assert Depends(services)[s.name] == s.dependsOn;
  }

  /** The dependency counts of the first `upto` services. */
  ghost predicate CountedUpTo(services: seq<Service>, counts: map<string, Int>, upto: nat)
    requires upto <= |services|
  {
    && counts.Keys == Declared(services[..upto])
    && forall k :: 0 <= k < upto ==>
        services[k].name in counts && counts[services[k].name] as int == |services[k].dependsOn|
  }

  lemma DeclaredCount(services: seq<Service>)
    requires forall s :: s in services ==> ServiceOk(s)
    ensures |Declared(services)| <= Instances(services)
  {
    TotalsGrow(services, 0);
    DeclaredBound(services);
  }

  lemma {:induction false} DeclaredBound(services: seq<Service>)
    ensures |Declared(services)| <= |services|
  {
    if services == [] {
      assert Declared(services) == {};
    } else {
      var n := |services| - 1;
      DeclaredBound(services[..n]);
      assert services[..n + 1] == services;
      Prefix(services, n);
    }
  }

  /** A duplicate-free list of declared names is short. */
  lemma LinksShort(services: seq<Service>, s: Service)
    requires Accepted(services) && LinksOk(services, s)
    ensures |s.dependsOn| <= MAX_NODES / 2
  {
    DeclaredCount(services);
    DistinctBound(s.dependsOn, Declared(services));
  }

  method LinkServices(services: seq<Service>, seen: set<string>)
    returns (ok: bool, counts: map<string, Int>, dependents: map<string, seq<string>>)
    requires Accepted(services) && seen == Declared(services)
    ensures ok <==> LinkedOk(services, |services|)
    ensures ok ==> CountedUpTo(services, counts, |services|) && ReversedUpTo(services, dependents, |services|, 0)
  {
    ok, counts, dependents := false, map[], map[];
    var edges: Int := 0;
    var i := 0;
    while i < |services|
      invariant 0 <= i <= |services| && LinkedOk(services, i)
      invariant 0 <= edges <= EDGES && edges as int == Edges(services[..i])
      invariant CountedUpTo(services, counts, i) && ReversedUpTo(services, dependents, i, 0)
    {
      var service := services[i];
      var links := CheckLinks(services, service, seen);
      if !links { return; }
      LinksShort(services, service);
      assert ServiceOk(service);
      var fits, sum := SpendEdges(|service.dependsOn| as Int, service.instances, edges);
      if !fits {
        TooManyEdges(services, i);
        return;
      }
      edges := sum;
      LinkNext(services, i);
      CountNext(services, counts, i);
      counts := counts[service.name := |service.dependsOn| as Int];
      dependents := Append(services, i, service, dependents);
      NextService(services, dependents, i);
      i := i + 1;
    }
    assert services[..i] == services;
    ok := true;
  }

  /** The edge budget, with its division guard. */
  method SpendEdges(n: Int, instances: Int, edges: Int) returns (ok: bool, sum: Int)
    requires 0 <= edges <= EDGES && n >= 0 && instances >= 1
    ensures ok <==> edges as int + n as int * instances as int <= MAX_EDGES
    ensures ok ==> sum as int == edges as int + n as int * instances as int && 0 <= sum <= EDGES
  {
    DivisionGuard(n as int, instances as int, EDGES as int - edges as int);
    Product(n as int, instances as int);
    if n > (EDGES - edges) / instances { return false, edges; }
    return true, edges + n * instances;
  }

  lemma TooManyEdges(services: seq<Service>, i: nat)
    requires i < |services| && (forall s :: s in services ==> ServiceOk(s))
    requires Edges(services[..i]) + |services[i].dependsOn| * services[i].instances as int > MAX_EDGES
    ensures !LinkedOk(services, |services|)
  {
    Prefix(services, i);
    TotalsGrow(services, i + 1);
    assert services[..|services|] == services;
  }

  lemma LinkNext(services: seq<Service>, i: nat)
    requires i < |services| && LinkedOk(services, i) && LinksOk(services, services[i])
    requires Edges(services[..i]) + |services[i].dependsOn| * services[i].instances as int <= MAX_EDGES
    ensures LinkedOk(services, i + 1)
    ensures Edges(services[..i + 1]) == Edges(services[..i]) + |services[i].dependsOn| * services[i].instances as int
  {
    Prefix(services, i);
  }

  lemma DeclaredNext(services: seq<Service>, i: nat)
    requires i < |services|
    ensures Declared(services[..i + 1]) == Declared(services[..i]) + {services[i].name}
  {
    assert services[..i + 1] == services[..i] + [services[i]];
    assert services[i] in services[..i + 1];
    assert forall s :: s in services[..i] ==> s in services[..i + 1];
  }

  lemma CountNext(services: seq<Service>, counts: map<string, Int>, i: nat)
    requires i < |services| && Unique(services) && CountedUpTo(services, counts, i)
    requires |services[i].dependsOn| <= MAX_INT
    ensures CountedUpTo(services, counts[services[i].name := |services[i].dependsOn| as Int], i + 1)
  {
    DeclaredNext(services, i);
  }

  // ----- third loop: what is ready ---------------------------------------------------------------------

  method FirstReady(services: seq<Service>, counts: map<string, Int>) returns (ready: seq<string>)
    requires Unique(services) && counts.Keys == Declared(services)
    ensures NoDuplicates(ready)
    ensures forall n :: n in ready <==> n in counts && counts[n] == 0
  {
    ready := [];
    var i := 0;
    while i < |services|
      invariant 0 <= i <= |services| && NoDuplicates(ready)
      invariant forall n :: n in ready <==> n in Declared(services[..i]) && n in counts && counts[n] == 0
    {
      Prefix(services, i);
      NotYet(services, i);
      assert services[i] in services;
      if counts[services[i].name] == 0 { ready := ready + [services[i].name]; }
      i := i + 1;
    }
    assert services[..i] == services;
  }

  // ----- the worklist on the declared relation ------------------------------------------------------------

  lemma RelationReady(services: seq<Service>, counts: map<string, Int>, dependents: map<string, seq<string>>,
                      ready: seq<string>)
    requires Unique(services) && LinkedOk(services, |services|)
    requires CountedUpTo(services, counts, |services|) && ReversedUpTo(services, dependents, |services|, 0)
    requires NoDuplicates(ready) && forall n :: n in ready <==> n in counts && counts[n] == 0
    ensures var g := Depends(services);
            Linked(g) && Reversed(g, dependents) && Work(g, [], ready, counts) && counts.Keys == g.Keys
  {
    var g := Depends(services);
    assert services[..|services|] == services;
    DependsKeys(services);
    forall n | n in g
      ensures NoDuplicates(g[n]) && (forall d :: d in g[n] ==> d in g && d != n)
                && counts[n] as int == Missing(g[n], [])
    {
      var k := DependsAt(services, n);
      assert LinksOk(services, services[k]);
      MissingNone(g[n], []);
    }
  }

  lemma DependsKeys(services: seq<Service>)
    requires Unique(services)
    ensures Depends(services).Keys == Declared(services)
  {
    forall n | n in Declared(services) ensures n in Depends(services) {
      var s :| s in services && s.name == n;
    }
  }

  lemma DependsAt(services: seq<Service>, n: string) returns (k: nat)
    requires Unique(services) && n in Depends(services)
    ensures k < |services| && services[k].name == n && Depends(services)[n] == services[k].dependsOn
  {
    k :| 0 <= k < |services| && services[k].name == n;
  }

  method CheckCycles(services: seq<Service>, counts: map<string, Int>, dependents: map<string, seq<string>>)
    returns (ok: bool)
    requires Unique(services) && LinkedOk(services, |services|)
    requires CountedUpTo(services, counts, |services|) && ReversedUpTo(services, dependents, |services|, 0)
    ensures ok <==> Acyclic(Depends(services))
  {
    assert services[..|services|] == services;
    var ready := FirstReady(services, counts);
    RelationReady(services, counts, dependents, ready);
    var left := Drain(Depends(services), counts, dependents, ready);
    ok := forall n :: n in left ==> left[n] == 0;
  }

  // ----- hosts ----------------------------------------------------------------------------------------------

  method CountRuntimes(services: seq<Service>) returns (runtimes: Int)
    ensures runtimes as int == Runtimes(services) && 0 <= runtimes <= 2
  {
    var firecracker, process := false, false;
    var i := 0;
    while i < |services|
      invariant 0 <= i <= |services|
      invariant firecracker <==> Needs(services[..i], Firecracker)
      invariant process <==> Needs(services[..i], Process)
    {
      assert services[..i + 1] == services[..i] + [services[i]];
      NeedsNext(services, i, Firecracker);
      NeedsNext(services, i, Process);
      firecracker := firecracker || services[i].isolation == Firecracker;
      process := process || services[i].isolation == Process;
      i := i + 1;
    }
    assert services[..i] == services;
    runtimes := 0;
    if firecracker { runtimes := runtimes + 1; }
    if process { runtimes := runtimes + 1; }
  }

  lemma NeedsNext(services: seq<Service>, i: nat, isolation: Isolation)
    requires i < |services|
    ensures Needs(services[..i + 1], isolation) <==>
              Needs(services[..i], isolation) || services[i].isolation == isolation
  {
    if Needs(services[..i], isolation) {
      var k :| 0 <= k < i && services[..i][k].isolation == isolation;
      assert services[..i + 1][k].isolation == isolation;
    }
    if services[i].isolation == isolation { assert services[..i + 1][i].isolation == isolation; }
    if Needs(services[..i + 1], isolation) && services[i].isolation != isolation {
      var k :| 0 <= k < i + 1 && services[..i + 1][k].isolation == isolation;
      assert services[..i][k].isolation == isolation;
    }
  }

  ghost predicate HostFits(h: Host, runtimes: int, total: int, guest: int) {
    && h.count as int * h.memory as int <= MAX_INT
    && 1 + h.count as int * (1 + runtimes) + 2 * total <= MAX_NODES
    && guest <= Available(h)
  }

  /** The closing checks; no product or sum in them leaves the machine range. */
  method CheckHost(h: Host, runtimes: Int, total: Int, guest: Int) returns (ok: bool)
    requires HostOk(h) && 0 <= runtimes <= 2 && 0 <= total <= NODES / 2 && guest >= 0
    ensures ok <==> HostFits(h, runtimes as int, total as int, guest as int)
  {
    HostBounds(h, runtimes as int);
    if h.count > NODES { return false; }
    if h.memory > MAX / h.count || h.reserve > MAX / h.count { return false; }
    var available := h.count * (h.memory - h.reserve);
    if 1 + h.count * (1 + runtimes) + 2 * total > NODES { return false; }
    if guest > available { return false; }
    ok := true;
  }

  lemma HostBounds(h: Host, runtimes: int)
    requires HostOk(h) && 0 <= runtimes <= 2
    ensures h.memory as int > MAX_INT / h.count as int <==> h.count as int * h.memory as int > MAX_INT
    ensures h.reserve as int > MAX_INT / h.count as int ==> h.count as int * h.memory as int > MAX_INT
    ensures 0 <= Available(h) <= h.count as int * h.memory as int
    ensures h.count as int <= h.count as int * (1 + runtimes) <= 3 * h.count as int
  {
    DivisionGuard(h.memory as int, h.count as int, MAX_INT);
    DivisionGuard(h.reserve as int, h.count as int, MAX_INT);
    Product(h.count as int, h.reserve as int);
    Product(h.count as int, h.memory as int - h.reserve as int);
    Product(h.count as int, h.memory as int - h.reserve as int);
  }

  /** Validate decides exactly the contract over unbounded integers, and never overflows on the way. */
  method Validate(s: System) returns (ok: bool)
    ensures ok <==> ValidSystem(s)
  {
    ok := CheckHeader(s.header);
    if !ok { return; }
    if s.host.count < 1 || s.host.memory < 1 || s.host.reserve < 0 || s.host.reserve >= s.host.memory { return false; }
    if |s.services| == 0 { return false; }
    ValidFits(s);
    var seen, total, guest, counts, dependents;
    ok, seen, total, guest := CheckServices(s.services);
    if !ok { return; }
    ok, counts, dependents := LinkServices(s.services, seen);
    if !ok { return; }
    ok := CheckCycles(s.services, counts, dependents);
    if !ok { return; }
    var runtimes := CountRuntimes(s.services);
    ok := CheckHost(s.host, runtimes, total, guest);
  }

  /** The intermediate checks ask nothing that the contract does not imply. */
  lemma ValidFits(s: System)
    requires HostOk(s.host) && HeaderOk(s.header) && s.services != []
    ensures ValidSystem(s) <==>
              && Accepted(s.services) && LinkedOk(s.services, |s.services|) && Acyclic(Depends(s.services))
              && HostFits(s.host, Runtimes(s.services), Instances(s.services), GuestMemory(s.services))
  {
    assert s.services[..|s.services|] == s.services;
    HostBounds(s.host, Runtimes(s.services));
    assert (forall t :: t in s.services ==> LinksOk(s.services, t)) <==>
        forall k :: 0 <= k < |s.services| ==> LinksOk(s.services, s.services[k]);
  }
}
