/**
 CompileSystem: hosts, runtimes and service instances expanded into a graph of
 nodes that name one another.
 */
module SystemGraph {
  import opened Base
  import opened Dependencies
  import opened SystemHeader
  import opened SystemSpec
  import opened SystemValidate
  import opened GraphIds
  import opened Sorting

  datatype GraphNode = GraphNode(id: Id, kind: string, dependsOn: seq<Id>, placement: Option<Id>, vcpu: Int,
                                 memory: Int,
                                 properties: map<string, string>)

  datatype Invariant = Invariant(kind: string, subject: Id, value: string)

  datatype Capacity = Capacity(hosts: Int, reserve: Int, guest: Int, unallocated: Int)

  datatype Graph = Graph(nodes: seq<GraphNode>, invariants: seq<Invariant>, capacity: Capacity)

  // ----- which nodes there are, and what each one says ---------------------------------------------

  function RuntimeOf(isolation: Isolation, host: nat): Id {
    if isolation == Process then ProcessRuntime(host) else FirecrackerRuntime(host)
  }

  function WorkloadOf(s: Service, instance: nat): Id {
    if s.isolation == Process then ProcessInstance(s.name, instance) else MicroVm(s.name, instance)
  }

  function ServiceLinks(s: Service, instance: nat): seq<Id> {
    [WorkloadOf(s, instance), Namespace] + seq(|s.dependsOn|,
        i requires 0 <= i < |s.dependsOn| => ServiceNode(s.dependsOn[i], 1))
  }

  /** Instances are dealt to the hosts in turn. */
  function HostOf(ordinal: int, count: int): int
    requires count > 0
  {
    ordinal % count + 1
  }

  function Printed(n: Int): string {
    if n < 0 then "-" + Decimal(-(n as int)) else Decimal(n as int)
  }

  function IsolationName(isolation: Isolation): string {
    match isolation
    case Firecracker => "firecracker"
    case Process => "process"
    case Unsupported => ""
  }

  function Upper(s: string): string {
    if s == "" then ""
    else
      var c := s[0];
      [if 'a' <= c <= 'z' then 'A' + (c - 'a') else
          if 'A' <= c <= 'Z' || '0' <= c <= '9' then c else '_'] + Upper(s[1..])
  }

  /** ServiceBindingName: the variable through which an application finds a managed service. */
  function Binding(name: string): string {
    "CANTER_SERVICE_" + Upper(name) + "_URL"
  }

  function Endpoint(s: Service): string {
    s.protocol + ":" + Printed(s.port)
  }

  function NamespaceNode(h: Header): GraphNode {
    GraphNode(Namespace, "m1.namespace", [], None, 0, 0, map["prefix" := h.prefix])
  }

  function HostNode(s: System, i: nat): GraphNode {
    GraphNode(HostId(i), "compute.host", [], None, 0, 0,
        map["class" := s.header.computeClass, "memoryMiB" := Printed(s.host.memory)])
  }

  function RuntimeNode(isolation: Isolation, i: nat): GraphNode {
    GraphNode(RuntimeOf(isolation, i), if isolation == Process then "runtime.process" else "runtime.firecracker",
              [HostId(i)], Some(HostId(i)), 0, 0, map[])
  }

  function WorkloadNode(s: Service, instance: nat, host: nat): GraphNode {
    GraphNode(WorkloadOf(s, instance), if s.isolation == Process then "runtime.process-instance" else "runtime.microvm",
              [RuntimeOf(s.isolation, host)], Some(HostId(host)), s.vcpu, s.memory,
                  map["isolation" := IsolationName(s.isolation)])
  }

  function EndpointProperties(s: Service): map<string, string> {
    map["readiness" := Endpoint(s), "networking" := s.networking] + (if s.kind == "database" then
        map["binding" := Binding(s.name)] else map[])
  }

  function EndpointNode(s: Service, instance: nat): GraphNode {
    GraphNode(ServiceNode(s.name, instance), s.kind + "." + s.engine, ServiceLinks(s, instance),
        Some(WorkloadOf(s, instance)), 0, 0,
              EndpointProperties(s))
  }

  // ----- the invariants to hold at run time ---------------------------------------------------------------

  function HostInvariants(s: System, upto: nat): seq<Invariant> {
    if upto == 0 then []
    else HostInvariants(s, upto - 1) + (if Needs(s.services, Firecracker) then
        [Invariant("host.capability", HostId(upto), "kvm")] else [])
  }

  function InstanceInvariants(s: Service, n: nat): seq<Invariant> {
    [Invariant("resource.memory", WorkloadOf(s, n), Printed(s.memory) + "MiB"),
        Invariant("service.ready", ServiceNode(s.name, n), Endpoint(s))]
  }

  function ServiceInvariants(s: Service, upto: nat): seq<Invariant> {
    if upto == 0 then [] else ServiceInvariants(s, upto - 1) + InstanceInvariants(s, upto)
  }

  function AllInvariants(services: seq<Service>): seq<Invariant> {
    if services == [] then []
    else
      var last := services[|services| - 1];
      AllInvariants(services[..|services| - 1]) + ServiceInvariants(last, if last.instances < 0 then
          0 else last.instances as nat)
  }

  function InvariantsOf(s: System): seq<Invariant> {
    HostInvariants(s, if s.host.count < 0 then 0 else s.host.count as nat) + AllInvariants(s.services)
  }

  /** How many instances come before this one. */
  function Ordinal(services: seq<Service>, j: nat, instance: int): int
    requires j <= |services|
  {
    Instances(services[..j]) + instance - 1
  }

  ghost predicate HostPart(s: System, i: nat, node: GraphNode) {
    && 1 <= i <= s.host.count as int
    && (|| node == HostNode(s, i)
        || (Needs(s.services, Firecracker) && node == RuntimeNode(Firecracker, i))
        || (Needs(s.services, Process) && node == RuntimeNode(Process, i)))
  }

  ghost predicate InstancePart(s: System, j: nat, n: nat, node: GraphNode) {
    && s.host.count > 0 && j < |s.services| && 1 <= n <= s.services[j].instances as int
    && (|| node == WorkloadNode(s.services[j], n, HostOf(Ordinal(s.services, j, n), s.host.count as int))
        || node == EndpointNode(s.services[j], n))
  }

  /** The node is one that the contract calls for, with exactly the links it should have. */
  ghost predicate Genuine(s: System, node: GraphNode) {
    || node == NamespaceNode(s.header)
    || (exists i :: HostPart(s, i, node))
    || (exists j, n :: InstancePart(s, j, n, node))
  }

  /** Identifiers of the first `upto` hosts. */
  predicate HostHas(s: System, upto: int, id: Id) {
    match id
    case Namespace => true
    case HostId(i) => 1 <= i <= upto
    case FirecrackerRuntime(i) => Needs(s.services, Firecracker) && 1 <= i <= upto
    case ProcessRuntime(i) => Needs(s.services, Process) && 1 <= i <= upto
    case _ => false
  }

  /** Identifiers of the first `upto` instances of one service. */
  predicate Belongs(s: Service, upto: int, id: Id) {
    match id
    case MicroVm(name, n) => s.isolation != Process && name == s.name && 1 <= n <= upto
    case ProcessInstance(name, n) => s.isolation == Process && name == s.name && 1 <= n <= upto
    case ServiceNode(name, n) => name == s.name && 1 <= n <= upto
    case _ => false
  }

  ghost predicate DealtBefore(services: seq<Service>, k: nat, id: Id)
    requires k <= |services|
  {
    exists j :: 0 <= j < k && Belongs(services[j], services[j].instances as int, id)
  }

  /** The identifiers of the whole graph. */
  ghost predicate Has(s: System, id: Id) {
    HostHas(s, s.host.count as int, id) || DealtBefore(s.services, |s.services|, id)
  }

  // ----- building the list -----------------------------------------------------------------------------

  ghost predicate UniqueIds(nodes: seq<GraphNode>) {
    forall i, j :: 0 <= i < j < |nodes| ==> nodes[i].id != nodes[j].id
  }

  ghost predicate Contains(nodes: seq<GraphNode>, id: Id) {
    exists i :: 0 <= i < |nodes| && nodes[i].id == id
  }

  ghost predicate Wellmade(s: System, nodes: seq<GraphNode>) {
    UniqueIds(nodes) && forall i :: 0 <= i < |nodes| ==> Genuine(s, nodes[i])
  }

  lemma AppendNode(s: System, nodes: seq<GraphNode>, node: GraphNode)
    requires Wellmade(s, nodes) && Genuine(s, node) && !Contains(nodes, node.id)
    ensures Wellmade(s, nodes + [node])
    ensures forall id :: Contains(nodes + [node], id) <==> Contains(nodes, id) || id == node.id
  {
    var r := nodes + [node];
    forall id ensures Contains(r, id) <==> Contains(nodes, id) || id == node.id {
      if Contains(nodes, id) {
        var i :| 0 <= i < |nodes| && nodes[i].id == id;
        assert r[i].id == id;
      }
      if id == node.id { assert r[|nodes|].id == id; }
      if Contains(r, id) && id != node.id {
        var i :| 0 <= i < |r| && r[i].id == id;
        assert nodes[i].id == id;
      }
    }
    forall i | 0 <= i < |nodes| ensures r[i].id != node.id {
      assert nodes[i].id == r[i].id;
    }
  }

  /** The list holds exactly the nodes of the first `upto` hosts. */
  ghost predicate HostsMade(s: System, nodes: seq<GraphNode>, upto: int) {
    && Wellmade(s, nodes) && (forall id :: Contains(nodes, id) <==> HostHas(s, upto, id))
    && |nodes| == 1 + upto * (1 + Runtimes(s.services))
  }

  /** What an appended node of a host adds to the list. */
  lemma AppendPart(s: System, nodes: seq<GraphNode>, i: nat, node: GraphNode)
    requires Wellmade(s, nodes) && HostPart(s, i, node) && !Contains(nodes, node.id)
    ensures Wellmade(s, nodes + [node]) && forall id ::
              Contains(nodes + [node], id) <==> Contains(nodes, id) || id == node.id
  {
    AppendNode(s, nodes, node);
  }

  /** The identifiers that one host adds. */
  predicate HostAdds(s: System, i: nat, id: Id) {
    id == HostId(i) || (Needs(s.services, Firecracker) && id == FirecrackerRuntime(i))
        || (Needs(s.services, Process) && id == ProcessRuntime(i))
  }

  lemma HostStep(s: System, i: nat, id: Id)
    requires i >= 1
    ensures HostHas(s, i, id) <==> HostHas(s, i - 1, id) || HostAdds(s, i, id)
    ensures HostAdds(s, i, id) ==> !HostHas(s, i - 1, id)
  {
  }

  method AddHost(s: System, before: seq<GraphNode>, was: seq<Invariant>, host: nat)
    returns (nodes: seq<GraphNode>, invariants: seq<Invariant>)
    requires 1 <= host <= s.host.count as int && Wellmade(s, before)
              && forall id :: HostAdds(s, host, id) ==> !Contains(before, id)
    requires was == HostInvariants(s, host - 1)
    ensures Wellmade(s, nodes) && |nodes| == |before| + 1 + Runtimes(s.services)
              && invariants == HostInvariants(s, host)
    ensures forall id :: Contains(nodes, id) <==> Contains(before, id) || HostAdds(s, host, id)
  {
    invariants := was;
    AppendPart(s, before, host, HostNode(s, host));
    nodes := before + [HostNode(s, host)];
    if Needs(s.services, Firecracker) {
      AppendPart(s, nodes, host, RuntimeNode(Firecracker, host));
      nodes := nodes + [RuntimeNode(Firecracker, host)];
      invariants := invariants + [Invariant("host.capability", HostId(host), "kvm")];
    }
    if Needs(s.services, Process) {
      AppendPart(s, nodes, host, RuntimeNode(Process, host));
      nodes := nodes + [RuntimeNode(Process, host)];
    }
  }

  method MakeHost(s: System, before: seq<GraphNode>, was: seq<Invariant>, i: Int)
    returns (nodes: seq<GraphNode>, invariants: seq<Invariant>)
    requires 1 <= i <= s.host.count && HostsMade(s, before, i as int - 1) && was == HostInvariants(s, i as int - 1)
    ensures HostsMade(s, nodes, i as int) && invariants == HostInvariants(s, i as int)
  {
    var host: nat, last: nat := i as int, i as int - 1;
    forall id ensures (HostHas(s, host, id) <==> HostHas(s, last, id) || HostAdds(s, host, id))
        && (HostAdds(s, host, id) ==> !HostHas(s, last, id)) {
      HostStep(s, host, id);
    }
    nodes, invariants := AddHost(s, before, was, host);
    OneMore(i as int, 1 + Runtimes(s.services));
  }

  lemma OneMore(i: int, r: int)
    ensures i * r == (i - 1) * r + r
  {
  }

  method MakeHosts(s: System) returns (nodes: seq<GraphNode>, invariants: seq<Invariant>)
    requires 1 <= s.host.count < MAX
    ensures HostsMade(s, nodes, s.host.count as int) && invariants == HostInvariants(s, s.host.count as int)
  {
    assert Genuine(s, NamespaceNode(s.header));
    AppendNode(s, [], NamespaceNode(s.header));
    nodes, invariants := [] + [NamespaceNode(s.header)], [];
    var i: Int := 1;
    while i <= s.host.count
      invariant 1 <= i <= s.host.count + 1 && HostsMade(s, nodes, i as int - 1)
                && invariants == HostInvariants(s, i as int - 1)
    {
      nodes, invariants := MakeHost(s, nodes, invariants, i);
      i := i + 1;
    }
  }

  /** Everything up to instance `m` of service `k`. */
  ghost predicate Dealt(s: System, nodes: seq<GraphNode>, k: nat, m: int)
    requires k <= |s.services|
  {
    && Wellmade(s, nodes)
    && (forall id :: Contains(nodes, id) <==>
          || HostHas(s, s.host.count as int, id)
          || DealtBefore(s.services, k, id)
          || (k < |s.services| && Belongs(s.services[k], m, id)))
    && |nodes| == 1 + s.host.count as int * (1 + Runtimes(s.services)) + 2 * (Instances(s.services[..k]) + m)
  }

  lemma FreshInstance(s: System, nodes: seq<GraphNode>, k: nat, n: nat)
    requires Unique(s.services) && k < |s.services| && n >= 1 && Dealt(s, nodes, k, n - 1)
    ensures !Contains(nodes, WorkloadOf(s.services[k], n)) && !Contains(nodes, ServiceNode(s.services[k].name, n))
  {
    forall j | 0 <= j < k ensures s.services[j].name != s.services[k].name {}
  }

  method MakeInstance(s: System, before: seq<GraphNode>, k: nat, n: Int, hostIndex: Int) returns (nodes: seq<GraphNode>)
    requires Unique(s.services) && k < |s.services| && 1 <= n <= s.services[k].instances && s.host.count >= 1
    requires Dealt(s, before, k, n as int - 1)
              && hostIndex as int == HostOf(Ordinal(s.services, k, n as int), s.host.count as int)
    requires hostIndex >= 0
    ensures Dealt(s, nodes, k, n as int)
  {
    var service, instance := s.services[k], n as nat;
    var workload := WorkloadNode(service, instance, hostIndex as nat);
    FreshInstance(s, before, k, instance);
    assert InstancePart(s, k, instance, workload);
    AppendNode(s, before, workload);
    nodes := before + [workload];
    assert InstancePart(s, k, instance, EndpointNode(service, instance));
    AppendNode(s, nodes, EndpointNode(service, instance));
    nodes := nodes + [EndpointNode(service, instance)];
  }

  lemma NextHost(ordinal: int, count: int)
    requires ordinal >= 0 && count >= 1
    ensures HostOf(ordinal, count) % count + 1 == HostOf(ordinal + 1, count)
    ensures 1 <= HostOf(ordinal, count) <= count
  {
    var q, r := ordinal / count, ordinal % count;
    if r == count - 1 {
      assert ordinal + 1 == (q + 1) * count;
      Remainder(ordinal + 1, count, q + 1, 0);
      assert count % count == 0;
    } else {
      Remainder(ordinal + 1, count, q, r + 1);
      Remainder(r + 1, count, 0, r + 1);
    }
  }

  lemma Remainder(x: int, d: int, q: int, r: int)
    requires d > 0 && 0 <= r < d && x == q * d + r
    ensures x % d == r && x / d == q
  {
    var k := q - x / d;
    assert k * d == x % d - r;
    assert k >= 1 ==> k * d >= d;
    assert k <= -1 ==> k * d <= -d;
  }

  method DealNext(s: System, before: seq<GraphNode>, k: nat, n: Int, host: Int)
    returns (nodes: seq<GraphNode>, hostIndex: Int)
    requires Accepted(s.services) && k < |s.services| && 1 <= n <= s.services[k].instances && s.host.count >= 1
    requires Dealt(s, before, k, n as int - 1)
              && host as int == HostOf(Ordinal(s.services, k, n as int), s.host.count as int)
    ensures Dealt(s, nodes, k, n as int) && hostIndex as int ==
              HostOf(Ordinal(s.services, k, n as int + 1), s.host.count as int)
  {
    TotalsGrow(s.services, k);
    NextHost(Ordinal(s.services, k, n as int), s.host.count as int);
    nodes := MakeInstance(s, before, k, n, host);
    hostIndex := host % s.host.count + 1;
  }

  /** The inner loop over one service's instances. */
  method MakeService(s: System, before: seq<GraphNode>, was: seq<Invariant>, k: nat, firstHost: Int, guestBefore: Int)
    returns (nodes: seq<GraphNode>, invariants: seq<Invariant>, hostIndex: Int, guest: Int)
    requires Accepted(s.services) && k < |s.services| && s.host.count >= 1 && Dealt(s, before, k, 0)
    requires firstHost as int == HostOf(Instances(s.services[..k]), s.host.count as int) && 0 <= guestBefore
    requires guestBefore as int == GuestMemory(s.services[..k])
    ensures s.services[k].instances >= 1 && Dealt(s, nodes, k, s.services[k].instances as int)
    ensures invariants == was + ServiceInvariants(s.services[k], s.services[k].instances as int)
    ensures hostIndex as int == HostOf(Instances(s.services[..k]) + s.services[k].instances as int, s.host.count as int)
    ensures guest as int == GuestMemory(s.services[..k]) + s.services[k].instances as int * s.services[k].memory as int
  {
    var service := s.services[k];
    assert ServiceOk(service);
    NextTotals(s.services, k);
    nodes, invariants, hostIndex, guest := before, was, firstHost, guestBefore;
    var n: Int := 1;
    while n <= service.instances
      invariant 1 <= n <= service.instances + 1 && Dealt(s, nodes, k, n as int - 1)
      invariant hostIndex as int == HostOf(Ordinal(s.services, k, n as int), s.host.count as int)
      invariant guest as int == GuestMemory(s.services[..k]) + (n as int - 1) * service.memory as int
      invariant invariants == was + ServiceInvariants(service, n as int - 1)
    {
      NextInstance(was, service, n as int);
      Times(n as int, service.instances as int, service.memory as int);
      nodes, hostIndex := DealNext(s, nodes, k, n, hostIndex);
      invariants := invariants + InstanceInvariants(service, n as int);
      guest := guest + service.memory;
      n := n + 1;
    }
  }

  lemma Times(n: int, limit: int, m: int)
    requires 1 <= n <= limit && m >= 1
    ensures 0 <= (n - 1) * m && n * m == (n - 1) * m + m <= limit * m
  {
    assert limit * m == n * m + (limit - n) * m;
  }

  lemma NextDealt(s: System, nodes: seq<GraphNode>, k: nat)
    requires k < |s.services| && Dealt(s, nodes, k, s.services[k].instances as int)
    ensures Dealt(s, nodes, k + 1, 0)
  {
    Prefix(s.services, k);
    forall id ensures DealtBefore(s.services, k + 1, id) <==>
                        DealtBefore(s.services, k, id) || Belongs(s.services[k], s.services[k].instances as int, id) {}
    assert forall t: Service, id :: !Belongs(t, 0, id);
  }

  lemma NextInvariants(was: seq<Invariant>, services: seq<Service>, k: nat)
    requires k < |services|
    ensures was + AllInvariants(services[..k + 1]) ==
              was + AllInvariants(services[..k]) + ServiceInvariants(services[k], if services[k].instances < 0 then
                  0 else services[k].instances as nat)
  {
    assert services[..k + 1][..k] == services[..k];
  }

  lemma NextInstance(was: seq<Invariant>, service: Service, n: nat)
    requires n >= 1
    ensures was + ServiceInvariants(service, n) ==
              was + ServiceInvariants(service, n - 1) + InstanceInvariants(service, n)
  {
  }

  /** One turn of the loop over services. */
  method MakeNext(s: System, before: seq<GraphNode>, ghost was: seq<Invariant>, so: seq<Invariant>, k: nat,
                  firstHost: Int, guestBefore: Int)
    returns (nodes: seq<GraphNode>, invariants: seq<Invariant>, hostIndex: Int, guest: Int)
    requires Accepted(s.services) && k < |s.services| && s.host.count >= 1 && Dealt(s, before, k, 0)
    requires firstHost as int == HostOf(Instances(s.services[..k]), s.host.count as int) && 0 <= guestBefore
    requires guestBefore as int == GuestMemory(s.services[..k]) && so == was + AllInvariants(s.services[..k])
    ensures Dealt(s, nodes, k + 1, 0) && hostIndex as int == HostOf(Instances(s.services[..k + 1]), s.host.count as int)
    ensures guest >= 0 && guest as int == GuestMemory(s.services[..k + 1])
              && invariants == was + AllInvariants(s.services[..k + 1])
  {
    NextInvariants(was, s.services, k);
    nodes, invariants, hostIndex, guest := MakeService(s, before, so, k, firstHost, guestBefore);
    NextDealt(s, nodes, k);
    NextTotals(s.services, k);
  }

  /** The loop over services, starting from the finished hosts. */
  method MakeServices(s: System, hosts: seq<GraphNode>, was: seq<Invariant>)
    returns (nodes: seq<GraphNode>, invariants: seq<Invariant>, guest: Int)
    requires Accepted(s.services) && s.host.count >= 1 && HostsMade(s, hosts, s.host.count as int)
    ensures Dealt(s, nodes, |s.services|, 0) && guest as int == GuestMemory(s.services)
    ensures invariants == was + AllInvariants(s.services)
  {
    nodes, invariants, guest := hosts, was, 0;
    var hostIndex: Int := 1;
    assert forall t: Service, id :: !Belongs(t, 0, id);
    Remainder(0, s.host.count as int, 0, 0);
    var k := 0;
    while k < |s.services|
      invariant 0 <= k <= |s.services| && Dealt(s, nodes, k, 0)
      invariant hostIndex as int == HostOf(Instances(s.services[..k]), s.host.count as int)
      invariant guest >= 0 && guest as int == GuestMemory(s.services[..k])
                && invariants == was + AllInvariants(s.services[..k])
    {
      nodes, invariants, hostIndex, guest := MakeNext(s, nodes, was, invariants, k, hostIndex, guest);
      k := k + 1;
    }
    assert s.services[..k] == s.services;
  }

  // ----- sorting ------------------------------------------------------------------------------------------

  /** The order of the finished list. */
  predicate Precedes(a: GraphNode, b: GraphNode) {
    Before(Render(a.id), Render(b.id))
  }

  lemma NodesComparable(nodes: seq<GraphNode>)
    requires UniqueIds(nodes)
    ensures Transitive(Precedes) && Comparable(Precedes, nodes)
  {
    forall a, b, c | Precedes(a, b) && Precedes(b, c) ensures Precedes(a, c) {
      BeforeTransitive(Render(a.id), Render(b.id), Render(c.id));
    }
    forall i, j | 0 <= i < j < |nodes| ensures Precedes(nodes[i], nodes[j]) || Precedes(nodes[j], nodes[i]) {
      Distinguished(nodes[i], nodes[j]);
    }
  }

  lemma Distinguished(a: GraphNode, b: GraphNode)
    requires a.id != b.id
    ensures Precedes(a, b) || Precedes(b, a)
  {
    BeforeTotal(Render(a.id), Render(b.id));
    if Render(a.id) == Render(b.id) { RenderInjective(a.id, b.id); }
  }

  lemma OrderedUnique(nodes: seq<GraphNode>)
    requires Ordered(Precedes, nodes)
    ensures UniqueIds(nodes)
  {
    forall i, j | 0 <= i < j < |nodes| ensures nodes[i].id != nodes[j].id {
      assert Precedes(nodes[i], nodes[j]);
      Irreflexive(Render(nodes[i].id));
    }
  }

  // ----- the compiler -------------------------------------------------------------------------------------

  ghost predicate CapacityOk(h: Host, guest: int, c: Capacity) {
    && c.hosts as int == h.count as int * h.memory as int
    && c.reserve as int == h.count as int * h.reserve as int
    && c.guest as int == guest
    && c.hosts as int == c.reserve as int + c.guest as int + c.unallocated as int && c.unallocated >= 0
  }

  ghost predicate Compiled(s: System, g: Graph) {
    && Wellmade(s, g.nodes) && Ordered(Precedes, g.nodes) && |g.nodes| == NodeCount(s) <= MAX_NODES
    && (forall id :: Contains(g.nodes, id) <==> Has(s, id))
    && g.invariants == InvariantsOf(s) && CapacityOk(s.host, GuestMemory(s.services), g.capacity)
  }

  method Compile(s: System) returns (r: Option<Graph>)
    ensures r.Some? <==> ValidSystem(s)
    ensures r.Some? ==> Compiled(s, r.value)
  {
    var ok := Validate(s);
    if !ok { return None; }
    ValidFits(s);
    HostBounds(s.host, Runtimes(s.services));
    TotalsGrow(s.services, 0);
    var hosts, capabilities := MakeHosts(s);
    var nodes, invariants, guest := MakeServices(s, hosts, capabilities);
    Finished(s, nodes);
    var capacity := MakeCapacity(s.host, guest);
    r := Some(Graph(Sort(Precedes, nodes), invariants, capacity));
  }

  method MakeCapacity(h: Host, guest: Int) returns (c: Capacity)
    requires HostOk(h) && h.count as int * h.memory as int <= MAX_INT && 0 <= guest as int <= Available(h)
    ensures CapacityOk(h, guest as int, c)
  {
    HostBounds(h, 0);
    Distributes(h.count as int, h.memory as int, h.reserve as int);
    var available := h.count * (h.memory - h.reserve);
    c := Capacity(h.count * h.memory, h.count * h.reserve, guest, available - guest);
  }

  lemma Distributes(a: int, b: int, c: int)
    requires a >= 0 && c >= 0
    ensures a * b == a * c + a * (b - c) && a * c >= 0
  {
  }

  /** The finished list before it is sorted. */
  lemma DealtAll(s: System, nodes: seq<GraphNode>)
    requires Dealt(s, nodes, |s.services|, 0)
    ensures Wellmade(s, nodes) && |nodes| == NodeCount(s) && forall id :: Contains(nodes, id) <==> Has(s, id)
  {
    assert s.services[..|s.services|] == s.services;
  }

  lemma SortedSame(s: System, nodes: seq<GraphNode>)
    requires Wellmade(s, nodes)
    ensures var r := Sort(Precedes, nodes);
            && Wellmade(s, r) && Ordered(Precedes, r) && |r| == |nodes|
            && forall id :: Contains(r, id) <==> Contains(nodes, id)
  {
    NodesComparable(nodes);
    SortOk(Precedes, nodes);
    OrderedUnique(Sort(Precedes, nodes));
    SameMembers(s, nodes, Sort(Precedes, nodes));
  }

  lemma Finished(s: System, nodes: seq<GraphNode>)
    requires Dealt(s, nodes, |s.services|, 0)
    ensures var r := Sort(Precedes, nodes);
            && Wellmade(s, r) && Ordered(Precedes, r) && |r| == NodeCount(s)
            && forall id :: Contains(r, id) <==> Has(s, id)
  {
    DealtAll(s, nodes);
    SortedSame(s, nodes);
  }

  lemma SameMembers(s: System, nodes: seq<GraphNode>, r: seq<GraphNode>)
    requires Wellmade(s, nodes) && UniqueIds(r) && forall y :: y in r <==> y in nodes
    ensures Wellmade(s, r) && forall id :: Contains(r, id) <==> Contains(nodes, id)
  {
    forall i | 0 <= i < |r| ensures Genuine(s, r[i]) { assert r[i] in r; }
    forall id ensures Contains(r, id) <==> Contains(nodes, id) {
      if Contains(r, id) { var i :| 0 <= i < |r| && r[i].id == id; assert r[i] in nodes; }
      if Contains(nodes, id) { var i :| 0 <= i < |nodes| && nodes[i].id == id; assert nodes[i] in r; }
    }
  }

  // ----- what the graph is good for -------------------------------------------------------------------------

  /** No two nodes share a rendered identifier. */
  lemma RenderedIdsAreUnique(s: System, g: Graph, i: nat, j: nat)
    requires Compiled(s, g) && i < j < |g.nodes|
    ensures Render(g.nodes[i].id) != Render(g.nodes[j].id)
  {
    if Render(g.nodes[i].id) == Render(g.nodes[j].id) { RenderInjective(g.nodes[i].id, g.nodes[j].id); }
  }

  lemma HostPartClosed(s: System, i: nat, node: GraphNode)
    requires HostPart(s, i, node)
    ensures forall d :: d in node.dependsOn ==> Has(s, d)
    ensures node.placement.Some? ==> Has(s, node.placement.value)
  {
  }

  lemma DeclaredHas(s: System, j: nat, n: nat)
    requires j < |s.services| && 1 <= n <= s.services[j].instances as int
    ensures Has(s, ServiceNode(s.services[j].name, n)) && Has(s, WorkloadOf(s.services[j], n))
  {
    assert Belongs(s.services[j], s.services[j].instances as int, ServiceNode(s.services[j].name, n));
    assert Belongs(s.services[j], s.services[j].instances as int, WorkloadOf(s.services[j], n));
  }

  lemma RuntimeHas(s: System, j: nat, host: nat)
    requires ServicesOk(s.services) && j < |s.services| && 1 <= host <= s.host.count as int
    ensures Has(s, RuntimeOf(s.services[j].isolation, host)) && Has(s, HostId(host))
  {
    assert ServiceOk(s.services[j]);
    assert Needs(s.services, s.services[j].isolation);
  }

  lemma LinksHave(s: System, j: nat, d: string)
    requires ServicesOk(s.services) && j < |s.services| && d in s.services[j].dependsOn
    ensures Has(s, ServiceNode(d, 1))
  {
    assert LinksOk(s.services, s.services[j]);
    assert d in Declared(s.services);
    var k :| 0 <= k < |s.services| && s.services[k].name == d;
    assert ServiceOk(s.services[k]);
    DeclaredHas(s, k, 1);
  }

  lemma EndpointClosed(s: System, j: nat, n: nat)
    requires ServicesOk(s.services) && j < |s.services| && 1 <= n <= s.services[j].instances as int
    ensures forall d :: d in ServiceLinks(s.services[j], n) ==> Has(s, d)
  {
    DeclaredHas(s, j, n);
    forall d | d in ServiceLinks(s.services[j], n) ensures Has(s, d) {
      if d.ServiceNode? { LinksHave(s, j, d.name); }
    }
  }

  lemma InstancePartClosed(s: System, j: nat, n: nat, node: GraphNode)
    requires ValidSystem(s) && InstancePart(s, j, n, node)
    ensures forall d :: d in node.dependsOn ==> Has(s, d)
    ensures node.placement.Some? ==> Has(s, node.placement.value)
  {
    DeclaredHas(s, j, n);
    if node == EndpointNode(s.services[j], n) {
      EndpointClosed(s, j, n);
    } else {
      TotalsGrow(s.services, j);
      NextHost(Ordinal(s.services, j, n), s.host.count as int);
      RuntimeHas(s, j, HostOf(Ordinal(s.services, j, n), s.host.count as int));
    }
  }

  /** Every dependency and every placement names a node of the graph. */
  lemma GraphIsClosed(s: System, g: Graph, i: nat)
    requires ValidSystem(s) && Compiled(s, g) && i < |g.nodes|
    ensures forall d :: d in g.nodes[i].dependsOn ==> Contains(g.nodes, d)
    ensures g.nodes[i].placement.Some? ==> Contains(g.nodes, g.nodes[i].placement.value)
  {
    var node := g.nodes[i];
    assert Genuine(s, node);
    if h :| HostPart(s, h, node) {
      HostPartClosed(s, h, node);
    } else if j, n :| InstancePart(s, j, n, node) {
      InstancePartClosed(s, j, n, node);
    }
  }

  ghost predicate GraphEdge(g: Graph, a: Id, b: Id) {
    exists i :: 0 <= i < |g.nodes| && g.nodes[i].id == a && b in g.nodes[i].dependsOn
  }

  ghost predicate GraphCycle(g: Graph, p: seq<Id>) {
    |p| >= 2 && p[0] == p[|p| - 1] && forall i :: 0 <= i < |p| - 1 ==> GraphEdge(g, p[i], p[i + 1])
  }

  function Level(id: Id): nat {
    match id
    case Namespace => 0
    case HostId(_) => 0
    case FirecrackerRuntime(_) => 1
    case ProcessRuntime(_) => 1
    case MicroVm(_, _) => 2
    case ProcessInstance(_, _) => 2
    case ServiceNode(_, _) => 3
  }

  predicate Follows(services: seq<Service>, a: Id, b: Id) {
    a.ServiceNode? && b.ServiceNode?
    && exists j :: 0 <= j < |services| && services[j].name == a.name && b.name in services[j].dependsOn
  }

  lemma HostEdge(s: System, i: nat, node: GraphNode, b: Id)
    requires HostPart(s, i, node) && b in node.dependsOn
    ensures Level(b) < Level(node.id)
  {
  }

  lemma InstanceEdge(s: System, j: nat, n: nat, node: GraphNode, b: Id)
    requires InstancePart(s, j, n, node) && b in node.dependsOn
    ensures Level(b) < Level(node.id) || Follows(s.services, node.id, b)
  {
    if node == EndpointNode(s.services[j], n) && b.ServiceNode? {
      assert b.name in s.services[j].dependsOn;
    }
  }

  /** An edge goes down a level, or follows a declared service dependency. */
  lemma EdgeDescends(s: System, g: Graph, a: Id, b: Id)
    requires Wellmade(s, g.nodes) && GraphEdge(g, a, b)
    ensures Level(b) < Level(a) || Follows(s.services, a, b)
  {
    var i :| 0 <= i < |g.nodes| && g.nodes[i].id == a && b in g.nodes[i].dependsOn;
    var node := g.nodes[i];
    assert Genuine(s, node);
    if j: nat, n: nat :| InstancePart(s, j, n, node) {
      InstanceEdge(s, j, n, node, b);
    } else {
      var h :| HostPart(s, h, node);
      HostEdge(s, h, node, b);
    }
  }

  lemma {:induction false} LevelsFall(p: seq<Id>, i: nat, j: nat)
    requires i <= j < |p| && Falling(p)
    ensures Level(p[j]) <= Level(p[i])
    decreases j
  {
    if i < j {
      LevelsFall(p, i, j - 1);
      assert Level(p[j - 1 + 1]) <= Level(p[j - 1]);
    }
  }

  lemma FollowsIsEdge(services: seq<Service>, a: Id, b: Id)
    requires Unique(services) && Follows(services, a, b)
    ensures Edge(Depends(services), a.name, b.name)
  {
    var j :| 0 <= j < |services| && services[j].name == a.name && b.name in services[j].dependsOn;
    assert Depends(services)[services[j].name] == services[j].dependsOn;
  }

  predicate Falling(p: seq<Id>) {
    forall k :: 0 <= k < |p| - 1 ==> Level(p[k + 1]) <= Level(p[k])
  }

  lemma CycleFalls(s: System, g: Graph, p: seq<Id>)
    requires Wellmade(s, g.nodes) && GraphCycle(g, p)
    ensures Falling(p)
  {
    forall k | 0 <= k < |p| - 1 ensures Level(p[k + 1]) <= Level(p[k]) {
      assert GraphEdge(g, p[k], p[k + 1]);
      EdgeDescends(s, g, p[k], p[k + 1]);
    }
  }

  lemma CycleLevel(p: seq<Id>, i: nat)
    requires Falling(p) && i < |p| - 1 && p[0] == p[|p| - 1]
    ensures Level(p[i]) == Level(p[i + 1])
  {
    LevelsFall(p, 0, i);
    LevelsFall(p, i + 1, |p| - 1);
  }

  /** Along a cycle of the graph every step stays on its level, and so follows a declared dependency. */
  lemma CycleSteps(s: System, g: Graph, p: seq<Id>, i: nat)
    requires Wellmade(s, g.nodes) && GraphCycle(g, p) && i < |p| - 1
    ensures Follows(s.services, p[i], p[i + 1])
  {
    CycleFalls(s, g, p);
    CycleLevel(p, i);
    assert GraphEdge(g, p[i], p[i + 1]);
    EdgeDescends(s, g, p[i], p[i + 1]);
  }

  function NamesOf(p: seq<Id>): seq<string> {
    seq(|p|, i requires 0 <= i < |p| => if p[i].ServiceNode? then p[i].name else "")
  }

  lemma CycleOfNames(services: seq<Service>, p: seq<Id>)
    requires Unique(services) && |p| >= 2 && p[0] == p[|p| - 1]
    requires forall i :: 0 <= i < |p| - 1 ==> Follows(services, p[i], p[i + 1])
    ensures Cycle(Depends(services), NamesOf(p))
  {
    forall i | 0 <= i < |p| - 1 ensures Edge(Depends(services), NamesOf(p)[i], NamesOf(p)[i + 1]) {
      FollowsIsEdge(services, p[i], p[i + 1]);
    }
  }

  /** The expanded graph has no cycle, because the declared dependencies have none. */
  lemma GraphIsAcyclic(s: System, g: Graph, p: seq<Id>)
    requires ValidSystem(s) && Compiled(s, g)
    ensures !GraphCycle(g, p)
  {
    if GraphCycle(g, p) {
      forall i | 0 <= i < |p| - 1 ensures Follows(s.services, p[i], p[i + 1]) { CycleSteps(s, g, p, i); }
      CycleOfNames(s.services, p);
    }
  }

  // ----- replica scaling --------------------------------------------------------------------------------------------

  predicate Scalable(s: Service) {
    s.networking == "public" && s.protocol == "http" && s.isolation == Process && s.kind != "database"
  }

  /** The largest replica count of one service that fits beside all others on the one host. */
  method ScaleCapacity(s: System, name: string) returns (r: Option<(Service, Int)>)
    ensures r.Some? <==>
              && ValidSystem(s) && s.host.count == 1
              && exists k :: 0 <= k < |s.services| && s.services[k].name == name && Scalable(s.services[k])
    ensures r.Some? ==>
              var (target, most) := r.value;
              var others := GuestMemory(s.services) - target.instances as int * target.memory as int;
              && target in s.services && target.name == name && most >= target.instances >= 1
              && others + most as int * target.memory as int <= Available(s.host)
              && others + (most as int + 1) * target.memory as int > Available(s.host)
  {
    var ok := Validate(s);
    if !ok || s.host.count != 1 { return None; }
    ValidFits(s);
    TotalsGrow(s.services, 0);
    var target, used := FindTarget(s, name);
    if target.None? || !Scalable(target.value) { return None; }
    var t := target.value;
    assert ServiceOk(t);
    var most := MostReplicas(s.host, used, t);
    if most < 1 { return None; }
    r := Some((t, most));
  }

  method MostReplicas(h: Host, used: Int, t: Service) returns (most: Int)
    requires HostOk(h) && h.count == 1 && used >= 0 && t.instances >= 1 && t.memory >= 1
    requires used as int + t.instances as int * t.memory as int <= Available(h)
    ensures most >= t.instances
    ensures used as int + most as int * t.memory as int <= Available(h)
    ensures Available(h) < used as int + (most as int + 1) * t.memory as int
  {
    var available := h.count * (h.memory - h.reserve) - used;
    Fits(available as int, t.instances as int, t.memory as int);
    most := available / t.memory;
  }

  lemma Fits(available: int, instances: int, memory: int)
    requires memory >= 1 && instances * memory <= available
    ensures available / memory >= instances
    ensures (available / memory) * memory <= available < (available / memory + 1) * memory
  {
    var q := available / memory;
    assert q + 1 <= instances ==> (q + 1) * memory <= instances * memory;
  }

  /** The loop of ScaleCapacity. */
  method FindTarget(s: System, name: string) returns (target: Option<Service>, used: Int)
    requires Accepted(s.services)
    ensures target.None? ==> forall k :: 0 <= k < |s.services| ==> s.services[k].name != name
    ensures target.Some? ==> target.value in s.services && target.value.name == name
    ensures target.Some? ==> forall k :: 0 <= k < |s.services| && s.services[k].name == name ==>
              s.services[k] == target.value
    ensures target.Some? ==> used >= 0 && used as int == GuestMemory(s.services) - Memory(target.value)
  {
    target, used := None, 0;
    ghost var at, mine := 0, 0;
    var i := 0;
    while i < |s.services|
      invariant 0 <= i <= |s.services| && used >= 0 && mine >= 0
      invariant used as int + mine == GuestMemory(s.services[..i])
      invariant target.None? ==> mine == 0 && forall k :: 0 <= k < i ==> s.services[k].name != name
      invariant target.Some? ==>
                0 <= at < i && s.services[at] == target.value && target.value.name == name
                && mine == Memory(target.value)
    {
      NextMemory(s.services, i);
      if s.services[i].name == name {
        assert target.None?;
        target, at, mine := Some(s.services[i]), i, Memory(s.services[i]);
      } else {
        used := AddMemory(used, s.services[i]);
      }
      i := i + 1;
    }
    assert s.services[..i] == s.services;
  }

  function Memory(s: Service): int {
    s.instances as int * s.memory as int
  }

  lemma NextMemory(services: seq<Service>, i: nat)
    requires Accepted(services) && i < |services|
    ensures GuestMemory(services[..i + 1]) == GuestMemory(services[..i]) + Memory(services[i]) <= MAX_INT
    ensures 0 <= GuestMemory(services[..i]) && 0 <= Memory(services[i])
  {
    NextTotals(services, i);
  }

  method AddMemory(used: Int, service: Service) returns (sum: Int)
    requires used >= 0 && ServiceOk(service) && used as int + Memory(service) <= MAX_INT
    ensures sum >= 0 && sum as int == used as int + Memory(service)
  {
    Product(service.instances as int, service.memory as int);
    sum := used + service.instances * service.memory;
  }
}
