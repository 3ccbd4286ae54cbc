/**
 What the nodes of a compiled graph say, field by field, and which edges it has: exactly those that
 hosts, runtimes, placements and declared dependencies call for.
 */
module GraphEdges {
  import opened Base
  import opened SystemHeader
  import opened SystemSpec
  import opened GraphIds
  import opened SystemGraph

  // ----- what the declarations call for ---------------------------------------------------------------------

  /** The identifier of instance `n` as a workload of its isolation. */
  predicate IsWorkload(s: Service, n: nat, id: Id) {
    match id
    case MicroVm(name, m) => s.isolation == Firecracker && name == s.name && m == n
    case ProcessInstance(name, m) => s.isolation == Process && name == s.name && m == n
    case _ => false
  }

  /** Runtime `id` serves this isolation on host `h`. */
  predicate IsRuntime(isolation: Isolation, h: nat, id: Id) {
    match id
    case FirecrackerRuntime(i) => isolation == Firecracker && i == h
    case ProcessRuntime(i) => isolation == Process && i == h
    case _ => false
  }

  predicate IsInstance(s: System, j: nat, n: nat) {
    j < |s.services| && 1 <= n <= s.services[j].instances as int
  }

  ghost predicate PlacedAt(g: Graph, a: Id, host: Id) {
    exists i :: 0 <= i < |g.nodes| && g.nodes[i].id == a && g.nodes[i].placement == Some(host)
  }

  /** From a runtime to its host. */
  predicate HostLink(s: System, a: Id, b: Id) {
    match a
    case FirecrackerRuntime(h) => 1 <= h <= s.host.count as int && Needs(s.services, Firecracker) && b == HostId(h)
    case ProcessRuntime(h) => 1 <= h <= s.host.count as int && Needs(s.services, Process) && b == HostId(h)
    case _ => false
  }

  /** From a workload to the runtime of its isolation, on the host where it is placed. */
  ghost predicate RuntimeLink(s: System, g: Graph, j: nat, n: nat, a: Id, b: Id) {
    && IsInstance(s, j, n) && IsWorkload(s.services[j], n, a)
    && exists h: nat :: PlacedAt(g, a, HostId(h)) && IsRuntime(s.services[j].isolation, h, b)
  }

  /** From an instance of a service to its own workload, to the namespace, and to what the service depends on. */
  predicate ServiceLink(s: System, j: nat, n: nat, a: Id, b: Id) {
    && IsInstance(s, j, n) && a == ServiceNode(s.services[j].name, n)
    && (|| IsWorkload(s.services[j], n, b) || b == Namespace
        || (b.ServiceNode? && b.instance == 1 && b.name in s.services[j].dependsOn))
  }

  ghost predicate Called(s: System, g: Graph, a: Id, b: Id) {
    || HostLink(s, a, b)
    || exists j: nat, n: nat :: RuntimeLink(s, g, j, n, a, b) || ServiceLink(s, j, n, a, b)
  }

  // ----- what a node says ------------------------------------------------------------------------------------

  lemma HostLinks(s: System, i: nat, node: GraphNode, b: Id)
    requires HostPart(s, i, node)
    ensures b in node.dependsOn <==> HostLink(s, node.id, b)
  {
  }

  lemma SupportedIsolation(s: System, j: nat)
    requires ValidSystem(s) && j < |s.services|
    ensures s.services[j].isolation in {Firecracker, Process}
  {
    assert ServiceOk(s.services[j]);
  }

  lemma WorkloadSays(s: System, j: nat, n: nat, node: GraphNode) returns (h: nat)
    requires ValidSystem(s) && InstancePart(s, j, n, node) && !node.id.ServiceNode?
    ensures IsInstance(s, j, n) && IsWorkload(s.services[j], n, node.id)
    ensures node.kind == (if node.id.ProcessInstance? then "runtime.process-instance" else "runtime.microvm")
    ensures node.vcpu == s.services[j].vcpu && node.memory == s.services[j].memory
    ensures node.properties == map["isolation" := if node.id.ProcessInstance? then "process" else "firecracker"]
    ensures h == (Instances(s.services[..j]) + n - 1) % s.host.count as int + 1 && node.placement == Some(HostId(h))
    ensures |node.dependsOn| == 1 && IsRuntime(s.services[j].isolation, h, node.dependsOn[0])
  {
    SupportedIsolation(s, j);
    h := HostOf(Ordinal(s.services, j, n), s.host.count as int);
  }

  lemma EndpointLinks(s: Service, n: nat, b: Id)
    requires s.isolation in {Firecracker, Process}
    ensures b in ServiceLinks(s, n) <==>
              IsWorkload(s, n, b) || b == Namespace || (b.ServiceNode? && b.instance == 1 && b.name in s.dependsOn)
  {
    var links := ServiceLinks(s, n);
    if b.ServiceNode? && b.instance == 1 && b.name in s.dependsOn {
      var i :| 0 <= i < |s.dependsOn| && s.dependsOn[i] == b.name;
      assert links[2 + i] == b;
    }
    assert links[0] == WorkloadOf(s, n) && links[1] == Namespace;
    if IsWorkload(s, n, b) { assert b == links[0]; }
    if b in links {
      var k :| 0 <= k < |links| && links[k] == b;
      if k >= 2 { assert links[k] == ServiceNode(s.dependsOn[k - 2], 1); }
    }
  }

  lemma EndpointSays(s: System, j: nat, n: nat, node: GraphNode)
    requires ValidSystem(s) && InstancePart(s, j, n, node) && node.id.ServiceNode?
    ensures IsInstance(s, j, n) && node.id == ServiceNode(s.services[j].name, n)
    ensures node.kind == s.services[j].kind + "." + s.services[j].engine && node.vcpu == 0 && node.memory == 0
    ensures node.placement.Some? && IsWorkload(s.services[j], n, node.placement.value)
    ensures node.properties.Keys == {"readiness", "networking"}
              + (if s.services[j].kind == "database" then {"binding"} else {})
    ensures node.properties["networking"] == s.services[j].networking
    ensures node.properties["readiness"] == s.services[j].protocol + ":" + Printed(s.services[j].port)
    ensures s.services[j].kind == "database" ==> node.properties["binding"] == Binding(s.services[j].name)
    ensures forall b :: b in node.dependsOn <==> ServiceLink(s, j, n, node.id, b)
  {
    SupportedIsolation(s, j);
    forall b ensures b in node.dependsOn <==> ServiceLink(s, j, n, node.id, b) {
      EndpointLinks(s.services[j], n, b);
    }
  }

  /** The service and the instance that a node stands for are the only ones. */
  lemma OneOwner(s: System, j: nat, n: nat, k: nat, m: nat, id: Id)
    requires Unique(s.services) && IsInstance(s, j, n) && IsInstance(s, k, m)
    requires id == ServiceNode(s.services[j].name, n) || IsWorkload(s.services[j], n, id)
    requires id == ServiceNode(s.services[k].name, m) || IsWorkload(s.services[k], m, id)
    ensures j == k && n == m
  {
    assert s.services[j].name == s.services[k].name;
  }

  // ----- the theorem -----------------------------------------------------------------------------------------

  lemma NodeOf(g: Graph, a: Id, i: nat, b: Id)
    requires UniqueIds(g.nodes) && i < |g.nodes| && g.nodes[i].id == a
    ensures GraphEdge(g, a, b) <==> b in g.nodes[i].dependsOn
    ensures forall host :: PlacedAt(g, a, host) <==> g.nodes[i].placement == Some(host)
  {
  }

  lemma WorkloadEdges(s: System, g: Graph, i: nat, j: nat, n: nat, b: Id)
    requires ValidSystem(s) && Compiled(s, g) && i < |g.nodes|
    requires InstancePart(s, j, n, g.nodes[i]) && !g.nodes[i].id.ServiceNode?
    ensures b in g.nodes[i].dependsOn <==> RuntimeLink(s, g, j, n, g.nodes[i].id, b)
  {
    var node := g.nodes[i];
    var h := WorkloadSays(s, j, n, node);
    NodeOf(g, node.id, i, b);
    assert PlacedAt(g, node.id, HostId(h));
    assert forall k: nat :: PlacedAt(g, node.id, HostId(k)) ==> k == h;
    assert b in node.dependsOn <==> b == node.dependsOn[0];
  }

  /** What is called for from a node of an instance is called for by that instance. */
  lemma CalledByOwner(s: System, g: Graph, j: nat, n: nat, a: Id, b: Id)
    requires Unique(s.services) && IsInstance(s, j, n)
    requires a == ServiceNode(s.services[j].name, n) || IsWorkload(s.services[j], n, a)
    ensures Called(s, g, a, b) <==> RuntimeLink(s, g, j, n, a, b) || ServiceLink(s, j, n, a, b)
  {
    if k: nat, m: nat :| RuntimeLink(s, g, k, m, a, b) || ServiceLink(s, k, m, a, b) {
      OneOwner(s, j, n, k, m, a);
    }
  }

  lemma InstanceEdges(s: System, g: Graph, i: nat, j: nat, n: nat, b: Id)
    requires ValidSystem(s) && Compiled(s, g) && i < |g.nodes| && InstancePart(s, j, n, g.nodes[i])
    ensures b in g.nodes[i].dependsOn <==> Called(s, g, g.nodes[i].id, b)
  {
    var node := g.nodes[i];
    if node.id.ServiceNode? {
      EndpointSays(s, j, n, node);
    } else {
      var _ := WorkloadSays(s, j, n, node);
      WorkloadEdges(s, g, i, j, n, b);
    }
    CalledByOwner(s, g, j, n, node.id, b);
  }

  lemma OtherEdges(s: System, g: Graph, i: nat, b: Id)
    requires ValidSystem(s) && Compiled(s, g) && i < |g.nodes|
    requires g.nodes[i] == NamespaceNode(s.header) || exists h :: HostPart(s, h, g.nodes[i])
    ensures b in g.nodes[i].dependsOn <==> Called(s, g, g.nodes[i].id, b)
  {
    var node := g.nodes[i];
    if h :| HostPart(s, h, node) { HostLinks(s, h, node, b); }
    forall j: nat, n: nat ensures !RuntimeLink(s, g, j, n, node.id, b) && !ServiceLink(s, j, n, node.id, b) {}
  }

  /** Only nodes of the graph are called for. */
  lemma CalledIsThere(s: System, g: Graph, a: Id, b: Id)
    requires ValidSystem(s) && Compiled(s, g) && Called(s, g, a, b)
    ensures Contains(g.nodes, a)
  {
    if !HostLink(s, a, b) {
      var j: nat, n: nat :| RuntimeLink(s, g, j, n, a, b) || ServiceLink(s, j, n, a, b);
      DeclaredHas(s, j, n);
      SupportedIsolation(s, j);
      assert a == WorkloadOf(s.services[j], n) || a == ServiceNode(s.services[j].name, n);
    }
    assert Has(s, a);
  }

  /**
   The edges of a compiled graph, exactly: from a runtime to its host; from a workload to the runtime of its
   isolation on the host where it is placed; and from an instance of a service to its own workload, to the
   namespace, and to the first instance of everything that the service declares to depend on.
   */
  lemma EdgesAre(s: System, g: Graph, a: Id, b: Id)
    requires ValidSystem(s) && Compiled(s, g)
    ensures GraphEdge(g, a, b) <==> Called(s, g, a, b)
  {
    if Called(s, g, a, b) { CalledIsThere(s, g, a, b); }
    if i: nat :| i < |g.nodes| && g.nodes[i].id == a {
      NodeOf(g, a, i, b);
      assert Genuine(s, g.nodes[i]);
      if j: nat, n: nat :| InstancePart(s, j, n, g.nodes[i]) {
        InstanceEdges(s, g, i, j, n, b);
      } else {
        OtherEdges(s, g, i, b);
      }
    }
  }

  // ----- every instance, host and the namespace ------------------------------------------------------------------

  lemma Find(s: System, g: Graph, id: Id) returns (node: GraphNode)
    requires Compiled(s, g) && Has(s, id)
    ensures node in g.nodes && node.id == id && Genuine(s, node)
  {
    assert Contains(g.nodes, id);
    var i :| 0 <= i < |g.nodes| && g.nodes[i].id == id;
    node := g.nodes[i];
  }

  /** A node of an instance is a part of that instance. */
  lemma OwnPart(s: System, j: nat, n: nat, node: GraphNode)
    requires ValidSystem(s) && IsInstance(s, j, n) && Genuine(s, node)
    requires node.id == ServiceNode(s.services[j].name, n) || IsWorkload(s.services[j], n, node.id)
    ensures InstancePart(s, j, n, node)
  {
    var k: nat, m: nat :| InstancePart(s, k, m, node);
    SupportedIsolation(s, k);
    OneOwner(s, j, n, k, m, node.id);
  }

  /** Every declared instance is in the graph with a workload of its own resources, placed in its turn, */
  lemma WorkloadIsThere(s: System, g: Graph, j: nat, n: nat) returns (node: GraphNode, h: nat)
    requires ValidSystem(s) && Compiled(s, g) && IsInstance(s, j, n)
    ensures node in g.nodes && IsWorkload(s.services[j], n, node.id)
    ensures node.kind == (if node.id.ProcessInstance? then "runtime.process-instance" else "runtime.microvm")
    ensures node.vcpu == s.services[j].vcpu && node.memory == s.services[j].memory
    ensures node.properties == map["isolation" := if node.id.ProcessInstance? then "process" else "firecracker"]
    ensures s.host.count > 0 && h == (Instances(s.services[..j]) + n - 1) % s.host.count as int + 1
    ensures node.placement == Some(HostId(h))
  {
    DeclaredHas(s, j, n);
    SupportedIsolation(s, j);
    node := Find(s, g, WorkloadOf(s.services[j], n));
    OwnPart(s, j, n, node);
    h := WorkloadSays(s, j, n, node);
  }

  /** and with an endpoint on that workload that says how it is reached. */
  lemma EndpointIsThere(s: System, g: Graph, j: nat, n: nat) returns (node: GraphNode)
    requires ValidSystem(s) && Compiled(s, g) && IsInstance(s, j, n)
    ensures node in g.nodes && node.id == ServiceNode(s.services[j].name, n)
    ensures node.kind == s.services[j].kind + "." + s.services[j].engine && node.vcpu == 0 && node.memory == 0
    ensures node.placement.Some? && IsWorkload(s.services[j], n, node.placement.value)
    ensures node.properties.Keys == {"readiness", "networking"}
              + (if s.services[j].kind == "database" then {"binding"} else {})
    ensures node.properties["networking"] == s.services[j].networking
    ensures node.properties["readiness"] == s.services[j].protocol + ":" + Printed(s.services[j].port)
    ensures s.services[j].kind == "database" ==> node.properties["binding"] == Binding(s.services[j].name)
  {
    DeclaredHas(s, j, n);
    node := Find(s, g, ServiceNode(s.services[j].name, n));
    OwnPart(s, j, n, node);
    EndpointSays(s, j, n, node);
  }

  /** Every host is there, with its class and its memory. */
  lemma HostIsThere(s: System, g: Graph, h: nat) returns (node: GraphNode)
    requires ValidSystem(s) && Compiled(s, g) && 1 <= h <= s.host.count as int
    ensures node in g.nodes && node.id == HostId(h) && node.kind == "compute.host" && node.placement == None
    ensures node.properties == map["class" := s.header.computeClass, "memoryMiB" := Printed(s.host.memory)]
  {
    node := Find(s, g, HostId(h));
    if i :| HostPart(s, i, node) { assert i == h; }
  }

  /** So is the namespace, with its prefix. */
  lemma NamespaceIsThere(s: System, g: Graph) returns (node: GraphNode)
    requires Compiled(s, g)
    ensures node in g.nodes && node.id == Namespace && node.kind == "m1.namespace" && node.placement == None
    ensures node.properties == map["prefix" := s.header.prefix]
  {
    node := Find(s, g, Namespace);
  }

  /** The nodes stand in the dictionary order of their identifiers. */
  lemma NodesAscend(s: System, g: Graph, i: nat, j: nat)
    requires Compiled(s, g) && i < j < |g.nodes|
    ensures Smaller(Render(g.nodes[i].id), Render(g.nodes[j].id))
  {
    assert Precedes(g.nodes[i], g.nodes[j]);
    BeforeIs(Render(g.nodes[i].id), Render(g.nodes[j].id));
  }
}
