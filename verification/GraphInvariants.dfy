/** What the compiled graph demands of its nodes at run time, and the names it hands to applications. */
module GraphInvariants {
  import opened Base
  import opened SystemHeader
  import opened SystemSpec
  import opened GraphIds
  import opened SystemGraph
  import opened GraphEdges

  // ----- membership in the list -----------------------------------------------------------------------------------

  lemma {:induction false} HostInvariantsAre(s: System, upto: nat, v: Invariant)
    ensures v in HostInvariants(s, upto) <==>
              v.subject.HostId? && 1 <= v.subject.host <= upto && Needs(s.services, Firecracker)
                  && v == Invariant("host.capability", v.subject, "kvm")
  {
    if upto > 0 { HostInvariantsAre(s, upto - 1, v); }
  }

  lemma {:induction false} ServiceInvariantsAre(s: Service, upto: nat, v: Invariant)
    ensures v in ServiceInvariants(s, upto) <==> exists n :: 1 <= n <= upto && v in InstanceInvariants(s, n)
  {
    if upto > 0 {
      ServiceInvariantsAre(s, upto - 1, v);
      if v in InstanceInvariants(s, upto) { assert 1 <= upto <= upto; }
    }
  }

  lemma {:induction false} AllInvariantsAre(services: seq<Service>, v: Invariant)
    requires forall j :: 0 <= j < |services| ==> services[j].instances >= 0
    ensures v in AllInvariants(services) <==>
              exists j :: 0 <= j < |services| && v in ServiceInvariants(services[j], services[j].instances as nat)
  {
    if services != [] {
      var front, last := services[..|services| - 1], services[|services| - 1];
      AllInvariantsAre(front, v);
      if v in AllInvariants(front) {
        var j :| 0 <= j < |front| && v in ServiceInvariants(front[j], front[j].instances as nat);
        assert services[j] == front[j];
      }
      if j :| 0 <= j < |services| && v in ServiceInvariants(services[j], services[j].instances as nat) {
        if j < |front| { assert front[j] == services[j]; }
      }
    }
  }

  // ----- the theorems -----------------------------------------------------------------------------------------------

  lemma NonNegative(s: System)
    requires ValidSystem(s)
    ensures s.host.count >= 1 && forall j :: 0 <= j < |s.services| ==> s.services[j].instances >= 1
  {
    forall j | 0 <= j < |s.services| ensures s.services[j].instances >= 1 { assert s.services[j] in s.services; }
  }

  /** Every invariant is about a node of the graph. */
  lemma InvariantsClosed(s: System, g: Graph, v: Invariant)
    requires ValidSystem(s) && Compiled(s, g) && v in g.invariants
    ensures Contains(g.nodes, v.subject)
  {
    NonNegative(s);
    HostInvariantsAre(s, s.host.count as nat, v);
    AllInvariantsAre(s.services, v);
    if v in AllInvariants(s.services) {
      var j :| 0 <= j < |s.services| && v in ServiceInvariants(s.services[j], s.services[j].instances as nat);
      ServiceInvariantsAre(s.services[j], s.services[j].instances as nat, v);
      var n: nat :| 1 <= n <= s.services[j].instances as nat && v in InstanceInvariants(s.services[j], n);
      DeclaredHas(s, j, n);
    }
    assert Has(s, v.subject);
  }

  /** What instance `n` of a service demands: its memory of the workload, its readiness of the endpoint. */
  predicate Demands(s: Service, n: nat, v: Invariant) {
    || (v.kind == "resource.memory" && IsWorkload(s, n, v.subject) && v.value == Printed(s.memory) + "MiB")
    || (v.kind == "service.ready" && v.subject == ServiceNode(s.name, n)
        && v.value == s.protocol + ":" + Printed(s.port))
  }

  lemma DemandsAre(s: Service, n: nat, v: Invariant)
    requires s.isolation in {Firecracker, Process}
    ensures v in InstanceInvariants(s, n) <==> Demands(s, n, v)
  {
    var all := InstanceInvariants(s, n);
    assert v in all <==> v == all[0] || v == all[1];
    if IsWorkload(s, n, v.subject) { assert v.subject == WorkloadOf(s, n); }
  }

  lemma InstanceInvariantsAre(s: System, j: nat, v: Invariant)
    requires ValidSystem(s) && j < |s.services|
    ensures s.services[j].instances >= 0
    ensures v in ServiceInvariants(s.services[j], s.services[j].instances as nat) <==>
              exists n: nat :: IsInstance(s, j, n) && Demands(s.services[j], n, v)
  {
    NonNegative(s);
    SupportedIsolation(s, j);
    ServiceInvariantsAre(s.services[j], s.services[j].instances as nat, v);
    forall n: nat ensures v in InstanceInvariants(s.services[j], n) <==> Demands(s.services[j], n, v) {
      DemandsAre(s.services[j], n, v);
    }
    if n: nat :| IsInstance(s, j, n) && Demands(s.services[j], n, v) {
      assert 1 <= n <= s.services[j].instances as nat && v in InstanceInvariants(s.services[j], n);
    }
  }

  /**
   The invariants of a compiled graph, exactly: every instance's memory and readiness, and the virtualization of
   every host if any service runs in a microVM.
   */
  lemma InvariantsAre(s: System, g: Graph, v: Invariant)
    requires ValidSystem(s) && Compiled(s, g)
    ensures v in g.invariants <==>
              || (exists j: nat, n: nat :: IsInstance(s, j, n) && Demands(s.services[j], n, v))
              || (v.kind == "host.capability" && v.value == "kvm" && v.subject.HostId?
                  && 1 <= v.subject.host <= s.host.count as int
                  && exists j :: 0 <= j < |s.services| && s.services[j].isolation == Firecracker)
  {
    NonNegative(s);
    HostInvariantsAre(s, s.host.count as nat, v);
    AllInvariantsAre(s.services, v);
    forall j | 0 <= j < |s.services|
      ensures v in ServiceInvariants(s.services[j], s.services[j].instances as nat) <==>
                exists n: nat :: IsInstance(s, j, n) && Demands(s.services[j], n, v)
    {
      InstanceInvariantsAre(s, j, v);
    }
    if j: nat, n: nat :| IsInstance(s, j, n) && Demands(s.services[j], n, v) {
      assert v in ServiceInvariants(s.services[j], s.services[j].instances as nat);
    }
  }

  // ----- bindings ------------------------------------------------------------------------------------------

  lemma {:induction false} UpperLength(s: string)
    ensures |Upper(s)| == |s|
  {
    if s != "" { UpperLength(s[1..]); }
  }

  predicate NameChars(s: string) {
    forall i :: 0 <= i < |s| ==> 'a' <= s[i] <= 'z' || '0' <= s[i] <= '9' || s[i] == '-'
  }

  /** Letters are raised, digits stay, and everything else becomes an underscore. */
  lemma {:induction false} UpperAt(s: string, i: nat)
    requires i < |s|
    ensures |Upper(s)| == |s|
    ensures 'a' <= s[i] <= 'z' ==> Upper(s)[i] as int == s[i] as int - 32
    ensures 'A' <= s[i] <= 'Z' || '0' <= s[i] <= '9' ==> Upper(s)[i] == s[i]
    ensures !('a' <= s[i] <= 'z' || 'A' <= s[i] <= 'Z' || '0' <= s[i] <= '9') ==> Upper(s)[i] == '_'
  {
    UpperLength(s);
    if i > 0 { UpperAt(s[1..], i - 1); }
  }

  lemma {:induction false} UpperInjective(a: string, b: string)
    requires NameChars(a) && NameChars(b) && Upper(a) == Upper(b)
    ensures a == b
  {
    UpperLength(a);
    UpperLength(b);
    if a != "" {
      assert Upper(a)[0] == Upper(b)[0] && Upper(a)[1..] == Upper(a[1..]) && Upper(b)[1..] == Upper(b[1..]);
      UpperInjective(a[1..], b[1..]);
      assert a == [a[0]] + a[1..] && b == [b[0]] + b[1..];
    }
  }

  /** No two services of a valid system share the variable through which applications find them. */
  lemma BindingsAreUnique(s: System, i: nat, j: nat)
    requires ValidSystem(s) && i < j < |s.services|
    ensures Binding(s.services[i].name) != Binding(s.services[j].name)
  {
    var a, b := s.services[i].name, s.services[j].name;
    assert ServiceOk(s.services[i]) && ServiceOk(s.services[j]);
    if Binding(a) == Binding(b) {
      SameMiddle("CANTER_SERVICE_", Upper(a), Upper(b), "_URL");
      UpperInjective(a, b);
    }
  }

  lemma SameMiddle(head: string, a: string, b: string, tail: string)
    requires head + a + tail == head + b + tail
    ensures a == b
  {
    var s := head + a + tail;
    assert |a| == |b|;
    assert s[|head|..|head| + |a|] == a && s[|head|..|head| + |b|] == b;
  }
}
