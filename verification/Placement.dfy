/** Where the compiled graph places the instances: round robin over the hosts. */
module Placement {
  import opened Base
  import opened Dependencies
  import opened SystemHeader
  import opened SystemSpec
  import opened SystemValidate
  import opened GraphIds
  import opened SystemGraph

  predicate IsWorkload(id: Id) {
    id.MicroVm? || id.ProcessInstance?
  }

  predicate RunsOn(node: GraphNode, h: nat) {
    IsWorkload(node.id) && node.placement == Some(HostId(h))
  }

  /** How many workloads the nodes place on host `h`. */
  function PlacedOn(nodes: seq<GraphNode>, h: nat): nat {
    if nodes == [] then 0
    else PlacedOn(nodes[..|nodes| - 1], h) + (if RunsOn(nodes[|nodes| - 1], h) then 1 else 0)
  }

  // ----- dealing ------------------------------------------------------------------------------------------------

  /** Which turns go to host `h`. */
  function Turns(count: nat, h: nat): int -> bool
    requires count > 0
  {
    o => HostOf(o, count) == h
  }

  /** How many of the first `total` turns are taken. */
  function Load(total: nat, turn: int -> bool): nat {
    if total == 0 then 0 else Load(total - 1, turn) + (if turn(total - 1) then 1 else 0)
  }

  lemma {:induction false} LoadIs(total: nat, count: nat, h: nat)
    requires 1 <= h <= count
    ensures Load(total, Turns(count, h)) == total / count + (if h - 1 < total % count then 1 else 0)
  {
    if total == 0 {
      Remainder(0, count, 0, 0);
    } else {
      LoadIs(total - 1, count, h);
      Successor(total - 1, count);
    }
  }

  lemma Successor(x: nat, count: nat)
    requires count > 0
    ensures if x % count == count - 1 then (x + 1) / count == x / count + 1 && (x + 1) % count == 0
            else (x + 1) / count == x / count && (x + 1) % count == x % count + 1
  {
    var q, r := x / count, x % count;
    assert x == q * count + r;
    if r == count - 1 {
      assert x + 1 == (q + 1) * count;
      Remainder(x + 1, count, q + 1, 0);
    } else {
      Remainder(x + 1, count, q, r + 1);
    }
  }

  // ----- the instances in the order in which they are dealt -------------------------------------------------------

  /** Instance `n` of service `j` comes within the first `k` services and `m` instances of the next. */
  predicate Within(services: seq<Service>, k: nat, m: nat, j: nat, n: nat)
    requires k <= |services|
  {
    j < |services| && 1 <= n <= services[j].instances as int && (j < k || (j == k && n <= m))
  }

  ghost predicate Dealable(services: seq<Service>, k: nat, m: nat) {
    && Unique(services) && (forall j :: 0 <= j < |services| ==> services[j].instances >= 1)
    && k <= |services| && (m > 0 ==> k < |services| && m <= services[k].instances as int)
  }

  /** The workloads dealt so far whose turn was taken. */
  ghost function On(services: seq<Service>, turn: int -> bool, k: nat, m: nat): seq<Id>
    requires Dealable(services, k, m)
    decreases k, m
  {
    if m > 0 then On(services, turn, k, m - 1) + (if turn(Ordinal(services, k, m)) then [WorkloadOf(services[k], m)]
        else [])
    else if k > 0 then
      On(services, turn, k - 1, services[k - 1].instances as int)
    else []
  }

  /** They are exactly the instances whose turn it was. */
  lemma {:induction false} OnIs(services: seq<Service>, turn: int -> bool, k: nat, m: nat, j: nat, n: nat)
    requires Dealable(services, k, m) && j < |services| && 1 <= n <= services[j].instances as int
    ensures WorkloadOf(services[j], n) in On(services, turn, k, m) <==>
              Within(services, k, m, j, n) && turn(Ordinal(services, j, n))
    decreases k, m
  {
    if m > 0 {
      OnIs(services, turn, k, m - 1, j, n);
      if WorkloadOf(services[j], n) == WorkloadOf(services[k], m) { SameWorkload(services, j, n, k, m); }
    } else if k > 0 {
      OnIs(services, turn, k - 1, services[k - 1].instances as int, j, n);
    }
  }

  lemma SameWorkload(services: seq<Service>, j: nat, n: nat, k: nat, m: nat)
    requires Unique(services) && j < |services| && k < |services|
              && WorkloadOf(services[j], n) == WorkloadOf(services[k], m)
    ensures j == k && n == m
  {
    assert services[j].name == services[k].name;
  }

  lemma {:induction false} OnWorkloads(services: seq<Service>, turn: int -> bool, k: nat, m: nat, id: Id)
    requires Dealable(services, k, m) && id in On(services, turn, k, m)
    ensures exists j: nat, n: nat :: Within(services, k, m, j, n) && WorkloadOf(services[j], n) == id
    decreases k, m
  {
    if m > 0 {
      if id in On(services, turn, k, m - 1) {
        OnWorkloads(services, turn, k, m - 1, id);
        var j: nat, n: nat :| Within(services, k, m - 1, j, n) && WorkloadOf(services[j], n) == id;
        assert Within(services, k, m, j, n);
      } else {
        assert Within(services, k, m, k, m);
      }
    } else {
      OnWorkloads(services, turn, k - 1, services[k - 1].instances as int, id);
      var j: nat, n: nat :| Within(services, k - 1, services[k - 1].instances as int, j, n)
          && WorkloadOf(services[j], n) == id;
      assert Within(services, k, m, j, n);
    }
  }

  /** How many instances the services before `k` have. */
  function Ahead(services: seq<Service>, k: nat): int
    requires k <= |services|
  {
    if k == 0 then 0 else Ahead(services, k - 1) + services[k - 1].instances as int
  }

  lemma {:induction false} AheadIs(services: seq<Service>, k: nat)
    requires k <= |services| && forall s :: s in services ==> ServiceOk(s)
    ensures Ahead(services, k) == Instances(services[..k]) >= 0
  {
    if k > 0 {
      assert services[k - 1] in services;
      AheadIs(services, k - 1);
      NextTotals(services, k - 1);
    }
  }

  lemma LoadNext(total: nat, turn: int -> bool)
    ensures Load(total + 1, turn) == Load(total, turn) + (if turn(total) then 1 else 0)
  {
  }

  /** No instance is dealt twice. */
  lemma {:induction false} OnDistinct(services: seq<Service>, turn: int -> bool, k: nat, m: nat)
    requires Dealable(services, k, m)
    ensures NoDuplicates(On(services, turn, k, m))
    decreases k, m
  {
    if m > 0 {
      OnDistinct(services, turn, k, m - 1);
      OnIs(services, turn, k, m - 1, k, m);
    } else if k > 0 {
      OnDistinct(services, turn, k - 1, services[k - 1].instances as int);
    }
  }

  lemma OnNext(services: seq<Service>, turn: int -> bool, k: nat, m: nat)
    requires Dealable(services, k, m) && m > 0 && Ahead(services, k) == Instances(services[..k])
    ensures |On(services, turn, k, m)| == |On(services, turn, k, m - 1)|
              + (if turn(Ahead(services, k) + m - 1) then 1 else 0)
  {
  }

  /** Their number is the number of turns: within one service, */
  lemma {:induction false} OnService(services: seq<Service>, turn: int -> bool, k: nat, m: nat)
    requires Dealable(services, k, m) && Ahead(services, k) == Instances(services[..k]) >= 0
    requires |On(services, turn, k, 0)| == Load(Ahead(services, k), turn)
    ensures |On(services, turn, k, m)| == Load(Ahead(services, k) + m, turn)
  {
    if m > 0 {
      OnService(services, turn, k, m - 1);
      OnNext(services, turn, k, m);
      LoadNext(Ahead(services, k) + m - 1, turn);
    }
  }

  /** and over all of them. */
  lemma {:induction false} OnCount(services: seq<Service>, turn: int -> bool, k: nat)
    requires Dealable(services, k, 0) && forall s :: s in services ==> ServiceOk(s)
    ensures Ahead(services, k) >= 0 && |On(services, turn, k, 0)| == Load(Ahead(services, k), turn)
  {
    if k > 0 {
      AheadIs(services, k - 1);
      OnCount(services, turn, k - 1);
      OnService(services, turn, k - 1, services[k - 1].instances as int);
    }
  }

  lemma OrdinalRange(services: seq<Service>, j: nat, n: nat)
    requires (forall s :: s in services ==> ServiceOk(s)) && j < |services| && 1 <= n <= services[j].instances as int
    ensures 0 <= Instances(services[..j]) <= Ordinal(services, j, n) < Instances(services[..j + 1]) <=
              Instances(services)
  {
    NextTotals(services, j);
  }

  /** Instances are numbered in the order of their services, from zero up to their total, without repetition. */
  lemma OrdinalsDistinct(services: seq<Service>, j: nat, n: nat, k: nat, m: nat)
    requires (forall s :: s in services ==> ServiceOk(s)) && j < k < |services|
    requires 1 <= n <= services[j].instances as int && 1 <= m <= services[k].instances as int
    ensures 0 <= Ordinal(services, j, n) < Ordinal(services, k, m) < Instances(services)
  {
    OrdinalRange(services, j, n);
    OrdinalRange(services, k, m);
    PrefixGrows(services, j + 1, k);
  }

  lemma PrefixGrows(services: seq<Service>, i: nat, j: nat)
    requires i <= j <= |services| && forall s :: s in services ==> ServiceOk(s)
    ensures 0 <= Instances(services[..i]) <= Instances(services[..j]) <= Instances(services)
  {
    TotalsGrow(services, j);
    TotalsGrow(services[..j], i);
    assert services[..j][..i] == services[..i];
  }

  // ----- the graph ------------------------------------------------------------------------------------------------

  ghost function Elements(ids: seq<Id>): set<Id> {
    set id | id in ids
  }

  ghost function IdsOn(nodes: seq<GraphNode>, h: nat): set<Id> {
    set i | 0 <= i < |nodes| && RunsOn(nodes[i], h) :: nodes[i].id
  }

  lemma {:induction false} PlacedCount(nodes: seq<GraphNode>, h: nat)
    requires UniqueIds(nodes)
    ensures PlacedOn(nodes, h) == |IdsOn(nodes, h)|
  {
    if nodes == [] {
      assert IdsOn(nodes, h) == {};
    } else {
      var front, last := nodes[..|nodes| - 1], nodes[|nodes| - 1];
      PlacedCount(front, h);
      forall id | id in IdsOn(front, h) ensures id in IdsOn(nodes, h) && id != last.id {
        var i :| 0 <= i < |front| && RunsOn(front[i], h) && front[i].id == id;
        assert nodes[i] == front[i];
      }
      forall id | id in IdsOn(nodes, h) && id !in IdsOn(front, h) ensures id == last.id && RunsOn(last, h) {
        var i :| 0 <= i < |nodes| && RunsOn(nodes[i], h) && nodes[i].id == id;
        assert forall k :: 0 <= k < |front| ==> front[k] == nodes[k];
      }
      if RunsOn(last, h) {
        assert nodes[|nodes| - 1].id in IdsOn(nodes, h);
        assert IdsOn(nodes, h) == IdsOn(front, h) + {last.id};
      } else {
        assert IdsOn(nodes, h) == IdsOn(front, h);
      }
    }
  }

  /** A workload node of the graph is some instance, on the host whose turn it was. */
  lemma WorkloadIs(s: System, node: GraphNode) returns (j: nat, n: nat)
    requires Genuine(s, node) && IsWorkload(node.id)
    ensures s.host.count > 0 && j < |s.services| && 1 <= n <= s.services[j].instances as int
    ensures node == WorkloadNode(s.services[j], n, HostOf(Ordinal(s.services, j, n), s.host.count as int))
  {
    j, n :| InstancePart(s, j, n, node);
  }

  lemma InstanceOn(s: System, g: Graph, j: nat, n: nat)
    requires ValidSystem(s) && Compiled(s, g) && j < |s.services| && 1 <= n <= s.services[j].instances as int
    ensures var h := HostOf(Ordinal(s.services, j, n), s.host.count as int);
            h >= 0 && WorkloadOf(s.services[j], n) in IdsOn(g.nodes, h)
  {
    var id := WorkloadOf(s.services[j], n);
    assert Belongs(s.services[j], s.services[j].instances as int, id);
    assert Has(s, id);
    assert Contains(g.nodes, id);
    var i :| 0 <= i < |g.nodes| && g.nodes[i].id == id;
    assert Genuine(s, g.nodes[i]);
    var k, m := WorkloadIs(s, g.nodes[i]);
    SameWorkload(s.services, j, n, k, m);
    assert RunsOn(g.nodes[i], HostOf(Ordinal(s.services, j, n), s.host.count as int));
  }

  lemma IdsOnIs(s: System, g: Graph, h: nat)
    requires ValidSystem(s) && Compiled(s, g)
    ensures s.host.count > 0 && Dealable(s.services, |s.services|, 0)
    ensures IdsOn(g.nodes, h) == Elements(On(s.services, Turns(s.host.count as int, h), |s.services|, 0))
  {
    var count := s.host.count as int;
    forall j | 0 <= j < |s.services| ensures s.services[j].instances >= 1 { assert s.services[j] in s.services; }
    forall id | id in IdsOn(g.nodes, h) ensures id in On(s.services, Turns(count, h), |s.services|, 0) {
      var i :| 0 <= i < |g.nodes| && RunsOn(g.nodes[i], h) && g.nodes[i].id == id;
      assert Genuine(s, g.nodes[i]);
      var j, n := WorkloadIs(s, g.nodes[i]);
      OnIs(s.services, Turns(count, h), |s.services|, 0, j, n);
    }
    forall id | id in On(s.services, Turns(count, h), |s.services|, 0) ensures id in IdsOn(g.nodes, h) {
      OnWorkloads(s.services, Turns(count, h), |s.services|, 0, id);
      var j: nat, n: nat :| Within(s.services, |s.services|, 0, j, n) && WorkloadOf(s.services[j], n) == id;
      OnIs(s.services, Turns(count, h), |s.services|, 0, j, n);
      InstanceOn(s, g, j, n);
    }
  }

  lemma DealtCount(services: seq<Service>, count: nat, h: nat)
    requires Dealable(services, |services|, 0) && 1 <= h <= count && forall s :: s in services ==> ServiceOk(s)
    ensures Instances(services) >= 0
    ensures |On(services, Turns(count, h), |services|, 0)| == Instances(services) / count
              + (if h - 1 < Instances(services) % count then 1 else 0)
  {
    assert services[..|services|] == services;
    AheadIs(services, |services|);
    OnCount(services, Turns(count, h), |services|);
    LoadIs(Instances(services), count, h);
  }

  /**
   Of the workloads in a compiled graph every host gets the floor or the ceiling of
   the average, the first hosts the ceiling.
   */
  lemma RoundRobin(s: System, g: Graph, h: nat)
    requires ValidSystem(s) && Compiled(s, g) && 1 <= h <= s.host.count as int
    ensures var total, count := Instances(s.services), s.host.count as int;
            PlacedOn(g.nodes, h) == total / count + (if h - 1 < total % count then 1 else 0)
  {
    PlacedCount(g.nodes, h);
    IdsOnIs(s, g, h);
    OnDistinct(s.services, Turns(s.host.count as int, h), |s.services|, 0);
    DistinctCount(On(s.services, Turns(s.host.count as int, h), |s.services|, 0));
    DealtCount(s.services, s.host.count as int, h);
  }
}
