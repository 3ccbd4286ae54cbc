/** How much memory the compiled graph places on each host, which validation bounds only in sum. */
module HostMemory {
  import opened Base
  import opened Dependencies
  import opened SystemHeader
  import opened SystemSpec
  import opened GraphIds
  import opened SystemGraph
  import opened Placement
  import opened Text
  import Paths

  /** How much memory the workloads take that the nodes place on host `h`. */
  function MemoryOn(nodes: seq<GraphNode>, h: nat): int {
    if nodes == [] then 0
    else
      var last := nodes[|nodes| - 1];
      MemoryOn(nodes[..|nodes| - 1], h) + (if RunsOn(last, h) then last.memory as int else 0)
  }

  /** How much memory the instances take whose turn was taken, read off the contract alone. */
  function DealtMemory(services: seq<Service>, turn: int -> bool, k: nat, m: nat): int
    requires k <= |services| && (m > 0 ==> k < |services|)
    requires forall j :: 0 <= j < |services| ==> services[j].instances >= 1
    decreases k, m
  {
    if m > 0 then
      DealtMemory(services, turn, k, m - 1) + (if turn(Ordinal(services, k, m)) then services[k].memory as int else 0)
    else if k > 0 then DealtMemory(services, turn, k - 1, services[k - 1].instances as int)
    else 0
  }

  function NameIn(id: Id): string {
    match id
    case MicroVm(name, _) => name
    case ProcessInstance(name, _) => name
    case _ => ""
  }

  function Weight(services: seq<Service>, name: string): int {
    if services == [] then 0
    else if services[|services| - 1].name == name then services[|services| - 1].memory as int
    else Weight(services[..|services| - 1], name)
  }

  lemma {:induction false} WeightIs(services: seq<Service>, j: nat)
    requires Unique(services) && j < |services|
    ensures Weight(services, services[j].name) == services[j].memory as int
  {
    var front := services[..|services| - 1];
    if j < |front| {
      assert front[j] == services[j];
      WeightIs(front, j);
    }
  }

  function Sum(services: seq<Service>, ids: seq<Id>): int {
    if ids == [] then 0 else Sum(services, ids[..|ids| - 1]) + Weight(services, NameIn(ids[|ids| - 1]))
  }

  lemma SumNext(services: seq<Service>, ids: seq<Id>, id: Id)
    ensures Sum(services, ids + [id]) == Sum(services, ids) + Weight(services, NameIn(id))
  {
    assert (ids + [id])[..|ids|] == ids;
  }

  lemma {:induction false} SumWithout(services: seq<Service>, ids: seq<Id>, k: nat)
    requires k < |ids|
    ensures Sum(services, ids) == Sum(services, ids[..k] + ids[k + 1..]) + Weight(services, NameIn(ids[k]))
  {
    var front, last := ids[..|ids| - 1], ids[|ids| - 1];
    if k == |front| {
      assert ids[..k] + ids[k + 1..] == front;
    } else {
      SumWithout(services, front, k);
      SumNext(services, front[..k] + front[k + 1..], last);
      assert ids[..k] + ids[k + 1..] == front[..k] + front[k + 1..] + [last];
    }
  }

  /** The same identifiers in another order weigh the same. */
  lemma {:induction false} SumSame(services: seq<Service>, a: seq<Id>, b: seq<Id>)
    requires NoDuplicates(a) && NoDuplicates(b) && forall id :: id in a <==> id in b
    ensures Sum(services, a) == Sum(services, b)
  {
    assert b != [] ==> b[0] in a;
    if a != [] {
      var n := |a| - 1;
      assert a[n] in a;
      var k :| 0 <= k < |b| && b[k] == a[n];
      var rest := b[..k] + b[k + 1..];
      WithoutOne(a, n);
      WithoutOne(b, k);
      assert a[..n] + a[n + 1..] == a[..n];
      SumWithout(services, b, k);
      SumSame(services, a[..n], rest);
    }
  }

  lemma WithoutOne(ids: seq<Id>, k: nat)
    requires NoDuplicates(ids) && k < |ids|
    ensures var rest := ids[..k] + ids[k + 1..];
            NoDuplicates(rest) && forall id :: id in rest <==> id in ids && id != ids[k]
  {
    var rest := ids[..k] + ids[k + 1..];
    assert forall i :: 0 <= i < |rest| ==> rest[i] == ids[if i < k then i else i + 1];
    forall id | id in ids && id != ids[k] ensures id in rest {
      var i :| 0 <= i < |ids| && ids[i] == id;
      assert rest[if i < k then i else i - 1] == id;
    }
  }

  /** The workloads on host `h`, in the order of the nodes. */
  function ListOn(nodes: seq<GraphNode>, h: nat): seq<Id> {
    if nodes == [] then []
    else ListOn(nodes[..|nodes| - 1], h) + (if RunsOn(nodes[|nodes| - 1], h) then [nodes[|nodes| - 1].id] else [])
  }

  lemma {:induction false} ListIs(nodes: seq<GraphNode>, h: nat)
    requires UniqueIds(nodes)
    ensures NoDuplicates(ListOn(nodes, h)) && Elements(ListOn(nodes, h)) == IdsOn(nodes, h)
  {
    if nodes != [] {
      var front, last := nodes[..|nodes| - 1], nodes[|nodes| - 1];
      ListIs(front, h);
      assert forall i :: 0 <= i < |front| ==> front[i] == nodes[i];
      forall id | id in IdsOn(front, h) ensures id in IdsOn(nodes, h) && id != last.id {
        var i :| 0 <= i < |front| && RunsOn(front[i], h) && front[i].id == id;
        assert nodes[i].id == id;
      }
      var before := ListOn(front, h);
      forall i | 0 <= i < |before| ensures before[i] != last.id { assert before[i] in Elements(before); }
      assert forall i :: 0 <= i < |before| ==> ListOn(nodes, h)[i] == before[i];
      forall id | id in IdsOn(nodes, h) ensures id in ListOn(nodes, h) {
        var i :| 0 <= i < |nodes| && RunsOn(nodes[i], h) && nodes[i].id == id;
        if i < |front| { assert id in IdsOn(front, h) && id in Elements(ListOn(front, h)); }
      }
      forall id | id in ListOn(nodes, h) ensures id in IdsOn(nodes, h) {
        assert id in before ==> id in Elements(before);
      }
    }
  }

  lemma {:induction false} MemoryIsSum(s: System, nodes: seq<GraphNode>, h: nat)
    requires Unique(s.services) && forall i :: 0 <= i < |nodes| ==> Genuine(s, nodes[i])
    ensures MemoryOn(nodes, h) == Sum(s.services, ListOn(nodes, h))
  {
    if nodes != [] {
      var front, last := nodes[..|nodes| - 1], nodes[|nodes| - 1];
      assert forall i :: 0 <= i < |front| ==> front[i] == nodes[i];
      MemoryIsSum(s, front, h);
      if RunsOn(last, h) {
        assert Genuine(s, last);
        var j, n := WorkloadIs(s, last);
        WeightIs(s.services, j);
        SumNext(s.services, ListOn(front, h), last.id);
      } else {
        assert ListOn(nodes, h) == ListOn(front, h);
      }
    }
  }

  lemma DealtNext(services: seq<Service>, turn: int -> bool, k: nat, m: nat)
    requires Dealable(services, k, m) && m > 0
    requires DealtMemory(services, turn, k, m - 1) == Sum(services, On(services, turn, k, m - 1))
    ensures DealtMemory(services, turn, k, m) == Sum(services, On(services, turn, k, m))
  {
    WeightIs(services, k);
    SumNext(services, On(services, turn, k, m - 1), WorkloadOf(services[k], m));
    if !turn(Ordinal(services, k, m)) {
      assert On(services, turn, k, m) == On(services, turn, k, m - 1);
    }
  }

  lemma {:induction false} DealtIsSum(services: seq<Service>, turn: int -> bool, k: nat, m: nat)
    requires Dealable(services, k, m)
    ensures DealtMemory(services, turn, k, m) == Sum(services, On(services, turn, k, m))
    decreases k, m
  {
    if m > 0 {
      DealtIsSum(services, turn, k, m - 1);
      DealtNext(services, turn, k, m);
    } else if k > 0 {
      DealtIsSum(services, turn, k - 1, services[k - 1].instances as int);
    }
  }

  /** The memory that the contract deals to host `h`. */
  function DealtTo(s: System, h: nat): int
    requires s.host.count >= 1 && forall j :: 0 <= j < |s.services| ==> s.services[j].instances >= 1
  {
    DealtMemory(s.services, Turns(s.host.count as int, h), |s.services|, 0)
  }

  /** The memory that a compiled graph places on a host is what the contract deals to it. */
  lemma MemoryIsDealt(s: System, g: Graph, h: nat)
    requires ValidSystem(s) && Compiled(s, g)
    ensures s.host.count >= 1 && Dealable(s.services, |s.services|, 0) && MemoryOn(g.nodes, h) == DealtTo(s, h)
  {
    IdsOnIs(s, g, h);
    var dealt := On(s.services, Turns(s.host.count as int, h), |s.services|, 0);
    MemoryIsSum(s, g.nodes, h);
    DealtIsSum(s.services, Turns(s.host.count as int, h), |s.services|, 0);
    ListIs(g.nodes, h);
    OnDistinct(s.services, Turns(s.host.count as int, h), |s.services|, 0);
    forall id ensures id in ListOn(g.nodes, h) <==> id in dealt {
      assert id in Elements(ListOn(g.nodes, h)) <==> id in Elements(dealt);
    }
    SumSame(s.services, ListOn(g.nodes, h), dealt);
  }

  /** No host is given more memory than it has left beside its reserve. */
  ghost predicate EveryHostFits(s: System, g: Graph) {
    forall h: nat :: 1 <= h <= s.host.count as int ==>
        MemoryOn(g.nodes, h) <= s.host.memory as int - s.host.reserve as int
  }

  ghost predicate EveryDealFits(s: System)
    requires s.host.count >= 1 && Dealable(s.services, |s.services|, 0)
  {
    forall h: nat :: 1 <= h <= s.host.count as int ==> DealtTo(s, h) <= s.host.memory as int - s.host.reserve as int
  }

  /** Validation looks at the sum of all hosts only; each host fits exactly if what the contract deals to it does. */
  lemma HostFitIff(s: System, g: Graph)
    requires ValidSystem(s) && Compiled(s, g)
    ensures s.host.count >= 1 && Dealable(s.services, |s.services|, 0)
    ensures EveryHostFits(s, g) <==> EveryDealFits(s)
  {
    MemoryIsDealt(s, g, 1);
    forall h: nat ensures MemoryOn(g.nodes, h) == DealtTo(s, h) { MemoryIsDealt(s, g, h); }
  }

  // ----- a system that overcommits a host ---------------------------------------------------------------------

  function Small(name: string, memory: Int): Service {
    Service(name, "app", "", Process, 1, [], 1, memory, "http", 80, "private")
  }

  /** Two hosts of 100 and three services of 90, 10 and 90. */
  function Uneven(): System {
    System(Header(API_VERSION, "System", "s", "i", "c1", "p"), Host(2, 100, 0),
        [Small("a", 90), Small("b", 10), Small("c", 90)])
  }

  lemma NoLinks(services: seq<Service>)
    requires Unique(services) && forall s :: s in services ==> s.dependsOn == []
    ensures Acyclic(Depends(services))
  {
    var none := Depends(services);
    forall a, b ensures !Edge(none, a, b) {
      assert forall k :: 0 <= k < |services| ==> services[k].dependsOn == [];
    }
    forall p: seq<string> | |p| > 1 ensures !Walk(none, p) { assert !Edge(none, p[0], p[0 + 1]); }
  }

  lemma UnevenSums()
    ensures var s := Uneven(); Instances(s.services) == 3 && GuestMemory(s.services) == 190 && Edges(s.services) == 0
    ensures var s := Uneven(); Instances(s.services[..0]) == 0 && Instances(s.services[..1]) == 1
    ensures Instances(Uneven().services[..2]) == 2
  {
    var a, b, c := Small("a", 90), Small("b", 10), Small("c", 90);
    var one, two, three := [a], [a, b], [a, b, c];
    assert one[..0] == [] && two[..1] == one && three[..2] == two && three[..1] == one && three[..0] == [];
    assert Instances(one) == 1 && GuestMemory(one) == 90 && Edges(one) == 0;
    assert Instances(two) == 2 && GuestMemory(two) == 100 && Edges(two) == 0;
    assert Instances(three) == 3 && GuestMemory(three) == 190 && Edges(three) == 0;
  }

  lemma UnevenHeader()
    ensures HeaderOk(Uneven().header)
  {
    Paths.SplitOnePlain("p");
    assert !Space(Uneven().header.intent[0]);
  }

  lemma SmallIsOk(name: string, memory: Int)
    requires name in ["a", "b", "c"] && 1 <= memory <= 100
    ensures ServiceOk(Small(name, memory))
  {
  }

  lemma UnevenIsValid()
    ensures ValidSystem(Uneven())
  {
    var s := Uneven();
    UnevenHeader();
    UnevenSums();
    SmallIsOk("a", 90);
    SmallIsOk("b", 10);
    SmallIsOk("c", 90);
    NoLinks(s.services);
  }

  /** Accepted, and yet the first host is given 180 of its 100. */
  lemma HostIsOvercommitted(g: Graph)
    requires Compiled(Uneven(), g)
    ensures ValidSystem(Uneven()) && MemoryOn(g.nodes, 1) == 180 && !EveryHostFits(Uneven(), g)
  {
    UnevenIsValid();
    MemoryIsDealt(Uneven(), g, 1);
    UnevenIs(Uneven());
    UnevenSums();
    TwoOfThree();
    DealThree(Uneven().services, Turns(2, 1));
  }

  lemma DealOne(services: seq<Service>, turn: int -> bool, k: nat)
    requires k < |services| && forall j :: 0 <= j < |services| ==> services[j].instances == 1
    ensures DealtMemory(services, turn, k + 1, 0) == DealtMemory(services, turn, k, 0)
              + (if turn(Instances(services[..k])) then services[k].memory as int else 0)
  {
    assert DealtMemory(services, turn, k + 1, 0) == DealtMemory(services, turn, k, 1);
    assert Ordinal(services, k, 1) == Instances(services[..k]);
  }

  lemma TurnIs(count: nat, h: nat, o: nat)
    requires count > 0
    ensures Turns(count, h)(o) <==> HostOf(o, count) == h
  {
  }

  lemma TwoOfThree()
    ensures Turns(2, 1)(0) && !Turns(2, 1)(1) && Turns(2, 1)(2)
  {
    Remainder(0, 2, 0, 0);
    Remainder(1, 2, 0, 1);
    Remainder(2, 2, 1, 0);
    TurnIs(2, 1, 0);
    TurnIs(2, 1, 1);
    TurnIs(2, 1, 2);
  }

  lemma DealThree(services: seq<Service>, turn: int -> bool)
    requires |services| == 3 && forall j :: 0 <= j < |services| ==> services[j].instances == 1
    requires Instances(services[..0]) == 0 && Instances(services[..1]) == 1 && Instances(services[..2]) == 2
    requires turn(0) && !turn(1) && turn(2)
    ensures DealtMemory(services, turn, |services|, 0) == services[0].memory as int + services[2].memory as int
  {
    DealOne(services, turn, 0);
    DealOne(services, turn, 1);
    DealOne(services, turn, 2);
  }

  lemma UnevenIs(s: System)
    requires s == Uneven()
    ensures s.host == Host(2, 100, 0) && |s.services| == 3 && forall j :: 0 <= j < 3 ==> s.services[j].instances == 1
    ensures s.services[0].memory == 90 && s.services[2].memory == 90
  {
  }
}
