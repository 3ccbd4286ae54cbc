/** A System contract, and what a valid one is over unbounded integers. */
module SystemSpec {
  import opened Base
  import opened Dependencies
  import opened SystemHeader

  const MAX_INT: int := 0x7fff_ffff_ffff_ffff
  const MAX_NODES: int := 10000
  const MAX_EDGES: int := 100000

  datatype Isolation = Firecracker | Process | Unsupported

  datatype Service = Service(
    name: string,
    kind: string,
    engine: string,
    isolation: Isolation,
    instances: Int,
    dependsOn: seq<string>,
    vcpu: Int,
    memory: Int,
    protocol: string,
    port: Int,
    networking: string)

  datatype Host = Host(count: Int, memory: Int, reserve: Int)

  datatype System = System(header: Header, host: Host, services: seq<Service>)

  // ----- what a valid contract is, over unbounded integers --------------------------------------

  predicate ServiceOk(s: Service) {
    && SafeName(s.name) && s.kind != "" && s.instances >= 1 && s.vcpu >= 1 && s.memory >= 1
    && s.isolation != Unsupported && (s.kind == "database" ==> s.engine != "")
    && s.protocol != "" && 1 <= s.port <= 65535
  }

  predicate HostOk(h: Host) {
    h.count >= 1 && h.memory >= 1 && 0 <= h.reserve < h.memory
  }

  ghost predicate Unique(services: seq<Service>) {
    forall i, j :: 0 <= i < j < |services| ==> services[i].name != services[j].name
  }

  ghost function Declared(services: seq<Service>): set<string> {
    set s | s in services :: s.name
  }

  ghost predicate LinksOk(services: seq<Service>, s: Service) {
    NoDuplicates(s.dependsOn) && forall d :: d in s.dependsOn ==> d != s.name && d in Declared(services)
  }

  function Instances(services: seq<Service>): int {
    if services == [] then 0 else Instances(services[..|services| - 1]) + services[|services| - 1].instances as int
  }

  function GuestMemory(services: seq<Service>): int {
    if services == [] then 0
    else
      var last := services[|services| - 1];
      GuestMemory(services[..|services| - 1]) + last.instances as int * last.memory as int
  }

  function Edges(services: seq<Service>): int {
    if services == [] then 0
    else
      var last := services[|services| - 1];
      Edges(services[..|services| - 1]) + |last.dependsOn| * last.instances as int
  }

  predicate Needs(services: seq<Service>, isolation: Isolation) {
    exists i :: 0 <= i < |services| && services[i].isolation == isolation
  }

  function Runtimes(services: seq<Service>): int {
    (if Needs(services, Firecracker) then 1 else 0) + (if Needs(services, Process) then 1 else 0)
  }

  /** The size of the compiled graph. */
  function NodeCount(s: System): int {
    1 + s.host.count as int * (1 + Runtimes(s.services)) + 2 * Instances(s.services)
  }

  function Available(h: Host): int {
    h.count as int * (h.memory as int - h.reserve as int)
  }

  /** The declared dependency relation. */
  ghost function Depends(services: seq<Service>): Relation
    requires Unique(services)
  {
    map i | 0 <= i < |services| :: services[i].name := services[i].dependsOn
  }

  ghost predicate ServicesOk(services: seq<Service>) {
    && services != [] && Unique(services)
    && (forall s :: s in services ==> ServiceOk(s))
    && (forall s :: s in services ==> LinksOk(services, s))
  }

  ghost predicate ValidSystem(s: System) {
    && HeaderOk(s.header) && HostOk(s.host) && ServicesOk(s.services)
    && Acyclic(Depends(s.services))
    && Edges(s.services) <= MAX_EDGES && NodeCount(s) <= MAX_NODES
    && s.host.count as int * s.host.memory as int <= MAX_INT
    && GuestMemory(s.services) <= Available(s.host)
  }
}
