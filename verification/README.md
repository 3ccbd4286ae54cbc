# Canter in Dafny

Canter provisions compute for a declared system, releases code to it, and keeps
both running. This project models the parts of it where a mistake would be
expensive, and proves what they are for:

- **Compute and endpoint lifecycle** (`Lifecycle*.dfy`, `CreateBound.dfy`,
  `ExposureOnce.dfy`, `EndpointOrphans.dfy`, `EndpointRuns.dfy`, `*Alone.dfy`,
  `StateRegister.dfy`). Any number of Apply, Destroy, cleanup
  and expose workers share one durable state object that they change only by
  compare-and-swap. Every read, swap and provider call is a step of its own; a worker
  may stop forever between any two steps, an acknowledgement may be lost after the
  write took effect, and a create call may produce its server arbitrarily late. The
  theorems quantify over every sequence of events. The proof is a
  rely/guarantee argument: `Guarantee` says what one turn may do to the shared world,
  `Evolves` what the others may rely on, and `LifecycleSafety.WorkerStable` that what
  a worker knows survives the turns of all others. `LifecycleIntent.dfy` and
  `LifecycleListing.dfy` say exactly when the stored intent passes its own test and when
  the resource listing shows what is there; `LifecycleRuns.dfy` and `EndpointRuns.dfy`
  hold the runs in which they do not. The other half is that workers get to their end:
  `LifecycleAlone.dfy` says what it means to be left alone with truthful and successful
  answers, and `DestroyAlone.dfy`, `ApplyAlone.dfy` and `ExposeAlone.dfy` prove, from
  every reachable state, where that leads.
- **Change ledger and lease** (`ChangeLedger.dfy`, `Lease.dfy`). The write-ahead log
  of one change with digest-bound authorization and compensation, and the
  fencing-token lease that guards its execution.
- **System compiler** (`SystemHeader.dfy`, `Dependencies.dfy`, `SystemSpec.dfy`,
  `SystemValidate.dfy`, `GraphIds.dfy`, `Sorting.dfy`, `SystemGraph.dfy`,
  `Placement.dfy`, `HostMemory.dfy`, `GraphEdges.dfy`, `GraphInvariants.dfy`). Validation in 64-bit machine integers, the
  worklist cycle check, and the expansion into an execution graph.
- **Node fleet** (`Fleet.dfy`). Processes, ports and routes, while the proxy goes on
  sending requests: `Requests` stands between the steps of a reconcile.
- **Durable control-plane machines** (`Meter.dfy`, `ExecutionQueue.dfy`,
  `QueueReceipts.dfy`, `ToolLedger.dfy`). Exact fractional-cent metering, the claim/renew/complete queue
  of initial deployments, and the at-most-once tool ledger.
- **Parsers and validators** (`Text.dfy`, `Paths.dfy`, `Archive.dfy`, `WebP.dfy`,
  `WebPSizes.dfy`, `Paging.dfy`, `EnvFile.dfy`).

Objects that the source updates in place are classes (`StateRegister.Register`,
`ChangeLedger.Ledger`, `Fleet.Node`, `Meter.Table`), and its loops are loops. The
protocols with many concurrent participants are state machines: a function from a
state and an event to the next state, and a `Run` over any list of events. What the
outside answers to a class is given beforehand as functions (`ChangeLedger.Ledger.world`
and `outcome`, `Fleet.Node.starts` and `healthy`, `StateRegister.Register.passes`), so
that a contract can say what a method does exactly if nothing outside fails.

## Hypotheses

- Lifecycle: one create call yields at most one server and one expose call at most one
  policy, arbitrarily late; a successful delete removes it, lookups return something that
  is there or nothing, and new identifiers are fresh.
- Lease: the clock is monotone and the object store's conditional writes are
  atomic.
- Ledger: calls on one change do not overlap (`ApplyChange` reads the change before
  it takes the lease, `sdk/change.go:438` and `sdk/change.go:452`); they may stop
  anywhere.
- Fleet: the proxy's acquire and release are atomic, as their mutex makes them, and
  interleave with the launches, publications, drain waits and stops of a reconcile.
- Queue and tool ledger: each SQL transaction is one atomic step, and the unique
  keys that the statements rely on hold.
- Digest: `ChangeLedger.OnlyAuthorizedRuns` alone takes it to be injective.

## Where the code does less than one might expect

- Two Apply workers can strand an operation: one acquires an attempt without looking at
  the network index again (`sdk/client.go:560-569`) after the other has used up the last
  network. `LifecycleRuns.TwoAppliesStrand` is such a run. The stored intent then fails
  its own test (`sdk/client.go:373`), so every later Apply refuses it, and no Destroy can
  finish (`LifecycleIntent.StuckForever`). `LifecycleIntent.AcquireFitsIff` and
  `LifecycleIntent.ResumableIff` are the exact conditions, for one step and for every
  run, and `LifecycleIntent.SoloIsResumable` shows that one Apply at a time is enough.
- `State.Resources` does not always mirror the resource intents, because a resource is
  removed from it before the outcome of its deletion is examined
  (`sdk/client.go:902-905`). `LifecycleRuns.FailedDeleteUnlists` is a run that ends with
  a proven replica, a live server and an empty list; `LifecycleListing.ListedIff` is the
  exact condition in every run and `LifecycleListing.FinishUnlistsIff` that of the step.
- A stale Apply worker may clean up a server whenever the phase is `escalated`
  (`sdk/client.go:867`). `LifecycleListing.WhoDeletes` lists everyone who can take the
  server of a proven replica away.
- An operator's recovery asks the provider again while the first request may still be
  answered (`sdk/release.go:518`). `EndpointRuns.RecoveryOrphans` is a run that ends
  `destroyed` with an endpoint open; by `EndpointOrphans.NoOrphanedEndpoints` that takes
  a recovery which made a policy of its own instead of finding the one there was.
- Compensation restores the manifest stored for the base version
  (`sdk/change.go:661-667`): `ChangeLedger.RevertRestoresIff` says exactly when that is
  what was desired before, and by `ChangeLedger.ScaledBaseIsLost` a base that was scaled
  after its release is not.
- Placement is checked against aggregate memory only (`sdk/system.go:290`).
  `HostMemory.HostIsOvercommitted` is an accepted system of two hosts of 100 whose first
  host is given 180; `HostMemory.HostFitIff` is the exact condition, read off the
  contract.
- The env file does not always give back what was written. An agent token written
  empty while the file holds a nonempty token under its old name reads as the old one
  (`EnvFile.EmptyTokenComesBack`), and a value whose quoted line does not fit the
  scanner's buffer is written and then makes the whole file unreadable
  (`EnvFile.LongValueIsLost`). `EnvFile.ReadAfterPersist` is the exact condition.
- The running byte count of an archive wraps around and then passes its limit; only
  the copy that follows refuses such an entry (`Archive.AddPayload`, `Archive.Consume`).
- Following `nextOffset` makes progress exactly if the next character fits the page:
  `Paging.ThreeBytesStall` is a page that does not advance, `Paging.ProgressIff` the
  exact condition.
- The control plane accepts an archive exactly if the node does, it holds at least one
  regular file and is at most 64 MiB long before it is unpacked (`Archive.ReadersAgree`).

## Model

| member | source | states |
|---|---|---|
| `Lifecycle.NoOrphans` | sdk/client.go:968-1142 | in every interleaving, once the durable phase is `destroyed` every replica intent is destroyed, no server is live, and no create attempt of any operation can still produce one; that it is reached is `DestroyAlone.DestroyEnds` |
| `Lifecycle.LiveIsAccounted` | sdk/client.go:394-552 | at every moment, whatever is live or may still come alive belongs to the current operation and to the one attempt its replica intent names; an attached intent names that very server |
| `DestroyAlone.DestroyEnds` | sdk/client.go:968-1142 | from every reachable state a Destroy left alone, seeing what is there and meeting only successes, ends: in `destroyed`, with every replica gone and no server live, exactly if every replica is gone, has a live server or surely never got one, and the exposure is certain, on record or visible; otherwise in `escalated` |
| `DestroyAlone.ReadyIsDestroyed` | sdk/client.go:1014-1142 | so a ready sandbox with a live server for every replica, never exposed or with an open exposure, is destroyed |
| `ApplyAlone.ApplyCreates` | sdk/client.go:325-552 | from every reachable state without a sandbox or with a destroyed one, an Apply left alone with at least one network ends `ready`, with as many replicas as specified, each proven on a live server of its own |
| `ApplyAlone.ApplyResumes` | sdk/client.go:394-552 | from every reachable creating state, wherever its workers stopped, an Apply left alone ends `ready` if every replica is proven, or has a network left and no server yet or a live one |
| `LifecycleProof.ProvenWasProved` | sdk/client.go:530-540 | in every run a replica is stored as ready only because some worker saw the proof of that very operation, replica and attempt succeed |
| `LifecycleBranches.FailedProofFails` | sdk/client.go:530-536 | a proof that fails makes the sandbox `failed` and touches no replica |
| `LifecycleBranches.AmbiguityEscalates` | sdk/client.go:829-847 | a lookup that finds more servers than there may be escalates |
| `LifecycleBranches.NoAddressMovesOn` | sdk/client.go:514-525 | a server without an address is deleted and its replica starts again on the next network |
| `LifecycleBranches.CleanupClears` | sdk/client.go:849-916 | a cleanup that meets no failure deletes its server and leaves the replica destroyed |
| `Lifecycle.RunInv` | sdk/client.go:394-584 | the shared invariant holds in every state that any interleaving with crashes and lost acknowledgements reaches, and no two workers ever hold the same create grant |
| `Lifecycle.ActOk` | sdk/client.go:849-916 | no turn of an Apply, cleanup, Destroy or expose worker, whatever it meets, breaks the shared invariant or what the other workers rely on |
| `LifecycleSafety.WorkerStable` | sdk/client.go:662-698 | what a worker knows between its read and its write (its snapshot is no newer than the store, its server belongs to its attempt, its fence still stands) survives everything the others may do |
| `LifecycleSteps.NewIntentCore` | sdk/client.go:325-359 | a new intent may replace a destroyed state: it leaves nothing outstanding behind |
| `LifecycleSteps.GrantCore` | sdk/client.go:554-584 | granting a create attempt for a pending replica keeps the invariant: nothing else of that replica is outstanding when the grant is written |
| `LifecycleSteps.SeenIsMine` | sdk/client.go:586-622 | a live server whose ownership tags name this operation and replica was produced by the attempt that the intent names now |
| `LifecycleTeardown.SeenCovers` | sdk/client.go:1172-1197 | if Destroy's lookup sees one live server of a replica, then everything the replica may have outstanding is among what was seen |
| `LifecycleTeardown.FenceCore` | sdk/client.go:997-1012 | taking Destroy's fence keeps the invariant, after which no new create can be granted to the operation |
| `LifecycleTeardown.TearGoneCore` | sdk/client.go:1014-1100 | marking a replica destroyed is sound once nothing of it is outstanding, and extends the destroyed part of the intent by one |
| `LifecycleCommits.SlotAscends` | sdk/client.go:700-785 | every committed attach, active, exhausted or ready step happens in phase `creating` under its own operation and attempt, moves that replica strictly up in (network, phase) and leaves every other replica alone |
| `LifecycleCommits.AcquireAscends` | sdk/client.go:554-584 | so does acquiring an attempt: only from `pending`, to a new attempt on the same network |
| `LifecycleCommits.RunLater` | sdk/client.go:662-785 | between any two moments of any run: operation names only grow, a destroyed replica stays destroyed, no replica of a creating operation moves down, and a destroyed state is left only for a new operation |
| `LifecycleCommits.StaleNeverCommits` | sdk/client.go:662-698 | whoever changes the durable state holds the operation, attempt or exposure the state names at that moment, in a phase that admits the change; nothing of creation or exposure commits behind Destroy's fence |
| `CreateBound.CreatedOncePerNetwork` | sdk/client.go:433-444 | the provider create is called at most once per operation, replica and network, and only within the specification's replicas and networks |
| `CreateBound.CreateCallBound` | sdk/client.go:394-552 | the create calls of an operation never exceed replicas times networks, whatever races or crashes |
| `LifecycleIntent.ResumableIs` | sdk/client.go:361-378 | the test of a stored intent passes exactly if it has an operation, a network, the wanted number of replicas, and no replica beyond its networks, at their end in another phase than `pending`, or launching without an attempt |
| `LifecycleIntent.AcquireFitsIff` | sdk/client.go:554-584 | acquiring an attempt keeps a well-formed intent well formed exactly if the replica has a network left |
| `LifecycleIntent.MutateFits` | sdk/client.go:662-785 | every other transition of an Apply keeps it well formed |
| `LifecycleIntent.CleanupNotCreating` | sdk/client.go:849-916 | cleanup writes only in phases in which nothing is created |
| `LifecycleIntent.DestroyNotCreating` | sdk/client.go:997-1012 | after Destroy's fence nothing is created, and its later writes happen behind it |
| `LifecycleIntent.ResumableIff` | sdk/client.go:361-378 | in every run: while `creating`, the stored intent passes its test exactly if its operation lists a network and no attempt of it was granted beyond its networks |
| `LifecycleIntent.StuckForever` | sdk/client.go:968-1142 | once an attempt was granted beyond the networks, then in every continuation it is never called, its operation stays current and the state never becomes `destroyed` |
| `LifecycleIntent.SoloIsResumable` | sdk/client.go:394-552 | if at no moment two workers are inside the creation, however often one stops and another takes over, a creating state always passes its test |
| `LifecycleRuns.TwoAppliesStrand` | sdk/client.go:554-584 | a run of two Apply workers that leaves an intent failing its test, which no continuation brings to `destroyed` |
| `LifecycleListing.ListedIff` | sdk/client.go:700-765 | in every run: a replica that is attached, active or proven is listed, with its own server and once, exactly if no cleanup of its attempt ended with a failed delete |
| `LifecycleListing.StruckOutIff` | sdk/client.go:1076-1100 | in every run an entry of the listing is marked deleted exactly if its replica is destroyed |
| `LifecycleListing.FinishUnlistsIff` | sdk/client.go:884-911 | the end of a cleanup leaves a serving replica unlisted exactly if its delete failed and it was serving before |
| `LifecycleRuns.FailedDeleteUnlists` | sdk/client.go:894-911 | a run that ends with a proven replica, a live server and an empty listing |
| `LifecycleListing.WhoDeletes` | sdk/client.go:849-916 | in every run, whoever takes the server of a proven replica away is an Apply that discards it, a Destroy that has it on its list, or a cleanup of that very operation, replica and attempt |
| `ExposureOnce.ExposedOnce` | sdk/release.go:454-548 | the provider expose call is made at most once per creation operation across all workers |
| `ExposureOnce.ClaimOnce` | sdk/release.go:470-482 | only a claim that was never made before for its creation operation entitles a worker to the expose call |
| `ExposureOnce.ReadyHasPolicy` | sdk/release.go:582-622 | in every reachable state an exposure in phase `ready` has a recorded policy with its name and ownership |
| `ExposeAlone.ExposeOpens` | sdk/release.go:454-548 | from every reachable state that is ready with one host and never exposed, an exposure left alone ends with an open endpoint of the requested identity at that host, recorded as the only policy |
| `ExposeAlone.ExposeTakesUp` | sdk/release.go:524-535 | an exposure that was claimed and left is taken up: the policy that can be seen is recorded, and without one it escalates, never asking for another |
| `EndpointOrphans.NoOrphanedEndpoints` | sdk/client.go:968-1142 | in every run in which no operator recovery made a policy of its own: once the durable phase is `destroyed`, no policy is open and no exposure of any operation can still produce one |
| `EndpointOrphans.NoRecoveryNoRemake` | sdk/release.go:503-522 | runs in which no recovery was asked for are such runs |
| `EndpointOrphans.OpenIsAnswered` | sdk/release.go:454-548 | before that, whatever is open or may still open belongs to the one exposure on record, which is unresolved or has that policy recorded |
| `EndpointRuns.RecoveryOrphans` | sdk/release.go:504-522 | a run with an operator's recovery that ends `destroyed` with an endpoint open |
| `StateRegister.Register.Mutate` | sdk/client.go:1144-1170 | the retry loop is one atomic transition of the state found at that moment or nothing at all, however others interfere and whatever acknowledgements are lost; its first pass that nobody disturbs carries the transition out exactly; it ends without knowing only after a failure or eight conflicts |
| `StateRegister.Register.MutateCreationState` | sdk/client.go:662-698 | if the loop wrote, it wrote once, over a state of its own operation that no Destroy had fenced; undisturbed, it does exactly the transition |
| `LifecycleState.ListIndex` | sdk/client.go:918-926 | the entry updated in the resource list is the first with this server or this replica |
| `LifecycleState.RemovePolicy` | sdk/release.go:687-695 | exactly the policies with another identifier remain |
| `LifecycleState.RemovePolicyParts` | sdk/release.go:687-695 | removal works part by part, so the others keep their order and their number |
| `ChangeLedger.Ledger.Authorize` | sdk/change.go:408-435 | authorization succeeds exactly for a drafted change and the digest of the plan and program on record, if the save is acknowledged, and changes nothing else |
| `ChangeLedger.Ledger.Apply` | sdk/change.go:437-514 | from any record and stopping anywhere, the ledger's invariant is kept and terminal and drafted records are left untouched; if nothing outside fails, the call ends the change: committed exactly if every operation that is left works, else reverted or rejected; and it finishes a compensation it found under way |
| `ChangeLedger.Ledger.RunProgram` | sdk/change.go:463-504 | if nothing outside fails, it runs through exactly if every operation that is left works, and otherwise the change is compensated for |
| `ChangeLedger.Ledger.Advance` | sdk/change.go:468-503 | one turn writes ahead, executes and records: the operation is completed exactly if it works, and one that does not work is compensated for |
| `ChangeLedger.Ledger.Execute` | sdk/change.go:516-620 | executing the running operation writes the desired release at most once, and then the planned one; it succeeds exactly if the environment's answer is yes, the write is acknowledged and the plan provides what it needs |
| `ChangeLedger.Ledger.Compensate` | sdk/change.go:622-683 | compensation ends in `reverted` if anything compensable was begun, else in `rejected`; if nothing outside fails and the base manifest is stored, it does end |
| `ChangeLedger.Ledger.UndoScale` | sdk/change.go:634-654 | undoing a scale that was begun leaves, as the last desired release, the released version and artifact at the count from before the scale, without a capacity lease |
| `ChangeLedger.Ledger.UndoRelease` | sdk/change.go:655-678 | undoing a release that was begun leaves the manifest stored for the base version as the last desired release; it succeeds only if there is one |
| `ChangeLedger.Outcomes` | sdk/change.go:437-514 | in every valid ledger: completed operations are a prefix of the program and the evidence names exactly that prefix in order; the phase is `verifying` exactly while a verification runs; committed means all of it; rejected means that nothing that writes the desired release was begun, no migration was completed and the desired release was never written; reverted means that the last write is the compensation manifest and that a completed migration is named as a residual |
| `ChangeLedger.RevertRestoresIff` | sdk/change.go:634-678 | a reverted change has put back an earlier desired release exactly if that was the manifest stored for the base version or, where only a scale had begun, has the version and artifact of the planned release, the count from before the scale and no lease |
| `ChangeLedger.ScaledBaseIsLost` | sdk/change.go:661-667 | a base that was scaled after its release comes back at the count of its release |
| `ChangeLedger.AnyHistory` | sdk/change.go:408-514 | from a draft through any number of authorizations and calls that stop anywhere: those outcomes hold of the drafted plan and program, and nothing was executed without the authorization of their digest |
| `ChangeLedger.HistoryIsFaithful` | sdk/change.go:448-451 | plan, program and digest never change, a terminal record is the last one ever written, and a live record always passes its digest recheck |
| `ChangeLedger.OnlyAuthorizedRuns` | sdk/change.go:800-821 | with an injective digest, whatever passes the recheck is the plan and program that was authorized |
| `ChangeLedger.ExecutesForward` | sdk/change.go:463-483 | operations execute in program order, never before their log entry and never again once completed |
| `ChangeLedger.CompletedPrefix` | sdk/change.go:828-844 | an ordered log's completed operations are exactly an initial part of the program |
| `Lease.OneGuardPasses` | sdk/change.go:947-962 | at any instant of any run at most one guard can pass its assertion |
| `Lease.UnexpiredIsNeverReplaced` | sdk/change.go:890-920 | a lease passes to another holder or change only once it has expired |
| `Lease.SupersededForever` | sdk/change.go:922-980 | a guard whose token was replaced never passes again, whatever its heartbeat and Close do |
| `Lease.FreeCanBeTaken` | sdk/change.go:890-920 | whenever no lease is live, a new contender that meets no failure gets one for its change, twenty seconds long, and its guard passes |
| `Lease.LiveRefuses` | sdk/change.go:906-908 | a live lease turns every newcomer away |
| `Lease.HeartbeatExtends` | sdk/change.go:922-945 | an acknowledged heartbeat carries a passing guard twenty seconds on |
| `Lease.UnansweredHeartbeatBreaks` | sdk/change.go:933-940 | one that is not acknowledged breaks the guard, even where its write took effect |
| `Lease.CloseFrees` | sdk/change.go:970-980 | closing gives the lease up: the guard passes no more and the next contender can have it at once |
| `Dependencies.Drain` | sdk/system.go:247-267 | the worklist ends for every input and leaves all dependency counts at zero exactly if the relation has no cycle |
| `Dependencies.Release` | sdk/system.go:253-262 | popping a service lowers exactly its dependents' counts and makes ready exactly those that reach zero |
| `Dependencies.OrderedIsAcyclic` | sdk/system.go:263-267 | a relation whose every member was popped after its dependencies has no cycle |
| `Dependencies.StuckIsCyclic` | sdk/system.go:263-267 | if every remaining service still waits for a remaining one, there is a cycle |
| `SystemValidate.Validate` | sdk/system.go:170-294 | with every intermediate a 64-bit integer, validation accepts exactly the systems whose text is in order, that satisfy the limits read as exact arithmetic and whose dependencies have no cycle |
| `SystemValidate.CheckService` | sdk/system.go:194-222 | the overflow guards refuse exactly the services whose exact instance or memory totals exceed their limits |
| `SystemValidate.CheckServices` | sdk/system.go:190-223 | accepted exactly if names are unique and every service and the totals are within limits; the totals are exact |
| `SystemValidate.CheckLinks` | sdk/system.go:228-237 | accepted exactly if dependencies are declared, distinct and not the service itself |
| `SystemValidate.LinkServices` | sdk/system.go:224-246 | the counts are the numbers of dependencies and the dependents are the reversed relation |
| `SystemValidate.SpendEdges` | sdk/system.go:238-241 | the division guard refuses exactly if the exact edge total exceeds its limit |
| `SystemValidate.FirstReady` | sdk/system.go:247-252 | the initial worklist holds exactly the services without dependencies, each once |
| `SystemValidate.CheckCycles` | sdk/system.go:247-267 | accepted exactly if the declared dependencies have no cycle |
| `SystemValidate.CountRuntimes` | sdk/system.go:275-286 | the number of isolation kinds in use |
| `SystemValidate.CheckHost` | sdk/system.go:268-292 | accepted exactly if host products, the node total and the guest memory stay within their limits in exact arithmetic |
| `SystemHeader.CheckHeader` | sdk/system.go:171-189 | accepted exactly with the right version and kind, a valid name, a visible intent, a known compute class and a safe prefix |
| `SystemHeader.CheckPrefix` | sdk/spec.go:26-36 | accepted exactly if at most 512 characters split at slashes into safe nonempty segments; slashes at the ends need no test of their own |
| `SystemGraph.Compile` | sdk/system.go:296-362 | compilation succeeds exactly for valid systems; the graph has unique sorted nodes, exactly those declared by hosts, runtimes and instances with their kinds, links, resources and properties, 1 + hosts*(1 + runtimes) + 2*instances in number and at most 10000, the invariants in order, and exact capacity figures |
| `GraphEdges.EdgesAre` | sdk/system.go:313-347 | the edges of a compiled graph, exactly: from a runtime to its host; from a workload to the runtime of its isolation on the host where it is placed; and from an instance of a service to its own workload, to the namespace, and to the first instance of everything the service declares to depend on |
| `GraphEdges.WorkloadIsThere` | sdk/system.go:323-346 | every declared instance has a workload node of its isolation, with the resources of its service, placed on the host whose turn it is |
| `GraphEdges.EndpointIsThere` | sdk/system.go:335-347 | and an endpoint node on that workload, with its kind, readiness, networking and, for a database, its binding |
| `GraphEdges.HostIsThere` | sdk/system.go:310-313 | every host is there with its class and memory |
| `GraphEdges.NamespaceIsThere` | sdk/system.go:307-309 | so is the namespace with its prefix |
| `GraphEdges.NodesAscend` | sdk/system.go:356-356 | the nodes stand in the dictionary order of their rendered identifiers |
| `SystemGraph.MakeHosts` | sdk/system.go:310-320 | exactly the host and runtime nodes of every host, and their capability invariants |
| `SystemGraph.MakeService` | sdk/system.go:323-355 | exactly the nodes and invariants of the service's instances, dealt on from where the last service stopped, and its exact memory |
| `SystemGraph.MakeCapacity` | sdk/system.go:357-360 | host memory is reserve plus guest plus a nonnegative remainder, with no overflow |
| `SystemGraph.RenderedIdsAreUnique` | sdk/system.go:307-347 | no two nodes of a compiled graph render to the same identifier string |
| `SystemGraph.GraphIsClosed` | sdk/system.go:313-347 | every dependency and every placement names a node of the graph |
| `SystemGraph.GraphIsAcyclic` | sdk/system.go:340-347 | the compiled graph has no cycle |
| `Placement.RoundRobin` | sdk/system.go:321-354 | in a compiled graph the workload nodes placed on each host number the floor or the ceiling of the average, the first hosts the ceiling |
| `Placement.OrdinalsDistinct` | sdk/system.go:323-354 | instances are dealt in one consecutive sequence across services, no turn twice |
| `HostMemory.MemoryIsDealt` | sdk/system.go:321-354 | the memory of the workload nodes that a compiled graph places on a host is what the contract deals to it |
| `HostMemory.HostFitIff` | sdk/system.go:290-292 | every host can hold what is placed on it exactly if the memory that the contract deals to each stays within its memory beside the reserve |
| `HostMemory.HostIsOvercommitted` | sdk/system.go:290-292 | a valid system whose compiled graph gives a host 180 of its 100 |
| `GraphInvariants.InvariantsClosed` | sdk/system.go:314-352 | every invariant is about a node of the graph |
| `GraphInvariants.InvariantsAre` | sdk/system.go:314-352 | the invariants, exactly: every instance's memory and readiness, and the virtualization of every host if any service runs in a microVM |
| `GraphInvariants.BindingsAreUnique` | sdk/system.go:83-103 | no two services of a valid system share a binding variable |
| `GraphInvariants.UpperAt` | sdk/system.go:83-103 | in a binding name letters are raised, digits stay and everything else becomes an underscore |
| `SystemGraph.ScaleCapacity` | sdk/change.go:328-357 | the largest replica count that fits beside the other services, never below the declared instances; refused exactly for invalid or multi-host systems and unknown or unscalable services |
| `GraphIds.NumberedInjective` | sdk/system.go:327-334 | rendering a name and a number is injective |
| `GraphIds.ValueDecimal` | sdk/system.go:327-334 | reading a rendered number gives it back |
| `GraphIds.RenderInjective` | sdk/system.go:307-334 | so is rendering any node identifier, across all kinds of nodes |
| `Sorting.SortOk` | sdk/system.go:356-356 | sorting orders the nodes and keeps exactly their multiset |
| `Fleet.Node.Reconcile` | cmd/canter-node/main.go:243-307 | with requests coming and going all the while: it fails exactly if the release cannot run, or one of the launches it takes will fail or find no port, and then active set and routes are unchanged; success means exactly the wanted replicas of the wanted identity, keeping those already there; every launched process is active or stopped; no instant shows an open routing table closed or a route to a stopped process; and no request is in flight at a stopped process unless its drain wait timed out |
| `Fleet.Node.Replace` | cmd/canter-node/main.go:255-281 | the same for a whole new fleet, none of whose processes is an old one, with the restart counted |
| `Fleet.Node.Grow` | cmd/canter-node/main.go:282-296 | the same for added replicas, the old ones kept in place |
| `Fleet.Node.Shrink` | cmd/canter-node/main.go:297-305 | the first replicas stay; the others are stopped after they left the routes |
| `Fleet.Node.LaunchMany` | cmd/canter-node/main.go:258-268 | all wanted processes start on distinct fresh ports, exactly if all these launches work and there are ports for them; otherwise every one that started is stopped |
| `Fleet.Node.Launch` | cmd/canter-node/main.go:397-402 | there is a process exactly if it has a port, starts and becomes healthy; one that does not become healthy is stopped again |
| `Fleet.Node.NextPort` | cmd/canter-node/main.go:330-344 | the lowest private port that no listed process uses, and 0 only if all are in use |
| `Fleet.Node.ReapExited` | cmd/canter-node/main.go:309-328 | exactly the exited processes leave the active set and then the routes, each counted once, while requests come and go; only those processes lose requests |
| `Fleet.Node.Publish` | cmd/canter-node/main.go:728-737 | the routes become exactly the ports of the published processes, all of them running |
| `Fleet.Node.Acquire` | cmd/canter-node/main.go:711-720 | the next target in turn, counted in flight once at the active process behind it; none exactly if there is no route |
| `Fleet.Node.Release` | cmd/canter-node/main.go:721-725 | releasing takes back exactly one count, and no count goes below zero |
| `Fleet.Node.WaitForDrain` | cmd/canter-node/main.go:751-771 | a wait that sees no count left leaves no request at the process, whatever the proxy does, and an idle process is never waited for; otherwise it counts as timed out |
| `Fleet.Node.Requests` | cmd/canter-node/main.go:160-173 | however many requests begin and end, the counters stay exact and new ones go only to active processes |
| `Fleet.Node.Stop` | cmd/canter-node/main.go:629-648 | stopping a process outside the active set leaves every route served, and cuts off requests only without a completed wait |
| `Meter.Table.Record` | internal/controlplane/billing_collector.go:135-204 | a snapshot is refused exactly outside an active period; otherwise the rows are exactly those of its resources, each with its run of observations carried on once and its account exact, and new events fall inside the period |
| `Meter.Table.Observe` | internal/controlplane/billing_collector.go:151-194 | one resource's run is extended, restarted for another period, or left alone for an old observation, and every account stays exact |
| `Meter.Table.Accrue` | internal/controlplane/billing_collector.go:163-189 | cents billed times the denominator plus the remainder equals the sum of min(previous, current units) times seconds times rate over gaps of at most five minutes |
| `Meter.Cut` | internal/controlplane/billing_collector.go:171-188 | an amount is cut into whole cents and a remainder below one cent, losing nothing |
| `Meter.BilledIsFloor` | internal/controlplane/billing_collector.go:164-189 | the total billed is the amount due rounded down, whatever the number of events |
| `Meter.ChargeIs` | internal/controlplane/billing_collector.go:163-176 | between two observations the smaller amount is charged for the seconds between them at 300 cents a unit, or 14 cents ten decimal gigabytes, for 720 hours; after more than five minutes nothing |
| `Meter.MonthlyBill` | internal/controlplane/billing_collector.go:164-189 | a constant resource observed often enough over 720 hours is billed its listed price, rounded down |
| `Meter.AnySnapshots` | internal/controlplane/billing_collector.go:135-204 | after any snapshots at any times and in any periods, the total billed for every running account is the amount due rounded down |
| `Meter.ScheduleIndependent` | internal/controlplane/billing_collector.go:164-176 | for constant units the amount due depends only on the first and last observation |
| `Meter.SameBill` | internal/controlplane/billing_collector.go:164-189 | two meters that sampled a constant resource over the same time on different schedules billed the same cents and hold the same remainder |
| `ExecutionQueue.SucceededMeansAllFive` | internal/controlplane/initial_deployment_store.go:443-470 | a deployment is succeeded only with all five operations succeeded |
| `QueueReceipts.SucceededWasPerformed` | internal/controlplane/initial_deployment_store.go:522-550 | in every run a receipt says `succeeded` only if that operation was performed with success by a dispatcher that reported it under a claim that held; the receipt said `running` in between and `succeeded` ever since, so no reopening lies between |
| `QueueReceipts.DoneWasPerformed` | internal/controlplane/initial_deployment_store.go:443-470 | a deployment that is done had each of the five operations so performed |
| `QueueReceipts.OutcomeIsRecorded` | internal/controlplane/initial_deployment_store.go:522-550 | what is reported under a claim that holds is what is recorded, a failure as `failed`, and nothing else is touched |
| `QueueReceipts.AloneGetsDone` | internal/controlplane/initial_deployment_store.go:402-520 | from every reachable state a dispatcher left alone with an execution that waits, or whose claim has expired, brings the deployment to `succeeded` |
| `QueueReceipts.RetryGetsDone` | internal/controlplane/initial_deployment_store.go:208-262 | so does a new execution from every reachable state that is neither under way nor done |
| `QueueReceipts.FailureEnds` | internal/controlplane/initial_deployment_store.go:443-470 | a failed execution ends as failed, and with it the deployment |
| `QueueReceipts.QueuedIsFresh` | internal/controlplane/initial_deployment_store.go:248-258 | in a queued deployment no receipt is left running or failed |
| `QueueReceipts.ReopenWithdraws` | internal/controlplane/initial_deployment_store.go:346-400 | a human retry after a failed execution may withdraw the host's receipt, and only that one |
| `QueueReceipts.RenewExtends` | internal/controlplane/initial_deployment_store.go:431-441 | a renewal under a claim that holds carries its lease on from now |
| `ExecutionQueue.LiveClaimIsNeverStolen` | internal/controlplane/initial_deployment_store.go:402-429 | no step replaces the token of a claim that has not expired |
| `ExecutionQueue.SupersededIsHarmless` | internal/controlplane/initial_deployment_store.go:431-479 | a worker whose token was superseded changes neither execution nor deployment, and never regains its claim |
| `ExecutionQueue.CompletesOnce` | internal/controlplane/initial_deployment_store.go:443-470 | a completed execution is never changed again in any continuation of the run |
| `ExecutionQueue.SucceededNeverBeginsAgain` | internal/controlplane/initial_deployment_store.go:484-520 | a succeeded operation never begins again; for the host bootstrap, unless the destroyed host was reopened |
| `ExecutionQueue.OnlyOneCurrent` | internal/controlplane/initial_deployment_store.go:472-479 | no two workers hold a current claim of the same execution |
| `ToolLedger.InvokedAtMostOnce` | internal/controlplane/operator_runtime.go:307-332 | across crashes, lease loss and reclaim, a tool that is not retry-safe is invoked at most once per call |
| `ToolLedger.ResultIsWriteOnce` | internal/controlplane/operator_runtime.go:344-351 | a stored result is never replaced |
| `ToolLedger.ReplaysAgree` | internal/controlplane/operator_runtime.go:307-314 | any two answers read from the ledger for one call are the same |
| `ToolLedger.StoredWasInvoked` | internal/controlplane/operator_runtime.go:333-351 | in every run a stored result is the value with which some worker invoked the tool for that call, stored under a lease that still held |
| `ToolLedger.AnsweredWasInvoked` | internal/controlplane/operator_runtime.go:307-351 | so every answer, first or replayed, is a value that the tool gave for that call |
| `ToolLedger.AloneAnswers` | internal/controlplane/operator_runtime.go:307-351 | a worker left alone with a call that was never started, or may be repeated, gets it answered and stored |
| `ToolLedger.StoredIsReplayed` | internal/controlplane/operator_runtime.go:307-314 | a stored result is replayed without another invocation |
| `ToolLedger.StartedIsRefused` | internal/controlplane/operator_runtime.go:315-318 | a call that was started, has no result and must not repeat is refused |
| `ToolLedger.LeaseEnds` | internal/controlplane/operator_store.go:376-425 | renewing carries the lease on, yielding lets the next worker claim, finishing and cancelling end the run |
| `ToolLedger.EndedForever` | internal/controlplane/operator_store.go:325-352 | a run that has ended is never claimed again and its ledger never changes |
| `Paths.SafeNameIsProper` | internal/controlplane/initial_deployment.go:161-168 | the cleaning and prefix tests accept a name exactly if it is a nonempty list of plain segments, none of them `.`, `..` or empty |
| `Paths.PrefixIsAncestor` | internal/controlplane/initial_deployment.go:177-183 | the textual prefix test with a slash is exactly the ancestor relation |
| `Archive.Read` | internal/controlplane/initial_deployment.go:142-215 | the loop over the entries accepts exactly the lists whose names are proper, whose kinds and sizes are within limits and of which no two collide, and returns exactly their regular files |
| `Archive.CheckEntry` | internal/controlplane/initial_deployment.go:158-196 | one entry is refused exactly if it is bad itself or collides with an earlier one |
| `Archive.FitsIsCompatible` | internal/controlplane/initial_deployment.go:169-183 | the test against the map of names seen is exactly pairwise compatibility with every earlier entry |
| `Archive.Consume` | internal/controlplane/initial_deployment.go:202-210 | the wrapped byte count and the copy together refuse exactly if the exact totals exceed their limits |
| `Archive.AddPayload` | internal/controlplane/initial_deployment.go:203-206 | the test of the byte count alone passes exactly the sums within the limit and those that wrap around |
| `Archive.ValidateArtifact` | internal/controlplane/initial_deployment.go:129-232 | accepted are exactly the nonempty archives of at most 64 MiB with an acceptable entry list, a sound end within the limit, nothing behind it and at least one regular file; the recorded files are exactly the listed ones |
| `Archive.Drain` | internal/controlplane/initial_deployment.go:219-224 | after draining, the limited reader is at its end exactly if the expanded stream is longer than the limit |
| `Archive.ReadersAgree` | internal/controlplane/initial_deployment.go:129-231 | run on the same archive, the control plane accepts exactly if the node does, there is a regular file and the archive is at most 64 MiB long; then the recorded files are exactly the files on the node, with their sizes and the permissions it grants |
| `Archive.AnyOrder` | internal/controlplane/initial_deployment.go:169-183 | acceptance does not depend on the order of the entries |
| `Archive.WayIsClear` | cmd/canter-node/main.go:598-613 | whatever was extracted before, no accepted entry meets a file where it needs a directory, nor an existing path where it creates a file |
| `Archive.Extract` | cmd/canter-node/main.go:517-541 | the node accepts exactly the acceptable entry lists with a sound end within the limit and nothing behind it |
| `Archive.ExtractAll` | cmd/canter-node/main.go:530-627 | the loop that tests, places, copies and records entry by entry succeeds exactly for acceptable lists and leaves exactly the listed files and the directories they need; succeed or not, nothing outside the destination |
| `Archive.RecordedIsPlaced` | cmd/canter-node/main.go:592-622 | whatever the control plane records of an extracted list is on the node under its path, and nothing else is |
| `Archive.Unpack` | cmd/canter-node/main.go:592-622 | an entry that passed its tests is refused exactly for its bytes, never by the file system |
| `Archive.MaskedIs` | cmd/canter-node/main.go:609-609 | of the permissions of a file the owner keeps all, the group may read and execute, and others get none |
| `WebP.Scan` | internal/controlplane/operator_attachments.go:167-189 | on arbitrary bytes the scan ends, stays in bounds and visits exactly the chunks of the range's decoding, or fails where there is none |
| `WebP.DecodeEncode` | internal/controlplane/operator_attachments.go:167-189 | decoding inverts the RIFF chunk encoding of section 2.3 of RFC 9649 for every chunk list |
| `WebP.EncodeDecode` | internal/controlplane/operator_attachments.go:167-189 | whatever decodes is tiled without gap by its chunks, padding included |
| `WebP.Dimensions` | internal/controlplane/operator_attachments.go:88-165 | a size is returned exactly for the encodings of animations and of pictures of that size, as `AcceptedIff` spells them out |
| `WebP.AcceptedIff` | internal/controlplane/operator_attachments.go:88-165 | accepted are exactly: a header that announces it, first and only, one animation chunk before all frames, at least one frame, all of them in the canvas with one image of their size and within the pixel budget, and no other image; or exactly one image within the budget, no animation chunk or frame, and at most a first header without animation and of the same size |
| `WebP.VisitIs` | internal/controlplane/operator_attachments.go:96-147 | the stateful visitor goes through exactly if every chunk may follow those before it, and its variables are the counts, sums and sizes of the chunks |
| `WebP.AcceptedIsBounded` | internal/controlplane/operator_attachments.go:88-165 | in an accepted image frame pixels total at most 20,000,000, every animation frame lies in the canvas, and there is either exactly one still image, of the reported size, or animation frames and no still image |
| `WebP.CheckInner` | internal/controlplane/operator_attachments.go:191-213 | a frame is accepted exactly if it decodes and its image chunks number exactly one, of the frame's size |
| `WebP.LosslessRoundTrip` | internal/controlplane/operator_attachments.go:222-228 | the bit fields of a lossless header give back every width and height they can hold |
| `WebPSizes.FrameSizeIff` | internal/controlplane/operator_attachments.go:215-232 | a size is read off a chunk exactly if it is an image, lossy or lossless, whose header was written for that size |
| `WebPSizes.LossyRoundTrip` | internal/controlplane/operator_attachments.go:217-221 | reading the header of a lossy key frame gives back width and height for every size it can hold, whatever its scaling bits, tag and data |
| `WebPSizes.CanvasIff` | internal/controlplane/operator_attachments.go:98-105 | an extended header announces a canvas, and an animation, exactly if it was written so, with no reserved bit set |
| `WebPSizes.FrameIff` | internal/controlplane/operator_attachments.go:111-118 | the place and size of an animation frame are read exactly as its header was written |
| `WebPSizes.PictureRoundTrip` | internal/controlplane/operator_attachments.go:88-165 | a file that holds one image within the budget is measured as what its header was written for |
| `Paging.Excerpt` | internal/controlplane/operator_context.go:18-26 | the excerpt is the longest prefix within the limit that ends before the start of a character |
| `Paging.ReadPage` | internal/controlplane/operator_harness_tools.go:153-175 | a request is refused exactly if offset or limit is out of range; otherwise the page is the excerpt from the next character start |
| `Paging.ReadAll` | internal/controlplane/operator_harness_tools.go:167-175 | following nextOffset with the default limit or any from 4 up ends and concatenates to exactly the stored bytes, for all valid UTF-8 of section 3 of RFC 3629 |
| `Paging.PageAdvances` | internal/controlplane/operator_harness_tools.go:170-174 | such a page is not empty, is within the limit, and ends where a character starts |
| `Paging.PageIsValid` | internal/controlplane/operator_harness_tools.go:170-174 | such a page is itself valid UTF-8 |
| `Paging.ProgressIff` | internal/controlplane/operator_harness_tools.go:170-174 | a page advances exactly if the next character fits the limit |
| `Paging.ThreeBytesStall` | internal/controlplane/operator_harness_tools.go:167-175 | with a limit of three, a four-byte character is never passed |
| `EnvFile.Read` | cmd/canter/agent_commands.go:316-359 | it fails exactly for a file above 1 MiB or with a line that does not fit the scanner; otherwise every key has the value of its last assignment, with the old token names standing in for absent or empty new ones |
| `EnvFile.Persist` | cmd/canter/agent_commands.go:361-407 | it fails exactly for an old file above 1 MiB; otherwise the new file is the retained old lines, the banner and one assignment per value in key order |
| `EnvFile.ReadAfterPersist` | cmd/canter/agent_commands.go:328-407 | reading back succeeds and gives exactly the written value, any quotes included, exactly if every new and every retained line fits the scanner, the file fits its limit, and it is not an emptied token whose old name still has a value |
| `EnvFile.ReadableIff` | cmd/canter/agent_commands.go:328-347 | the new file can be read exactly if sizes that a caller knows before writing are within the limits |
| `EnvFile.PersistAndRead` | cmd/canter/agent_commands.go:316-407 | the writer and the reader in sequence: both conditions for every written key, and the one for every other key |
| `EnvFile.EmptyTokenComesBack` | cmd/canter/agent_commands.go:352-357 | a file and a value for which reading back fails |
| `EnvFile.LongValueIsLost` | cmd/canter/agent_commands.go:328-347 | a token of 13200 quotes is written and leaves a file that cannot be read |
| `EnvFile.OthersUntouched` | cmd/canter/agent_commands.go:375-407 | a key that was not written keeps the value it had, exactly if the file can be read, it is not the old name of a token that was written, and, for a token, it is not read from an old name that was written with another value |
| `EnvFile.ParseAssign` | cmd/canter/agent_commands.go:334-344 | a written assignment is parsed back to its key and value |
| `EnvFile.ExportedReads` | cmd/canter/agent_commands.go:334-344 | so is one with `export` before it |
| `EnvFile.OtherQuotes` | cmd/canter/agent_commands.go:339-343 | a value between double quotes, or without any, is taken as it stands |
| `EnvFile.UnquoteQuote` | cmd/canter/agent_commands.go:432-434 | unquoting inverts shell quoting for every string |
| `EnvFile.AssignSizeIs` | cmd/canter/agent_commands.go:432-434 | a written line takes the bytes of key and value, three more, and four more per quote |
| `EnvFile.KeysAgree` | cmd/canter/agent_commands.go:377-381 | the writer recognises the key of every line from which the reader would take a value |
| `EnvFile.LinesFlat` | cmd/canter/agent_commands.go:328-331 | lines written with newlines are scanned back as the same lines |

## Left out

- HTTP, MCP, OAuth, passkey, email, Stripe and GitHub handlers: request plumbing and foreign services.
- SQL text and PostgreSQL isolation: each transaction is one atomic step on records, and for that reason the queue and the tool ledger are step functions on values, not classes.
- SHA-256, JSON, YAML, gzip and tar decoding: digests are a function parameter, an archive is its entry list, its lengths, whether its end is sound, and what is left behind it.
- Timers, goroutine scheduling, process signals and health probes: they are nondeterministic answers and a monotone clock.
- Operator model streaming, prompts, retries and titles; pricing lookups and floating-point forecasts; catalog loading; CLI flags and scripts.
- The expand-only migration text filter (`sdk/change.go:763-798`): substring tests without a meaning to prove against.
- Lifecycle: identifiers, networks and servers are numbers, and tags are what `Owned` says of a server; a legacy state without a creation intent is not reachable in the model. The workers are step functions on values, since their interleaving is the point; the retry loop itself is the method `StateRegister.Register.Mutate`, over one register whose other writers may do anything.
- ApplyAlone.ApplyResumes: says nothing of a replica whose create was granted but shows no server; the source waits for it and escalates after a grace period, which is a timer.
- ExposureOnce.ExposedOnce: the expose calls counted are those of `exposeSpecTCP` without explicit operator recovery; a recovery is a separate step that an operator asked for and is not bounded.
- EndpointOrphans.NoOrphanedEndpoints: says nothing of runs in which an operator's recovery made a second policy; `EndpointRuns.RecoveryOrphans` is one of them that leaves it open.
- SystemHeader.CheckPrefix: the length is counted in characters, which for the prefixes that pass are bytes.
- ChangeLedger.Ledger.Execute: what migrations, assertions and health waits do is the environment's answer; only the desired release is modelled.
- Meter.Table.Record: units are not negative, and the kind of a resource is fixed by its identifier, as `sdk/billing.go:53` and `sdk/billing.go:62` make it; a run is the observations since the row was made or its period changed, and a row that is dropped forfeits less than a cent.
- Meter: customers, workspaces and the delivery of events to the payment service.
- Fleet.Node.ReapExited: which processes have exited is a parameter.
- Fleet: the choice of identity and the leases on capacity that lead to a reconcile are its arguments.
- Archive.Extract: contents of files, directory permissions, and errors of the file system other than a name in the way.
- WebP.Dimensions: the content of the compressed image data.
- EnvFile.Persist: text is Unicode characters, measured in UTF-8; bytes that are no characters, symbolic links and the atomic replacement of the file are not modelled.
- The same claim protocol over other rows (`internal/controlplane/ledger.go:205-271`): it would repeat the queue.
