# Archon, verified in Dafny

Archon schedules workloads on machines by handing out leases on a graph of resources. This
project models the parts that decide and enforce who may use what, and proves what they
promise over every run:

- **The authority kernel.** Leases form a delegation tree; capacity is charged only at the
  occupying leases whose parent does not occupy; a lease that has ended stays charged until
  every binding that enforces it has been closed by an acknowledgement. `Kernel.dfy` states
  the transition of each of the 31 commands on values, `Authority.dfy` the invariant and its
  preservation command by command, `Runs.dfy`, `Pinning.dfy` and `Replay.dfy` what follows
  over whole runs, and `Cluster.dfy` the cluster object with its fields updated in place, each
  command method proved against its transition. `Graph.dfy`, `Facts.dfy`, `Occupancy.dfy`,
  `Quantities.dfy` and `Forest.dfy` are what the kernel stands on.
- **The fencing protocol.** `Fencing.dfy` composes the kernel with agents and endpoints over a
  network that may lose, repeat and reorder every effect, `World.dfy` is the simulated world as
  an object, `Endpoint.dfy` and `Provider.dfy` are the two ends on the agent side.
- **The scheduler.** `Placement.dfy`, `Search.dfy` and `Select.dfy` cover placement with its
  bounded backtracking search and its agreement with the kernel, `Preempt.dfy` preemption
  plans, `Backfill.dfy` backfill with shadow times, `Projection.dfy` what sums with leases left
  out charge, and `Shadow.dfy` that projected times are reached.
- **The device filter compiler** (`DeviceFilter.dfy`), a compiler to BPF (RFC 9669) against an
  evaluator of the instructions it emits.
- **Recovery.** `Journal.dfy` is the journal file byte by byte, `Recovery.dfy` the controller
  booted from a snapshot and a journal cut at any point.
- **The stop gate.** `StopGate.dfy` is the controller's rule that a program is proven stopped
  before its enforcement is torn down, as turns on values with an invariant over every run;
  `Service.dfy` is the controller's effect routing as an object, each method a sequence of
  such turns; `Straggler.dfy` holds two concrete runs of it, built on the small cluster of
  `Scenario.dfy`.
- **CPU lists.** `CpuList.dfy` is the CPU-list printer and parser.

The authority invariant (`Authority.Inv`) is shaped by what the code does, not by what would be
tidy. A failed binding fails its root lease and nothing below it, so live children may outlive
a parent that no longer occupies: what holds is that only an undelegated lease can stop
occupying before its children, and that the occupying children of any lease fit its claims.
Completed leases may still be relabelled failed or revoked, so ended states absorb only as a
set. An active lease may hold a binding that is already closed. Lease ids say nothing about
depth, so the delegation tree is acyclic by a rank and not by its numbering.

Four properties turned out to hold only under a condition, which is stated exactly.

- The device filter is right for a context exactly when the first matching rule is among the
  last 3277 (`DeviceFilter.RightIffJumpFits`): past that distance the 16-bit jump to the shared
  exit wraps. From 6554 rules on a wrapped jump lands inside the program, mostly behind an
  access test, and `DeviceFilter.SettlesIff` says exactly when it still ends in the right
  verdict; else it refuses, leaves the program or runs for ever (`DeviceFilter.LoopsForever`).
- A printed CPU list parses back exactly when no largest 32-bit number is followed by zero
  (`CpuLists.RoundTripIff`), because the run test adds one in 32 bits. That is the arithmetic of
  a release build; with overflow checks on, printing any list that holds the largest number
  stops the program instead, and `CpuLists.RoundTrip` covers exactly the other lists.
- Only closes are ever held exactly when no prepare or activate is routed after its lease ended
  and before its member is proven stopped (`StopGate.HeldOnlyClosesIff`). The code declares a
  held prepare or activate unreachable, but a prepare left pending by an admission that failed
  half way is one, and so is an activate overtaken by a revocation (`Straggler`). Driving what
  is held aborts exactly then (`ServiceObject.NodeService.DriveHeldEffects`).
- A projection that leaves leases out charges every lineage once, and fits the capacity whatever
  is claimed, exactly when no lease is left out between kept ones
  (`Projections.ChargesOnceIffClean`, `Projections.FitsWhateverIsClaimedIffClean`). The kernel's
  own checks and preemption always leave leases out that way. Shadow times do not: nothing
  bounds a delegated lease by the expiry of its parent, so a projection can charge one lineage
  twice (`Shadows.ProjectionChargesTwice`), exactly when some lease falls due between a longer
  one above it and a longer one below it (`Shadows.DueIsCleanIff`). As long as the doubled sum
  stays within u64 the projection is then too pessimistic and never too generous: what fits it
  fits when the time comes (`Shadows.ShadowIsReached`).

Identifiers, dimension names and resource classes are numbers; equal numbers are equal names.
Clocks, sessions and handles are inputs. Effects are sets: their order within one command is
not modelled, and the protocol proofs let them arrive in any order. Refusals carry no reason.
Placement scores are not modelled: ranking is any order of the candidates.

## Model

| member | source | states |
|---|---|---|
| Quantities.SaturatingSub | crates/kernel/src/types.rs:299-308 | the loop keeps exactly the dimensions of the left side that exceed the right, with the difference |
| Quantities.Maximum | crates/kernel/src/types.rs:310-317 | the loop yields, on the union of dimensions, the larger of the two amounts |
| Quantities.AddAssign | crates/kernel/src/types.rs:319-325 | the loop yields, on the union of dimensions, the sum of the two amounts |
| Quantities.FitsInRemaining | crates/kernel/src/occupancy.rs:17-28 | the saturating comparison admits an amount exactly when each dimension is zero or fits beside what is used |
| ResourceGraph.ClaimBindingForQuantity | crates/kernel/src/graph.rs:418-447 | the loop returns the one contract behind every positive dimension, and nothing when there is no demand, a missing contract or two different ones |
| ResourceGraph.Rebuild | crates/kernel/src/graph.rs:635-655 | the loops build the parent, child and class indexes that belong to the stored nodes and edges |
| ResourceGraph.RebuiltAgrees | crates/kernel/src/graph.rs:635-655 | rebuilt indexes agree with the stored facts in both directions, each list ascending and complete |
| ResourceGraph.WalkEnds | crates/kernel/src/graph.rs:692-724 | the visited-set walk from one node either leaves the parent map or proves that it has a cycle |
| ResourceGraph.EndingWalksAcyclic | crates/kernel/src/graph.rs:692-724 | if every walk ends, containment has no cycle |
| ResourceGraph.ValidateContains | crates/kernel/src/graph.rs:692-724 | accepts a set of edges exactly when no node contains itself, no node has two containers and containment is acyclic |
| ResourceGraph.AncestorWalk | crates/kernel/src/graph.rs:539-547 | the upward walk terminates and lists exactly the ancestors, nearest first |
| ResourceGraph.DescendantWalk | crates/kernel/src/graph.rs:549-557 | the stack walk terminates, lists each node once, and lists a node exactly when the start is among its ancestors |
| Facts.ApplyFactValues | crates/kernel/src/graph.rs:123-171 | the staged update with its checks and rebuilt indexes, or nothing |
| Facts.ApplyGraph | crates/kernel/src/graph.rs:112-121 | the unowned update: refused once facts have writers, else the revision moves on |
| Facts.ResourceFacts | crates/kernel/src/graph.rs:173-196 | withdraw contracts, apply facts, grant contracts, as one update or none |
| Facts.ProviderFacts | crates/kernel/src/graph.rs:198-300 | batches by writer: a writer touches only new facts and its own, all batches or none |
| Facts.ApplyUnownedKeeps | crates/kernel/src/graph.rs:112-171 | an accepted update keeps the graph well formed, forgets no node and never lowers the revision |
| Facts.ApplyResourceFactsKeeps | crates/kernel/src/graph.rs:173-196 | the same for updates that also change contracts |
| Facts.ApplyProviderFactsKeeps | crates/kernel/src/graph.rs:198-300 | the same for owned batches |
| Facts.AdoptedKeeps | crates/kernel/src/graph.rs:302-376 | adopting writers changes ownership only: topology, contracts, observations and revision stay |
| Occupancy.FoldClaims | crates/kernel/src/occupancy.rs:84-91 | the loop folds claims per node, the larger amount winning per dimension |
| Occupancy.AmountOfClaim | crates/kernel/src/occupancy.rs:84-91 | with one claim per node the fold reads back every claim |
| Occupancy.UsedReads | crates/kernel/src/occupancy.rs:93-126 | reading the occupancy map at any node and dimension gives the sum over the charged leases |
| Occupancy.Accumulate | crates/kernel/src/occupancy.rs:93-126 | the nested loops add up exactly the given leases |
| Occupancy.OccupancyFromLeases | crates/kernel/src/occupancy.rs:93-126 | charges exactly the occupying leases whose parent does not occupy, leaving out the excepted ones |
| Occupancy.SubtreeUsed | crates/kernel/src/occupancy.rs:131-150 | charges exactly the occupying direct children of a lease, leaving out one |
| Authority.InitialInv | crates/kernel/src/cluster.rs:121-142 | the empty cluster satisfies the authority invariant |
| Authority.ShrinkKeepsAccounts | crates/kernel/src/cluster.rs:897-1070 | when leases stop occupying and only an undelegated one leaves occupying children behind, shares, chains and capacity bounds all survive, its children taking its place |
| Authority.GrowKeepsAccounts | crates/kernel/src/cluster.rs:573-805 | when a fresh lease that fits starts to occupy, shares, chains and capacity bounds all survive |
| Authority.InstallKeeps | crates/kernel/src/cluster.rs:534-558 | replacing the graph keeps every account and leaves every open binding a session to answer it |
| Authority.AdoptKeeps | crates/kernel/src/cluster.rs:560-571 | adopting fact writers keeps the invariant |
| Authority.ReserveKeeps | crates/kernel/src/cluster.rs:573-645 | reserving keeps the invariant |
| Authority.PromoteKeeps | crates/kernel/src/cluster.rs:647-694 | promoting keeps the invariant, and committed claims resolve to themselves |
| Authority.OpenKeeps | crates/kernel/src/cluster.rs:696-805 | opening keeps the invariant, for root and delegated leases |
| Authority.ActivateLeaseKeeps | crates/kernel/src/cluster.rs:807-895 | activating keeps the invariant, in particular full preparation |
| Authority.FailKeeps | crates/kernel/src/cluster.rs:897-923 | failing with its cascade keeps the invariant |
| Authority.ReleaseLeaseKeeps | crates/kernel/src/cluster.rs:925-955 | releasing keeps the invariant because nothing below occupies |
| Authority.RevokeKeeps | crates/kernel/src/cluster.rs:957-983 | revoking with its cascade keeps the invariant |
| Authority.ExpireKeeps | crates/kernel/src/cluster.rs:985-1026 | expiring with its cascade keeps the invariant |
| Authority.CompleteKeeps | crates/kernel/src/cluster.rs:1028-1070 | completing with its cascade keeps the invariant |
| Authority.BindKeeps | crates/kernel/src/cluster.rs:1096-1221 | opening a binding keeps the invariant |
| Authority.NewFence | crates/kernel/src/cluster.rs:1176-1197 | a new exclusive fence exceeds every exclusive fence ever given at its endpoint, and no open binding shares the endpoint with an exclusive one |
| Authority.ActivateBindingKeeps | crates/kernel/src/cluster.rs:1223-1269 | activating a binding keeps the invariant |
| Authority.FailedAckKeeps | crates/kernel/src/cluster.rs:1434-1464 | a failed binding fails its root lease alone, and the invariant survives the children it leaves behind |
| Authority.ClosedAckKeeps | crates/kernel/src/cluster.rs:1402-1432 | a close acknowledgement keeps the invariant |
| Authority.StepKeeps | crates/kernel/src/cluster.rs:409-492 | every accepted command keeps the invariant |
| Runs.RunKeeps | crates/kernel/src/cluster.rs:144-194 | the invariant holds after every sequence of commands, clock, agreement and epoch changes |
| Runs.CapacityIsNeverExceeded | crates/kernel/src/cluster.rs:534-558 | in every reachable state charged leases fit every node and dimension, occupying children fit their parent, and with nothing left out no sum over charged leases passes the largest u64 |
| Projections.ChargedExactlyOnce | crates/kernel/src/occupancy.rs:93-126 | with nothing left out, an occupying lease has exactly one charged lease among itself and the leases it was delegated from |
| Projections.ChargesOnceIffClean | crates/kernel/src/occupancy.rs:93-126 | with leases left out, every lineage is charged exactly once if and only if no lease is left out between a kept one above it and a kept one below it |
| Projections.UnrelatedFits | crates/kernel/src/occupancy.rs:93-158 | any occupying leases none of which was delegated from another fit the capacity together, however deep they lie |
| Projections.CleanFits | crates/kernel/src/occupancy.rs:93-126 | every sum over a clean projection fits the capacity |
| Projections.OneLeftOutIsClean | crates/kernel/src/cluster.rs:621-623 | leaving out the one lease the kernel leaves out is clean: it is new, reserved or preparing, so nothing was delegated from it |
| Projections.WholeSubtreesAreClean | crates/kernel/src/preempt.rs:93-100 | leaving out leases with everything delegated from them is clean |
| Projections.SumsNeverOverflow | crates/kernel/src/occupancy.rs:93-158 | in every reachable state the sums over children, over charged leases with the kernel's one lease left out, and over any clean projection fit the capacity, so within u64 |
| Projections.FitsWhateverIsClaimedIffClean | crates/kernel/src/occupancy.rs:93-126 | leaving leases out of a delegation tree fits the capacity for all claims that fit it before, if and only if they are clean |
| Runs.StepStable | crates/kernel/src/cluster.rs:409-492 | no accepted command takes back an ended lease, a closed binding, a prepare acknowledgement, a session, a fence, a node or a retirement |
| Runs.RunStable | crates/kernel/src/cluster.rs:186-207 | the same over whole runs; lease states only advance and settled ones never change |
| Runs.ReachableGraph | crates/kernel/src/graph.rs:123-171 | in every reachable state containment is a forest and all indexes agree with the facts |
| Runs.ExclusiveAlone | crates/kernel/src/cluster.rs:1176-1197 | in every reachable state two bindings open at one endpoint are both independent shares; exclusive fences never repeat and never pass the watermark |
| Runs.ActiveMeansPrepared | crates/kernel/src/cluster.rs:844-890 | in every reachable state an active root lease or binding implies an acknowledged prepare on every claim of the lease |
| Runs.NothingComesBack | crates/kernel/src/cluster.rs:1303-1464 | an ended lease never becomes live and a closed binding never reopens, over any continuation |
| Pinning.StepPins | crates/kernel/src/cluster.rs:542-555 | no accepted command changes the machine of a node an occupying lease claims |
| Pinning.OccupancyNeverReturns | crates/kernel/src/cluster.rs:347-359 | a lease that stopped occupying never occupies again |
| Pinning.PinnedWhileOccupying | crates/kernel/src/cluster.rs:542-555 | while a lease occupies, no run of any length changes the machine behind any of its claims |
| Pinning.NewBindingsOnPreparing | crates/kernel/src/cluster.rs:1129-1153 | bindings appear only through OpenBinding, on leases that are still preparing |
| Pinning.CloseNeedsCurrentSession | crates/kernel/src/cluster.rs:1402-1432 | an open binding closes only by a close acknowledgement carrying its fence and the current session of its machine |
| Replay.StepFollows | crates/kernel/src/cluster.rs:196-207 | a replaying cluster with the same decisions accepts what the original accepted and decides the same, whatever the clock and agreement |
| Replay.ReplayRebuilds | crates/kernel/src/cluster.rs:196-207 | replaying the accepted commands of any run from an empty cluster succeeds and rebuilds graph, leases, bindings, sessions, fences and node states |
| ClusterObject.ResolveClaim | crates/kernel/src/occupancy.rs:59-73 | a claim resolves exactly when its node is known and one contract covers its quantity |
| ClusterObject.ResolveDistinct | crates/kernel/src/cluster.rs:608-615 | the loop resolves all claims exactly when no node is named twice and each resolves |
| ClusterObject.ResolveAll | crates/kernel/src/cluster.rs:664-669 | the same without the duplicate check |
| ClusterObject.DescendantsPostorder | crates/kernel/src/cluster.rs:302-345 | the recursion lists everything delegated from a lease, each once, children before parents |
| ClusterObject.MachinesKept | crates/kernel/src/cluster.rs:542-555 | the nested loops answer whether every claim of an occupying lease keeps its machine |
| ClusterObject.Cluster.constructor | crates/kernel/src/cluster.rs:121-142 | a new cluster is empty and satisfies the invariant |
| ClusterObject.Cluster.InstallResourceGraph | crates/kernel/src/cluster.rs:534-558 | installs the staged graph or leaves no trace |
| ClusterObject.Cluster.ReserveLease | crates/kernel/src/cluster.rs:573-645 | the new state, effects and refusals of the command |
| ClusterObject.Cluster.PromoteLease | crates/kernel/src/cluster.rs:647-694 | the new state, effects and refusals of the command |
| ClusterObject.Cluster.OpenLease | crates/kernel/src/cluster.rs:696-805 | the new state, effects and refusals of the command |
| ClusterObject.Cluster.ActivateLease | crates/kernel/src/cluster.rs:807-895 | the new state, effects and refusals of the command |
| ClusterObject.Cluster.EndBelow | crates/kernel/src/cluster.rs:897-913 | the loop over the postorder ends exactly what is delegated from the lease and fences exactly its open bindings |
| ClusterObject.Cluster.FailLease | crates/kernel/src/cluster.rs:897-923 | the cascade, and no trace when the lease is unknown although the cascade runs before the lookup |
| ClusterObject.Cluster.HasLiveDescendants | crates/kernel/src/cluster.rs:925-934 | answers whether anything delegated from the lease occupies |
| ClusterObject.Cluster.ReleaseLease | crates/kernel/src/cluster.rs:936-955 | the new state, effects and refusals of the command |
| ClusterObject.Cluster.RevokeLease | crates/kernel/src/cluster.rs:957-983 | the cascade, and no trace when the lease is unknown |
| ClusterObject.Cluster.ExpireLease | crates/kernel/src/cluster.rs:985-1026 | the new state, effects and refusals of the command |
| ClusterObject.Cluster.CompleteLease | crates/kernel/src/cluster.rs:1028-1070 | the new state, effects and refusals of the command |
| ClusterObject.Cluster.RenewLease | crates/kernel/src/cluster.rs:1072-1094 | the new state and refusals of the command |
| ClusterObject.Cluster.OpenBinding | crates/kernel/src/cluster.rs:1096-1221 | the new binding with its fence, the effect and the refusals |
| ClusterObject.Cluster.ActivateBinding | crates/kernel/src/cluster.rs:1223-1269 | the new state, effect and refusals of the command |
| ClusterObject.Cluster.FailBinding | crates/kernel/src/cluster.rs:1303-1324 | the new state, effect and refusals of the command |
| ClusterObject.Cluster.RecordPrepared | crates/kernel/src/cluster.rs:1358-1379 | the acknowledged handle and session, or a refusal |
| ClusterObject.Cluster.RecordActive | crates/kernel/src/cluster.rs:1381-1400 | the acknowledged session, or a refusal |
| ClusterObject.Cluster.RecordClosed | crates/kernel/src/cluster.rs:1402-1432 | the closed state, or a refusal |
| ClusterObject.Cluster.RecordFailed | crates/kernel/src/cluster.rs:1434-1464 | the failed binding and lease; no trace on refusal although the binding is written before the lease is looked up |
| ClusterObject.Cluster.SetAgentSession | crates/kernel/src/cluster.rs:1539-1573 | the new session and the reconciliation effect, or a refusal of an older session |
| ClusterObject.Cluster.SetNodeState | crates/kernel/src/cluster.rs:1494-1522 | the new node state and the refusals |
| ClusterObject.Cluster.HasLiveAuthority | crates/kernel/src/cluster.rs:1477-1492 | answers whether an occupying claim or an open binding lies in the scope of the node |
| ClusterObject.Cluster.UnquarantineNode | crates/kernel/src/cluster.rs:1610-1618 | schedulable again, nothing, or a refusal |
| ClusterObject.Cluster.RebindSession | crates/kernel/src/cluster.rs:1575-1582 | the current session on the binding, or a refusal |
| ClusterObject.Cluster.AdvanceEndpointFence | crates/kernel/src/cluster.rs:1587-1604 | the watermark never falls |
| ClusterObject.Cluster.Apply | crates/kernel/src/cluster.rs:186-190 | a command is accepted exactly when the transition function accepts it and is then logged; a refused command changes nothing; the invariant survives |
| ClusterObject.Cluster.ReplayLog | crates/kernel/src/cluster.rs:196-207 | the replay loop succeeds exactly when every command is accepted in turn and yields those decisions |
| Endpoints.OperateKeeps | crates/kernel/src/endpoint.rs:20-88 | no operation lowers the accepted fence or the session, and the enforced binding changes only with a higher fence |
| Endpoints.CloseFences | crates/kernel/src/endpoint.rs:79-88 | a successful close ends everything up to its fence |
| Endpoints.NeverReopens | crates/kernel/src/endpoint.rs:20-88 | once closed at a fence an endpoint is never open at that fence or below, whatever is asked of it |
| Endpoints.Endpoint.Apply | crates/kernel/src/endpoint.rs:21-39 | the state after any operation and whether it was accepted |
| Endpoints.Endpoint.Prepare | crates/kernel/src/endpoint.rs:48-66 | opens only for a higher fence; the same generation again is accepted only while prepared |
| Endpoints.Endpoint.Activate | crates/kernel/src/endpoint.rs:68-77 | activates only the open generation |
| Endpoints.Endpoint.Close | crates/kernel/src/endpoint.rs:79-88 | closes at or above the accepted fence, accepts older closes without effect |
| Endpoints.Endpoint.Hello | crates/kernel/src/endpoint.rs:41-46 | a session never goes back |
| Providers.CheckKeeps | crates/node/src/provider.rs:113-136 | checking a generation never lowers session or epoch and keeps every endpoint on the session of the process |
| Providers.ApplyKeeps | crates/node/src/provider.rs:138-180 | a request keeps every endpoint on the process session and changes only the addressed endpoint |
| Providers.CallsKeep | crates/node/src/provider.rs:113-180 | over any requests session and epoch never decrease and all endpoints follow the session |
| Providers.CloseIsOver | crates/node/src/provider.rs:138-180 | a successful close ends everything up to its fence at that endpoint |
| Providers.CloseLasts | crates/node/src/provider.rs:138-180 | a close that succeeded lasts over any requests, adoption on activate included |
| Providers.OthersNeverDisturb | crates/node/src/provider.rs:101-111 | requests that address other endpoints, so other independent shares, never change what this one enforces |
| Providers.ResourceProvider.CheckControlGeneration | crates/node/src/provider.rs:113-136 | the loop greets every endpoint when the session rises |
| Providers.ResourceProvider.Apply | crates/node/src/provider.rs:138-180 | the whole new state and the answer, adoption included |
| Providers.ResourceProvider.Prepare | crates/node/src/provider.rs:54-59 | a fresh handle exactly when the endpoint accepts |
| Fencing.StepGenuine | crates/kernel/src/cluster.rs:389-407 | every effect of an accepted command names a binding of the new state with its place and fence, and no activation precedes full preparation |
| Fencing.NonAckKeeps | crates/kernel/src/cluster.rs:1223-1464 | only acknowledgements close bindings or count prepares |
| Fencing.ActedEndpoint | crates/sim/src/world.rs:762-829 | acting on a genuine effect leaves a sound endpoint, and what it accepts it can vouch for |
| Fencing.ActedKeepsOver | crates/sim/src/world.rs:762-829 | a late effect never reopens a binding that is over at its endpoint |
| Fencing.DeliveredSafe | crates/sim/src/world.rs:532-829 | delivering any effect ever sent, late, repeated or reordered, keeps the world safe |
| Fencing.ReconciledSafe | crates/sim/src/world.rs:572-648 | adopting, failing or fencing a reconciled binding keeps the world safe |
| Fencing.SweptSafe | crates/sim/src/world.rs:650-673 | fencing unexpected open endpoints keeps the world safe |
| Fencing.GreetingSafe | crates/sim/src/world.rs:100-118 | starting or restarting an agent keeps the world safe |
| Fencing.NextSafe | crates/sim/src/world.rs:120-208 | every enabled move keeps the world safe |
| Fencing.PlaySafe | crates/sim/src/world.rs:120-208 | every schedule of moves keeps the world safe |
| Fencing.EnforcedIsCharged | crates/sim/src/world.rs:532-829 | in every reachable world an endpoint open for a binding implies the kernel has not closed it and charges its lease |
| Fencing.EnforcementFitsCapacity | crates/sim/src/world.rs:532-829 | what all endpoints together enforce fits the capacity of every node and dimension, always |
| Fencing.ActiveOnlyWhenAllPrepared | crates/sim/src/world.rs:787-815 | an endpoint enforces actively only once a binding of the same lease reached the endpoint of every claimed node |
| Fencing.RestartRebuilds | crates/sim/src/world.rs:197-206 | a restarted controller rebuilds exactly the state it had |
| Simulator.World.constructor | crates/sim/src/world.rs:45-57 | an empty world of the protocol |
| Simulator.World.Commit | crates/sim/src/world.rs:128-132 | an accepted command reaches the cluster and the trace |
| Simulator.World.Apply | crates/sim/src/world.rs:120-126 | one protocol move, its effects queued |
| Simulator.World.DropOne | crates/sim/src/world.rs:154-161 | loses the head of the queue and changes nothing else |
| Simulator.World.ApplyEffect | crates/sim/src/world.rs:697-829 | the agent checks, the endpoint acts, and the right acknowledgement is returned |
| Simulator.World.Drive | crates/sim/src/world.rs:532-554 | one delivery is one protocol move |
| Simulator.World.Inject | crates/sim/src/world.rs:172-174 | delivering any sent effect again is a protocol delivery, however late or often |
| Simulator.World.DeliverOne | crates/sim/src/world.rs:163-170 | delivers exactly the head of the queue, as a protocol delivery |
| Simulator.World.RegisterAgent | crates/sim/src/world.rs:100-118 | a fresh session; exactly the places enforced under the machine are greeted before the cluster learns the session |
| Simulator.World.EnforcedUnder | crates/sim/src/world.rs:678-695 | exactly the places of contracts at or below the machine |
| Simulator.World.RestartAgent | crates/sim/src/world.rs:176-194 | a fresh session; exactly the existing endpoints of the machine are greeted and none is forgotten |
| Simulator.World.ReconcileMachine | crates/sim/src/world.rs:556-675 | a pass that is not cut short deals with every binding of the effect and every endpoint of the machine, each by one protocol move |
| Simulator.World.Adopt | crates/sim/src/world.rs:600-627 | a proven binding moves to the new session and is driven again |
| Simulator.World.FailOrFence | crates/sim/src/world.rs:628-648 | an unproven binding fails its lease once per pass or is fenced |
| Simulator.World.ReconcileOne | crates/sim/src/world.rs:572-648 | one binding of the pass is one protocol move: adopted, failed once per pass, or fenced |
| Simulator.World.SweepOne | crates/sim/src/world.rs:650-673 | an open endpoint whose binding is not preparing or active is fenced, any other is left alone |
| Simulator.World.SweepMachine | crates/sim/src/world.rs:649-674 | the second loop sweeps every endpoint of the machine, each by one protocol move |
| Simulator.World.TakeReconcile | crates/sim/src/world.rs:563-571 | an agent takes the pass exactly when it has seen no newer epoch, and then holds its session and epoch |
| Simulator.World.ForgetAgent | crates/sim/src/world.rs:434-464 | only the machine's agent is forgotten, its endpoints persist |
| Simulator.World.RestartController | crates/sim/src/world.rs:202-206 | replaying the trace always succeeds and gives exactly the state it replaces |
| DeviceFilter.Compile | crates/node/src/device_filter.rs:126-220 | the loop emits the program of the rules, every offset cut to 16 bits |
| DeviceFilter.AccessMeansSubset | crates/node/src/device_filter.rs:156-167 | no requested bit outside the grant is the same as the request being among the granted bits |
| DeviceFilter.BlockRuns | crates/node/src/device_filter.rs:150-203 | a block takes the final jump exactly when its rule matches type, numbers and access, else it leaves for the next rule |
| DeviceFilter.JumpFits | crates/node/src/device_filter.rs:145-149 | the distance of a final jump survives 16 bits exactly when at most 3277 rules remain |
| DeviceFilter.RightWhenJumpFits | crates/node/src/device_filter.rs:126-220 | for any number of rules the program stops with the right verdict if the first match is among the last 3277 rules or there is none |
| DeviceFilter.FilterIsCorrect | crates/node/src/device_filter.rs:126-220 | up to 3277 rules the program stops within one step per instruction, with 1 exactly when some rule matches and grants every requested bit |
| DeviceFilter.WrongWhenJumpWraps | crates/node/src/device_filter.rs:145-149 | up to 6553 rules an earlier first match jumps out of the program |
| DeviceFilter.OneRuleTooMany | crates/node/src/device_filter.rs:145-149 | a concrete list of 3278 rules and a context on which the program fails |
| DeviceFilter.RightIffJumpFits | crates/node/src/device_filter.rs:126-220 | up to 6553 rules the program is right exactly when the first match is among the last 3277 rules or there is none |
| DeviceFilter.EntryRuns | crates/node/src/device_filter.rs:126-220 | a block entered in its middle by a wrapped jump skips the access test and takes its final jump if the comparisons that are left agree |
| DeviceFilter.SettlesIff | crates/node/src/device_filter.rs:126-220 | for every number of rules the program stops with the right verdict exactly when no rule matches, or the jumps taken from the first match on wrap less often each time until one reaches the exit |
| DeviceFilter.WrapsAgain | crates/node/src/device_filter.rs:126-220 | a wrapped jump whose next jump wraps as often never stops |
| DeviceFilter.LoopsForever | crates/node/src/device_filter.rs:126-220 | a concrete list of 6554 rules and a context on which the program runs for ever |
| DeviceFilter.LandsRight | crates/node/src/device_filter.rs:126-220 | a concrete list of 6556 rules on which a wrapped jump still ends in the right verdict |
| DeviceFilter.Evaluate | crates/node/src/device_filter.rs:406-444 | the evaluator loop computes the step semantics |
| Placement.Candidates | crates/kernel/src/select.rs:648-692 | the loop returns exactly the nodes that may serve a need, each once |
| Placement.PartHolds | crates/kernel/src/select.rs:820-874 | whatever uniqueness and topology hold of an assignment hold of every part of it, so pruning loses nothing |
| Search.CheckUnique | crates/kernel/src/select.rs:846-852 | the loop answers whether no node is claimed twice, within a need or across needs |
| Search.Reorder | crates/kernel/src/select.rs:318-341 | any group over ranked nodes can be reordered to follow the ranking |
| Search.GroupsCovered | crates/kernel/src/select.rs:307-343 | trying the groups in ranked order tries every group |
| Search.PositionFails | crates/kernel/src/select.rs:318-341 | a position tried in vain rules out exactly the solutions that continue there |
| Search.BrokenHasNoSolution | crates/kernel/src/select.rs:331-336 | a partial assignment that breaks uniqueness or topology has no solution above it |
| Search.MachineSearch.Consume | crates/kernel/src/select.rs:226-233 | the budget falls by one or the search stops |
| Search.MachineSearch.Needs | crates/kernel/src/select.rs:247-305 | finds only solutions that extend the given groups, restores them on failure, and fails with budget left only if no solution extends them |
| Search.MachineSearch.Single | crates/kernel/src/select.rs:278-300 | the loop of a consumable need, with the same promise |
| Search.MachineSearch.Group | crates/kernel/src/select.rs:307-343 | the recursion over a group, with the same promise |
| Search.SearchMachine | crates/kernel/src/select.rs:182-196 | returns only solutions; returning nothing with budget left means there is none in the subtree |
| Select.TakeOne | crates/kernel/src/select.rs:479-541 | the claim it returns meets the consumable need |
| Select.TakeMany | crates/kernel/src/select.rs:566-592 | takes only good claims, at most the wanted number |
| Select.TakeLocal | crates/kernel/src/select.rs:543-600 | the group it returns meets the need and stands on one machine |
| Select.SelectNeed | crates/kernel/src/select.rs:452-600 | what is picked for a need meets it, on every path |
| Select.Greedy | crates/kernel/src/select.rs:66-88 | the greedy pass returns only solutions |
| Select.OneMachineSelect | crates/kernel/src/select.rs:117-211 | what it returns is a solution inside the subtree of one machine, greedy or searched |
| Select.SelectPlacement | crates/kernel/src/select.rs:45-113 | what select returns is a solution; a machine-local request stays on one machine |
| Select.SolutionCovers | crates/kernel/src/select.rs:648-692 | every solution fits beside what is in use |
| Select.SolutionOpens | crates/kernel/src/cluster.rs:696-805 | opening a root lease with a fresh id on the claims of any solution is accepted in the same state and holds exactly those claims |
| Select.Allocate | crates/kernel/src/lib.rs:49-52 | whatever allocate returns in an agreed cluster, OpenLease with a fresh root id accepts in the same state |
| Preempt.Order | crates/kernel/src/preempt.rs:80-88 | orders the candidates by rising priority, younger ids first |
| Preempt.Project | crates/kernel/src/preempt.rs:93-100 | the projection leaves out the victims and everything delegated from them |
| Preempt.PreemptionPlan | crates/kernel/src/preempt.rs:58-126 | victims are eligible, cheapest first, suffice, and no shorter prefix suffices; giving up means evicting every eligible lease would not do |
| Preempt.GoneIsProjected | crates/kernel/src/cluster.rs:957-983 | once leases ended and their bindings closed, occupancy is exactly the projection without them |
| Preempt.PlanWorks | crates/kernel/src/preempt.rs:58-126 | revoking the victims and acknowledging their fences makes the same request selectable; every victim has strictly lower priority |
| Preempt.RevokedIsProjected | crates/kernel/src/cluster.rs:957-983 | revoking leases and acknowledging their fences leaves exactly the scene projected without them |
| Preempt.PlanOpens | crates/kernel/src/preempt.rs:58-126 | end to end: what placement finds in the planned scene, OpenLease accepts once the victims are revoked and fenced |
| Backfill.ShadowHead | crates/kernel/src/admit.rs:537-590 | the earliest future expiry at which the request selects, or no time, or nothing |
| Backfill.AdmitBackfill | crates/kernel/src/admit.rs:439-526 | admits the first request that can start and is safe beside every blocked head ahead of it, and judges those heads as the shadow model says |
| Backfill.ProjectedWith | crates/kernel/src/admit.rs:549-566 | in every projection a new root lease adds its claims and nothing else |
| Backfill.HeadStillFits | crates/kernel/src/admit.rs:448-526 | a head with a shadow time still fits its whole shadow allocation at that time, and no earlier expiry would have done |
| Backfill.HeadKeepsNodes | crates/kernel/src/admit.rs:448-526 | a head without a proven time keeps all its nodes untouched in every projection |
| Backfill.OpeningProtects | crates/kernel/src/admit.rs:448-526 | opening the chosen request in the kernel protects every head ahead of it |
| Shadows.ExpireAllEnds | crates/kernel/src/cluster.rs:985-1028 | expiring due leases in any order, cascades included, ends exactly them and what was delegated from them |
| Shadows.ShadowIsReached | crates/kernel/src/admit.rs:549-566 | once every lease due by a time has expired and its fences are acknowledged, what fitted the projection to that time fits the kernel's own occupancy |
| Shadows.HeadFitsOnTime | crates/kernel/src/admit.rs:448-526 | after the chosen request is opened and the leases due by a head's time have expired, the head's shadow claims fit what the kernel charges |
| Shadows.SolvingCovers | crates/kernel/src/select.rs:648-692 | placement that returns solutions covers what it claims, as the head lemmas ask |
| Shadows.DueIsCleanIff | crates/kernel/src/admit.rs:549-566 | projections charge each lineage once at all times exactly when no lease falls due between a longer one above it and a longer one below it |
| Shadows.ProjectionsCleanIff | crates/kernel/src/admit.rs:537-590 | the same at exactly the times the code projects to, the future expiries of occupying leases |
| Shadows.EvictionsFit | crates/kernel/src/preempt.rs:93-100 | the projections of preemption plans are clean and fit the capacity |
| Shadows.ProjectionChargesTwice | crates/kernel/src/admit.rs:549-566 | a reachable state whose projection charges one lineage twice, and so twice the capacity |
| Journal.ReadsBack | crates/control/src/log.rs:106-147 | reading gives exactly the newline-complete records and keeps exactly their lines, whatever incomplete tail follows |
| Journal.TornLine | crates/control/src/log.rs:80-89 | a torn append leaves no newline or the whole record |
| Journal.WrittenAppend | crates/control/src/log.rs:80-89 | appending a line appends its record |
| Journal.CommandLog.AppendValue | crates/control/src/log.rs:80-89 | appends the encoded record and a newline |
| Journal.CommandLog.Truncate | crates/control/src/log.rs:67-70 | empties the file |
| Journal.CommandLog.ReadRecords | crates/control/src/log.rs:106-147 | the line loop parses the complete lines and cuts the file after the last newline |
| Recovery.StandsNext | crates/control/src/server.rs:157-175 | replaying one more record, from whatever clock, lands where the history goes |
| Recovery.BootReaches | crates/control/src/server.rs:128-176 | booting any suffix of the journal that covers the snapshot cursor reaches the end of the history |
| Recovery.BootSucceeds | crates/control/src/server.rs:105-176 | booting what the disk holds succeeds, applies every record once and repairs the tail |
| Recovery.IncidentSound | crates/control/src/server.rs:225-278 | appends, torn appends, compactions cut before or after the rename, power loss and reboots keep the files sound |
| Recovery.StorySound | crates/control/src/server.rs:105-278 | over any run cut anywhere and rebooted any number of times the files hold exactly the durable records |
| Recovery.RebootRebuilds | crates/control/src/server.rs:105-278 | booting at any moment succeeds and rebuilds the decisions, controller state and sequence of the last durable record |
| Recovery.Boot | crates/control/src/server.rs:105-176 | the boot loop: skip what the snapshot holds, refuse gaps, replay the rest |
| Recovery.BootRecord | crates/control/src/server.rs:128-176 | one record is skipped, refused or replayed as the boot step says |
| Recovery.ReplayCommand | crates/node/src/service.rs:1021-1061 | one replayed command with the clock checks off |
| CpuLists.Render | crates/node/src/protocol.rs:128-146 | prints the maximal runs, comma separated |
| CpuLists.ParseCpuList | crates/node/src/discover.rs:477-500 | the loop over the parts, empty parts skipped, every malformed or inverted part refused |
| CpuLists.ParseRange | crates/node/src/discover.rs:480-497 | one part as a number or a range |
| CpuLists.DigitsValue | crates/node/src/protocol.rs:139-143 | decimal printing reads back |
| CpuLists.ParseOfRender | crates/node/src/discover.rs:477-500 | parsing a printed list expands its runs, for every list |
| CpuLists.RoundTripIff | crates/node/src/protocol.rs:128-146 | parsing the printed form gives the list back exactly when no largest number is followed by zero |
| CpuLists.RoundTrip | crates/node/src/protocol.rs:128-146 | every list of numbers below the largest comes back |
| CpuLists.WrappedPair | crates/node/src/protocol.rs:133-135 | a concrete list that does not come back |
| StopGate.StepSound | crates/kernel/src/cluster.rs:1620-1655 | a close effect is only emitted for a lease that has ended |
| StopGate.RoutedGated | crates/node/src/service.rs:3244-3432 | routing lets a close through only with a stop proof for the session it carries, else it holds it |
| StopGate.TurnGated | crates/node/src/service.rs:2152-2434 | every turn of the controller keeps the gate |
| StopGate.TurnCloses | crates/node/src/service.rs:2484-2540 | a turn that closes an open binding of a program finds its member proven stopped |
| StopGate.NoTeardownWithoutStop | crates/node/src/service.rs:2619-2668 | in every run, members found exited before or after their lease ended included, a binding of a program-carrying lease is released or fenced only with its member on that machine proven stopped in the current session |
| StopGate.ReadyRoutes | crates/node/src/service.rs:2630-2668 | routing a held close whose member is proven stopped sends it in the machine's current session, holds nothing and moves only the binding's session |
| StopGate.RoutedHolds | crates/node/src/service.rs:3340-3376 | routing holds an effect exactly when its lease has ended, runs a program and its member on a machine with a session is unproven, whatever its phase |
| StopGate.HeldOnlyClosesIff | crates/node/src/service.rs:2643-2644 | in every run only closes are ever held if and only if no prepare or activate was routed under that condition |
| StopGate.NoStragglerNoJam | crates/node/src/service.rs:2643-2644 | in a run without such a prepare or activate, driving what is held never meets one |
| Straggler.PrepareIsHeld | crates/node/src/service.rs:2643-2643 | a concrete run that holds a prepare with its member proven stopped, where the code aborts |
| Straggler.ActivateIsHeld | crates/node/src/service.rs:2644-2644 | a concrete run that holds an activate with its member proven stopped, where the code aborts |
| ServiceObject.NodeService.constructor | crates/node/src/service.rs:275-280 | a controller over an empty cluster with nothing held, in flight or proven |
| ServiceObject.NodeService.Guarantee | crates/node/src/service.rs:3340-3376 | whatever the methods did, a close on its way for an open binding of a program carries a stop proof for its session |
| ServiceObject.NodeService.Commit | crates/node/src/service.rs:2104-2115 | an accepted command changes the cluster and queues exactly its effects, a rejected one changes nothing |
| ServiceObject.NodeService.Pump | crates/node/src/service.rs:2139-2146 | routes the queue in order and empties it, or stops at the first refused effect with the rest still pending |
| ServiceObject.NodeService.PumpReconcile | crates/node/src/service.rs:3245-3283 | a reconcile effect only rebinds and reactivates its own bindings, stops at the first refusal and queues no further reconcile |
| ServiceObject.NodeService.RebindIfStale | crates/node/src/service.rs:3311-3332 | a binding on an old session is moved to the machine's current one, and nothing is queued |
| ServiceObject.NodeService.Route | crates/node/src/service.rs:3244-3432 | the whole of routing one effect, in place; refused exactly when the binding is unknown or its node has no machine |
| ServiceObject.NodeService.Dispatch | crates/node/src/service.rs:3333-3432 | held with stop requests exactly when the ended program's member is unproven, else sent |
| ServiceObject.NodeService.StopMembers | crates/node/src/service.rs:2788-2843 | the loop asks exactly the unproven machines of the lease that have a session |
| ServiceObject.NodeService.MemberStopProven | crates/node/src/service.rs:2615-2624 | true exactly with a stop proof for the machine's current session |
| ServiceObject.NodeService.AbsorbStop | crates/node/src/service.rs:2302-2333 | an acknowledgement of the current session is recorded and releases exactly the holds it proves, or aborts exactly when a prepare or activate is held with its member proven stopped; any other proves nothing |
| ServiceObject.NodeService.AbsorbExit | crates/node/src/service.rs:3086-3158 | a member found exited is proven stopped whether or not its lease has ended; if it has, the other members are asked to stop and what was held is driven, with the same abort |
| ServiceObject.NodeService.MaybeActivate | crates/node/src/service.rs:2673-2697 | nothing is decided before every binding of the lease is prepared; then the lease and each of its bindings is activated |
| ServiceObject.NodeService.Apply | crates/node/src/service.rs:1066-1069 | commits a command and routes what is pending; a refused command changes nothing |
| ServiceObject.NodeService.AbsorbBinding | crates/node/src/service.rs:2169-2238 | an answer in kind becomes the one matching acknowledgement, and the last prepare acknowledgement of a lease goes on to activate it |
| ServiceObject.NodeService.DriveHeldEffects | crates/node/src/service.rs:2628-2668 | aborts exactly when a prepare or activate is held with its member proven stopped; else splits what was held exactly: proven closes are on their way in their machine's current session, unproven ones stay held |
| ServiceObject.NodeService.ForgetObservations | crates/node/src/service.rs:1292-1308 | a restarted controller has no proof, nothing in flight and nothing held, and keeps the cluster |

## Left out

- Error kinds, placement explanations, admission traces and log text: only success, refusal and results are modelled.
- Order of effects within one command, and of candidates with equal scores: effects are sets and ranking is any permutation.
- u64 limits of fences, sessions, handles and sequence numbers: they are unbounded here, except the saturating epoch, revision and deadlines.
- DeviceFilter.RightIffJumpFits: stops at 6553 rules, where the condition is a distance; `SettlesIff` is exact for every number of rules, without a bound on the steps.
- Instruction encoding, BPF system calls and device discovery: operating-system interface.
- Backfill.AdmitBackfill: takes the queue in admission order and the quota test as a parameter; weighted fair-share ordering and owner ceilings are not modelled.
- Backfill.ShadowHead: sums projections in unbounded numbers; where a projection is not clean the 64-bit sum of the code can overflow.
- Backfill.OpeningProtects: holds for every placement function that covers what it claims, which `Select.SolutionCovers` shows of select's results.
- Preempt.PreemptionPlan: holds for any placement function of scene and request, so completeness of placement is not part of it; `PlanOpens` is for placement functions that return solutions.
- Placement without topology constraints: the greedy pass has no fallback there, so only soundness is proved.
- Rank scores, data locality and health penalties: scoring only, no property depends on them.
- Simulator.World.Apply: commands other than acknowledgements; an acknowledgement no endpoint gave would make the kernel free capacity that is still enforced.
- Simulator.World.Inject: only effects that were sent at some time, not invented ones.
- Agent processes that forget their endpoints on restart: simulated endpoints persist, as in the simulator.
- World helpers for admission, promotion and deadlines: sequences of commands the protocol already allows.
- StopGate.TurnGated: machine recovery appears only as recovered exits, agents answer in kind, and the set of program-carrying leases is fixed.
- ServiceObject.NodeService.Pump: machines under recovery are routed like any other.
- ServiceObject.NodeService.PumpReconcile: machines under recovery, which the code resolves member by member, are not told apart.
- ServiceObject.NodeService.AbsorbExit: for a live lease only the stop proof is recorded; adopting its bindings and completing it are left out.
- ServiceObject.NodeService.Apply: takes the commands the controller decides on; the code also takes acknowledgements and single-binding teardowns, which would bypass the gate.
- ServiceObject.NodeService.AbsorbBinding: the start of executions after an activation is not modelled.
- Journal records: any faithful codec without newlines, not JSON; legacy command-only logs and version-1 snapshots are not modelled.
- Recovery.Boot: a snapshot whose cluster breaks the authority invariant is not modelled; the files of every run hold one that keeps it.
- Recovery.IncidentSound: a metadata record equal to the last one is written again where the sink skips it.
- Transport, threads, process and container supervision, service groups and the command line: no decision about authority is taken there.
- CpuLists.RoundTripIff: the wrapping successor of a build without overflow checks.
- CpuLists.ParseCpuList: trims ASCII blanks only, where the code trims every Unicode blank.
- CpuLists.ParseRange: trims ASCII blanks only, likewise.
