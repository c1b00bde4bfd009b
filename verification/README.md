# A verified model of the deployment engine

This project models, in Dafny 4.11, the engine that turns a deployment inventory into running containers, and proves
what an operator relies on. It has seven parts.

1. **Applying a plan** (`Effects`, `Runs`, `Consequences`, `RunLimits`, `Moves`, `Runner`). A world holds the installed bundle, the status file,
   the staged copy on each host and the containers that exist, each with the digest of the inputs it was created from.
   `Runner.Controller` writes the status, stages, and walks the steps as the code does; every operation may raise, and
   containers may vanish between any two steps, except in a call marked calm. Its methods are tied to effect relations,
   and the theorems are about every run made of such effects.
2. **Planning** (`Inventory`, `Groups`, `Planner`, `LayerOrder`, `Plans`). The typed connection graph, the greedy layering
   loop, the step list with its readiness gates, and the assignment of services to groups.
3. **Networking** (`Routing`, `Exposures`, `Peerings`, `ChainPeers`, `Expansion`, `Access`, `Endpoints`). Which network a
   connection uses, what each service must listen on, the peer matrices, and the endpoints derived from them.
4. **Docker subnets** (`Subnets`), as CIDR blocks in the sense of section 3.1 of RFC 4632.
5. **Availability** (`Availability`, `Objectives`): failure scenarios, quorum, and the production objectives counted
   independently of them.
6. **Bundles and revisions** (`Bundles`): three directory slots, an index of immutable records, an exception anywhere.
7. **Documents** (`Merging`, `Naming`, `Session`, `Operations`): override merging, positional instance names, and the
   transactional editing session with its operations.

`Ordering` and `Model` hold the shared values: Python's order on strings, stable sorting by a key, machines, services.
Dictionaries keyed by id are maps, or sequences where their order matters; an id is a string wrapped in a datatype.

Where a result is stated with a function the code itself calls, a lemma whose name ends in `Iff` or `Means` says in terms of
the inputs alone what that function computes.

## What the proofs found

Each of these is a lemma with a concrete instance or an exact condition.

- A push that raises leaves staged files that a later `recreate` may start under a fingerprint that says otherwise. It is
  harmless exactly when the hosts already pushed, and what was left on the host it stopped at, carry what the record says
  (`InterruptedPushIsSafeIff`); a reachable run in which they do not ends in a skipped service on other inputs
  (`InterruptedPushCanLie`).
- After a successful `recreate` every later run skips only services on the desired inputs, exactly when its target is not
  the RPC probe (`RecreateIsSafeIff`); a recreated probe is taken for an up-to-date one (`RecreatedProbeIsReused`).
- A fingerprint does not name the group. Reuse by a plan can be trusted from every sound state exactly when the plan keeps
  every service in its slot (`MoveIsSafeIff`). Onto slots without containers a move is safe all the same
  (`MoveOntoVacantSlots`), so the first move always is (`FirstMoveIsSafe`), but a service moved to another group of its
  machine and back reuses its first container (`MovedServiceIsReused`).
- A revision directory left half-written blocks that revision for ever (`LeftoverBlocksRevision`).
- The loopback steps keep the derived exposures exactly when no opened front end has a remote consumer and an all-local
  primary RPC is not needed on two networks (`LocalAccessIff`, `LocalDirectCanBreak`).
- An operator's advertised address on a storage service is dropped as soon as a second network uses the service
  (`AdvertisedEndpointSurvivesIff`).
- The resolver expands peer links without looking at routes; the validator then accepts them exactly when every pair's
  network is shared or routed and every port is in range (`MeshIsAccepted`).
- Node addresses on one host ignore the size of the subnet (`HostAddressesFitIff`, `SmallSubnetHoldsNoNode`). The
  comment on the lab addresses says that their range is bounded by validation; the bound is the function's own check.
- Removing a group that is not last renames later instances, so a binding keeps its text and changes its meaning
  (`BindingMeansSameGroupIff`, `BindingCanMove`).

## Model

| member | source | states |
|---|---|---|
| Runner.Controller.Apply | deployment_v3/runner.py:688-845 | whatever raises, and whatever containers vanish meanwhile, the effect of an apply is a refusal that changes no record or an `ApplyEffect` up to some step; it is refused whenever a service on record as applied is missing from the plan, while stopped and removed ones may be missing; every status written is the status after some number of steps; a calm apply that is not so refused and whose bundle renders the plan walks it whole |
| Runner.Controller.SelectChanged | deployment_v3/runner.py:725-768 | the services to start are those not recorded as desired and those without a container; undisturbed, a service is left alone exactly when the status has it applied with the digest of its inputs in the bundle and its container exists |
| Runner.Controller.StageChanged | deployment_v3/runner.py:769-795 | only hosts of changed services are touched; on success they carry the bundle's inputs |
| Runner.Controller.Execute | deployment_v3/runner.py:775-844 | the fingerprints are cleared on disk before anything is staged |
| Runner.Controller.Walk | deployment_v3/runner.py:796-844 | after k steps the status is that of k steps and the containers are those of k steps, one more possibly in flight; a calm walk finishes |
| Runner.Controller.Perform | deployment_v3/runner.py:571-685 | a changed service that starts runs its staged inputs; a failed start leaves its slot old, empty or new |
| Runner.Controller.PrepareOrResume | deployment_v3/runner.py:705-715 | a resume keeps the installed bundle; otherwise the bundle is the old one or the new one |
| Runner.Controller.Push | deployment_v3/runner.py:848-895 | a completed push stages every host and leaves no fingerprint and no applied service; one that raised has staged the hosts in `done`, may have been cut short on one more, and changed nothing else; a calm one completes exactly when a bundle is installed |
| Runner.Controller.ManageService | deployment_v3/runner.py:1154-1216 | one lifecycle action, succeeding or failing, changes only its own slot and its own state on record: stopped after stop, removed after remove, applied after anything else; a calm one succeeds exactly when the service is no migration or contract job, is staged and, to stop, start, restart or remove it, has a container |
| Runner.AdvanceIsNext | deployment_v3/runner.py:810-843 | the in-memory status after a step is the status the number of steps determines |
| Runs.ReuseIsSound | deployment_v3/runner.py:719-795 | in every run of applies, completed pushes, lifecycle actions and outside removals, a recorded fingerprint is the staged one and that of any existing container, whether the service is applied or not |
| Runs.SoundIsSafe | deployment_v3/runner.py:725-768 | from a sound state, however the run goes on, every apply skips only services with a container on the desired inputs |
| Consequences.LieIsActedOn | deployment_v3/runner.py:725-768 | from a state whose record is wrong about a container of an applied service, some later apply skips that service |
| Runs.ApplyKeepsSound | deployment_v3/runner.py:775-843 | one apply, stopped anywhere, keeps that invariant |
| Runs.PushKeepsSound | deployment_v3/runner.py:882-895 | so does a completed push |
| Runs.LifecycleKeepsSound | deployment_v3/runner.py:1154-1215 | so does every lifecycle action but recreating the RPC probe |
| Runs.SkippedRunDesired | deployment_v3/runner.py:761-768 | a skipped service has a container created from the desired inputs |
| Runs.ApplyConverges | deployment_v3/runner.py:722-844 | from every reachable world a completed undisturbed apply records exactly the desired fingerprints and leaves every long-running service on desired inputs; applying again touches only jobs |
| Runs.CompletionRecordsDesired | deployment_v3/runner.py:810-844 | completion records every planned service as applied, with the desired fingerprints and no others |
| Runs.CompletionStartsAll | deployment_v3/runner.py:816-828 | an undisturbed completed apply leaves a container for every long-running service |
| Runs.JobsLeaveNoContainer | deployment_v3/runner.py:628-685 | an apply leaves no new container of a migration, the contract job or the RPC probe, and on completion one of every other type |
| Runs.CompletionIsHonest | deployment_v3/runner.py:810-844 | after completion no planned service has a container on other inputs, even if containers vanished |
| Runs.SecondApplyTouchesJobs | deployment_v3/runner.py:750-768 | in a settled world an apply of the same bundle selects only `run --rm` jobs |
| Runs.ProgressIsClosed | deployment_v3/planner.py:58-66 | the services applied by the first k steps contain all their providers |
| Runs.RecordIsClosed | deployment_v3/runner.py:796-843 | after every apply that began its walk, failed or not, the services with a fingerprint on disk belong to the plan and contain all their providers; a refused one leaves the record as it was |
| Runs.AppliedBelong | deployment_v3/runner.py:722-724 | after every apply that began its walk, each service on record as applied belongs to the plan |
| Runs.RunAppliedBelong | deployment_v3/runner.py:722-724 | the same at every such point of every run |
| Runs.RunRecordIsClosed | deployment_v3/runner.py:719-843 | at every point of every run the record is empty or closed in that sense in the plan of the last apply that began its walk |
| Runner.WritesAreClosed | deployment_v3/runner.py:796-843 | every single status an apply writes is closed: no service without all its providers |
| Effects.NoneDroppedIff | deployment_v3/runner.py:722-724 | what the check for removed services computes: no service applied on record is missing from the plan |
| Effects.RecordedIff | deployment_v3/runner.py:735-749 | what counts as unchanged: applied on record, with a recorded fingerprint equal to the desired one |
| Effects.DesiredAt | deployment_v3/runner.py:461-494 | a fingerprint is the digest of the inputs at the machine, group and service of the plan |
| Runs.GatesFirst | deployment_v3/planner.py:67-73 | a service step comes after the gates of all earlier inhabited phases |
| Runs.NoServiceBeforeItsGates | deployment_v3/runner.py:796-843 | a container an apply started implies that the gates of all earlier inhabited phases passed in that apply |
| Runs.PlannedIsRunnable | deployment_v3/planner.py:45-75 | every plan the planner builds meets what the runner needs of a plan |
| RunLimits.InterruptedPushIsSafeIff | deployment_v3/runner.py:882-895 | after a push that raised, recreating recorded services keeps the record true, and every later run skips only services on the desired inputs, both exactly when the pushed hosts and what was left on the host it stopped at match the record |
| RunLimits.InterruptedPushCanLie | deployment_v3/runner.py:882-895 | a run from nothing to such a push that does not match, a recreate after it, and an apply that skips the service on other inputs |
| RunLimits.RecreateIsSafeIff | deployment_v3/runner.py:1205-1215 | after a successful recreate every later run skips only services on the desired inputs, exactly for services other than the RPC probe |
| RunLimits.RecreateKeepsSoundIff | deployment_v3/runner.py:1205-1215 | the same boundary for the invariant of `Runs.ReuseIsSound` |
| RunLimits.RecreatedProbeIsReused | deployment_v3/runner.py:762-768 | a run in which a recreated probe on old inputs is reused as current |
| Moves.MoveIsSafeIff | deployment_v3/runner.py:461-494 | every apply of a plan from every sound state skips only services on the desired inputs, exactly when the plan keeps every service in its machine and group |
| Moves.MoveOntoVacantSlots | deployment_v3/runner.py:725-843 | when no container stands at a slot a service moves to, every apply is safe and its record true of the new places |
| Moves.FirstMoveIsSafe | deployment_v3/runner.py:725-843 | from every state reachable without moves, one move to any places is safe |
| Moves.MovedServiceIsReused | deployment_v3/runner.py:461-494 | a run in which a service moved between groups and back is reused on other inputs |
| Effects.AppliedAreServices | deployment_v3/planner.py:58-66 | the whole plan applies every service and nothing else |
| Bundles.BundleStore.Prepare | deployment_v3/runner.py:394-429 | wherever it raises, an existing bundle is afterwards the whole old or the whole new one; on return the current revision names a record of the installed bundle; a calm prepare fails exactly for a revision blocked by a leftover |
| Bundles.BundleStore.WriteRevision | deployment_v3/runner.py:364-391 | existing records are kept; success makes the bundle's record current |
| Bundles.BundleStore.Replace | deployment_v3/runner.py:417-422 | an exception between the renames leaves the bundle old, new, or parked in the previous slot |
| Bundles.RecordsArePermanent | deployment_v3/runner.py:379-390 | over any sequence of prepares no revision record changes and a whole bundle stays a whole bundle |
| Bundles.LeftoverBlocksRevision | deployment_v3/runner.py:380-386 | a half-written revision makes every later prepare of that revision fail |
| Inventory.ContractsDescend | deployment_v3/inventory.py:713-754 | an accepted connection goes to a service of strictly lower rank and no later phase |
| Inventory.ContractDescends | deployment_v3/inventory.py:40-55 | every typed contract, with the observer substitution, lowers the rank |
| Inventory.AllowedIff | deployment_v3/inventory.py:708-754 | the connections of a service are accepted exactly when the validator has none of its complaints, listed one by one |
| Inventory.ContractIff | deployment_v3/inventory.py:40-55 | which names each type connects by, and to which type |
| Inventory.PhaseIff | deployment_v3/planner.py:14-22 | the phase of a type is its place in the table of phases |
| Inventory.ContractedIsAcyclic | deployment_v3/inventory.py:708-754 | an accepted inventory has no missing provider and no dependency cycle |
| Inventory.StuckHasCycle | deployment_v3/planner.py:36-37 | services that all wait for each other contain a cycle |
| Planner.Layers | deployment_v3/planner.py:25-42 | for arbitrary services the loop returns exactly when every provider exists and there is no cycle, and then returns a layering |
| Planner.NothingReady | deployment_v3/planner.py:34-37 | nothing ready while services are pending means a missing provider or a cycle |
| Planner.LayeringIsAcyclic | deployment_v3/planner.py:29-41 | a layering exists only for a closed acyclic graph |
| LayerOrder.LayersAreASort | deployment_v3/planner.py:25-42 | for every accepted inventory and listing order, the flattened layers are the services sorted by phase, longest same-phase chain, id |
| LayerOrder.OneLayerPerBand | deployment_v3/planner.py:30-33 | there is one layer per phase and chain length, in that order |
| LayerOrder.ChainsFitDepth | deployment_v3/planner.py:30-33 | no same-phase chain is longer than the depth used as sort key |
| LayerOrder.DepthIsAttained | deployment_v3/planner.py:30-33 | some same-phase chain is exactly that long |
| LayerOrder.LayeringIsUnique | deployment_v3/planner.py:29-41 | a graph has at most one layering |
| Plans.BuildPlan | deployment_v3/planner.py:45-75 | the step list has the specified ids in order and each dependency earlier; each machine is checked by itself, then the network after all of them; each service step runs on its service's machine and group after its providers or the previous stage; the verification runs last, on the first machine, after the step before it |
| Plans.PlanIdsUnique | deployment_v3/planner.py:48-74 | step ids are unique |
| Plans.PlanCovers | deployment_v3/planner.py:58-73 | each service has an apply step, and a phase has a gate exactly when it has services |
| Plans.PlanSeparates | deployment_v3/planner.py:67-73 | the gate of a phase separates its services and all earlier ones from all later ones |
| Plans.PhasesAscend | deployment_v3/planner.py:31-33 | layers never return to an earlier phase |
| Plans.StepsFollowPhases | deployment_v3/planner.py:14-22 | in every plan of an accepted inventory no service starts before one whose type comes in an earlier row of the table of phases |
| Plans.StepTextInjective | deployment_v3/planner.py:48-74 | different steps are spelled differently |
| Groups.GroupsForInventory | deployment_v3/inventory.py:438-517 | grouping succeeds exactly for acceptable definitions, and each group then holds what it lists and what its machine adds |
| Groups.SoundIff | deployment_v3/inventory.py:459-501 | a definition is accepted exactly when none of the complaints about it holds: its kind, machine, members, list, and the type and machine of every service it lists |
| Groups.FallbackMeans | deployment_v3/inventory.py:448-452 | without definitions each machine has one server group with its services in inventory order |
| Groups.GroupsPartitionServices | deployment_v3/inventory.py:453-517 | explicit groups: every service is in exactly one group, on its machine |
| Groups.FallbackPartitionsServices | deployment_v3/inventory.py:448-452 | the same for the one-group-per-machine fallback |
| Groups.AdoptUnlisted | deployment_v3/inventory.py:503-517 | unlisted services are adopted exactly when their machine has one group |
| Subnets.AllocateDockerSubnets | deployment_v3/network.py:18-33 | allocation succeeds exactly when every machine's request, in id order, is available and off all networks and earlier blocks |
| Subnets.AllocationCovers | deployment_v3/network.py:28-33 | every machine gets a block, its own when it names one |
| Subnets.BlockByRank | deployment_v3/network.py:28-33 | a machine without a subnet of its own gets the pool block numbered by how many such machines come earlier in the alphabet |
| Subnets.AllocatedBlocksDisjoint | deployment_v3/network.py:28-33 | blocks of different machines share no address |
| Subnets.AllocatedBlocksOffNetworks | deployment_v3/network.py:23-31 | no block shares an address with a declared network |
| Subnets.ExactCapacity | deployment_v3/network.py:18-33 | with no explicit subnets and a free pool, allocation succeeds exactly up to 2^(prefix - pool prefix) machines, the k-th getting the k-th block |
| Subnets.OverlapsMeansSharedAddress | deployment_v3/network.py:30 | the overlap test decides whether two blocks share an address |
| Exposures.RouteConnections | deployment_v3/inventory_resolver.py:577-597 | it succeeds exactly when every cross-host connection has a network its policy gives and that carries; then each such connection has that network and TCP, the others none, and exactly the selected networks are collected |
| Routing.NetworkIff | deployment_v3/inventory_resolver.py:72-107 | the network between two machines, from the policy's own fields: the traffic's policy or else the defaults; the same-site selector for equal sites and the cross-site one otherwise; a literal as it is, `site_lan` as the LAN of the target's site |
| Routing.RouteIff | deployment_v3/inventory_resolver.py:577-597 | the transport of a connection: Cluster nodes count as storage API, Kubo nodes as storage peers, all others as applications; the contract job and services on one host have none |
| Routing.ReachesIff | deployment_v3/inventory_resolver.py:110-112 | a network carries when the target is attached to it and the source is, or has a declared route from one of its networks |
| Exposures.StoreConnections | deployment_v3/inventory_resolver.py:601-608 | Stores add the network of the Kubo behind each remote Cluster connection |
| Exposures.StoreEdgeIff | deployment_v3/inventory_resolver.py:601-608 | the Kubo a Store uses is the first the Cluster node names, on the Cluster connection's network unless it is on the Store's own host |
| Exposures.Expose | deployment_v3/inventory_resolver.py:609-630 | each service publishes its required networks and unneeded private exposures are withdrawn |
| Exposures.ExposedMeans | deployment_v3/inventory_resolver.py:609-630 | needed nowhere, a private exposure goes except on a proxy; on one network the service is exposed there; on several it has a listener on each in alphabetical order; always on the port of its type or else its own |
| Exposures.ConnectAndExpose | deployment_v3/inventory_resolver.py:577-630 | the pass fails exactly for an unusable network, a Store edge without one or an unknown port; its result is sufficient, least and in one form |
| Exposures.ExposureIsExact | deployment_v3/inventory_resolver.py:609-630 | exposures derived from exact requirements serve every needed network and, proxies aside, publish no other |
| Exposures.ExposuresAreUnique | deployment_v3/inventory_resolver.py:609-630 | the needs alone decide the exposures: the order in which networks were collected leaves no trace |
| Peerings.MeshDefined | deployment_v3/inventory_resolver.py:686-694 | the matrix exists exactly when every ordered pair has a usable edge |
| Peerings.MeshIsSimple | deployment_v3/inventory_resolver.py:686-694 | n peers give n(n-1) edges without loop or duplicate |
| Peerings.MeshIsOwn | deployment_v3/inventory_resolver.py:687-692 | every edge carries its target's own address on the network selected for the pair, and its port |
| Peerings.MeshIsComplete | deployment_v3/inventory_resolver.py:693 | every two different peers are joined in both directions |
| Peerings.DialsOthers | deployment_v3/artifacts.py:188-195 | in a matrix each source dials every other peer exactly once, in order |
| Expansion.Expand | deployment_v3/inventory_resolver.py:668-709 | expansion succeeds exactly when every two peers of each family with a locality policy have a network the policy gives and an address on it; exactly those families then have a list, with one edge for each ordered pair of different peers, at the target's own address, each peer dialling the others in order |
| Expansion.ExpandedEdge | deployment_v3/inventory_resolver.py:671-709 | every edge joins two services of its family at the target's address on the network that family's own policy gives for the two sites, at its override or else the family's port, which for a chain node is the start port plus the number of nodes before it |
| Expansion.ExpandedPair | deployment_v3/inventory_resolver.py:671-709 | every two services of the family are joined |
| Expansion.MeshedIff | deployment_v3/inventory_resolver.py:668-671 | a family is expanded exactly when its policy, or else the default, compares sites or names the site LAN |
| Expansion.BlockchainListsOnce | deployment_v3/inventory_resolver.py:675-681 | the blockchain family lists every node service once |
| Expansion.StorageListsOnce | deployment_v3/inventory_resolver.py:700 | a storage family lists every service of its kind once |
| Expansion.CheckPeerings | deployment_v3/inventory.py:837-863 | the validator's loop accepts exactly the edge lists about which it has no complaint, which are the simple lists of acceptable edges |
| Expansion.MeshIsAccepted | deployment_v3/inventory.py:846-863 | an expanded matrix is accepted exactly when every pair's network is shared or routed and every port is in range |
| Expansion.LabAddressesDistinct | deployment_v3/network.py:42-57 | two containers of a lab never share an address, and each lies inside the network below its broadcast address |
| Expansion.LabAddressIs | deployment_v3/network.py:42-57 | the address is ten places above the base plus one for each id that comes earlier in the alphabet, below the broadcast address |
| Expansion.LabHasRoomIff | deployment_v3/network.py:52-57 | every container gets an address exactly when the network leaves room above the first ten |
| Expansion.StaticListNamesOthers | deployment_v3/artifacts.py:176-196 | a node's static list names every other node exactly once, from the recorded matrix if there is one and from the nodes' own endpoints otherwise |
| Expansion.StaticEntriesReachPeers | deployment_v3/artifacts.py:136-144 | an entry is the peer's own address and port on the selected network, or its lab address with the fixed port |
| ChainPeers.OrderedNodesExact | deployment_v3/inventory_resolver.py:677-681 | sorting gives every node service one position |
| ChainPeers.PortByCount | deployment_v3/inventory_resolver.py:677-685 | a node's port is its override or the start port plus the number of nodes before it: validators, RPC nodes, observers, each in alphabetical order |
| ChainPeers.PortsAreDistinct | deployment_v3/inventory_resolver.py:682-685 | two nodes without an override never share a port |
| ChainPeers.SameOrder | deployment_v3/network.py:175-176 | the resolver and `chain_node_ports` put the nodes in the same order |
| ChainPeers.PortsAgree | deployment_v3/network.py:147-186 | the port in the edges is the announced port exactly when two nodes are on different hosts, the port is overridden, or its turn is 30303 |
| ChainPeers.HostAddressesFitIff | deployment_v3/network.py:152-166 | node addresses stay inside the subnet exactly when it holds ten more addresses than nodes |
| ChainPeers.SmallSubnetHoldsNoNode | deployment_v3/network.py:157-161 | in a subnet of prefix 30 not even the first node fits |
| Access.OpenLocalAccess | deployment_v3/inventory_resolver.py:631-641 | the loopback steps fail exactly for an opened service without a known port |
| Access.OpensIff | deployment_v3/inventory_resolver.py:631-641 | which services get a loopback port, and which port |
| Access.LocalAccessIff | deployment_v3/inventory_resolver.py:631-641 | the steps keep exposures sufficient and in one form exactly when no opened front end is needed remotely and an all-local primary RPC not on two networks |
| Access.LocalDirectCanBreak | deployment_v3/inventory_resolver.py:637-641 | a needed private endpoint replaced by a loopback port |
| Access.AdvertiseAll | deployment_v3/inventory_resolver.py:643-666 | overrides apply exactly to known services, private endpoints and peer ports |
| Access.AdvertisesIff | deployment_v3/inventory_resolver.py:649-666 | an override applies exactly to a private endpoint and a peer port in range, and replaces exactly the address, port and peer port it names |
| Access.AdvertisingKeeps | deployment_v3/inventory_resolver.py:654-659 | overrides change neither what is served nor the form |
| Access.StorageListensExactly | deployment_v3/inventory_resolver.py:714-741 | afterwards a storage service listens exactly on its own network, its remote callers' and its peers' |
| Access.SplitMeans | deployment_v3/inventory_resolver.py:714-741 | a private storage service a second network needs has one listener on each, in alphabetical order, with its port and protocols |
| Access.SplittingKeeps | deployment_v3/inventory_resolver.py:714-741 | the storage step keeps every needed network served and one form |
| Access.AdvertisedEndpointSurvivesIff | deployment_v3/inventory_resolver.py:734-741 | an advertised address survives exactly when no second network uses the service |
| Endpoints.CheckConnections | deployment_v3/inventory.py:799-829 | the validator's loop accepts exactly when it has no complaint about any connection |
| Endpoints.AcceptedHasEndpoint | deployment_v3/network.py:60-86 | an accepted connection to anything but the contract job has an endpoint, on the connection's network |
| Endpoints.DeriveEndpoints | deployment_v3/network.py:89-99 | derivation succeeds exactly when every connection but those to the contract job can be reached, and tabulates exactly the joined pairs, each with an endpoint its connection is reached at |
| Endpoints.EndpointIff | deployment_v3/network.py:60-86 | the endpoint is Docker exactly within one machine or between two labs, by alias and container port, network-qualified between labs; otherwise it is the address and port announced on the connection's network by the first listener there or else the private exposure, an advertised port of zero counting as absent |
| Endpoints.AcceptedIsTotal | deployment_v3/network.py:89-99 | validation makes endpoint derivation total |
| Endpoints.EndpointIsUnique | deployment_v3/network.py:92-98 | all connections between two services are reached at one and the same endpoint, so overwriting in the table loses nothing |
| Endpoints.ResolvedIsAccepted | deployment_v3/inventory.py:801-829 | transports from the policy with sufficient exposures pass validation |
| Endpoints.ResolveNetworking | deployment_v3/inventory_resolver.py:577-741 | it succeeds exactly when the inputs admit the steps in order: routed connections, exposures for exactly the needs, loopback access, fitting overrides, addressable peers; undisturbed, the result is sufficient, in one form and accepted by the validator |
| Endpoints.StepsAreUnique | deployment_v3/inventory_resolver.py:577-741 | the inputs admit at most one outcome of every step |
| Endpoints.FinishNetworking | deployment_v3/inventory_resolver.py:631-741 | from given exposures the later steps succeed exactly when they can be taken; the result has full peer meshes and split storage listeners |
| Merging.Merge | deployment_v3/inventory_resolver.py:53-62 | merging fails exactly when the override does not fit, and otherwise yields the merged tree |
| Merging.FitsIff | deployment_v3/inventory_resolver.py:56-57 | it fails exactly when, at an object reached in both trees, the override names a key the base lacks |
| Merging.MergedAt | deployment_v3/inventory_resolver.py:58-61 | path by path: the override's value, a merged object with the base's keys, or the base unchanged |
| Merging.MergeIdempotent | deployment_v3/inventory_resolver.py:53-62 | merging the same override again changes nothing |
| Naming.NumberInstances | deployment_v3/inventory_resolver.py:185-202 | numbering fails exactly for an empty group; otherwise position i is owned by the group whose interval holds it |
| Naming.NamesInjective | deployment_v3/inventory_resolver.py:193 | zero-padded names of different positions differ |
| Naming.PaddedMeans | deployment_v3/inventory_resolver.py:193 | the number in a name is decimal, with a leading zero only to fill two places |
| Naming.OwnerIff | deployment_v3/inventory_resolver.py:187-193 | each group owns one contiguous interval |
| Naming.InstancesDistinct | deployment_v3/inventory_resolver.py:193-202 | no instance overwrites another |
| Naming.AppendingKeepsNames | deployment_v3/inventory_resolver.py:186-202 | a group declared last renames and moves no existing instance |
| Naming.OwnerAfterRemoval | deployment_v3/inventory_resolver.py:186-202 | who owns a position after a group is removed |
| Naming.NameKeepsGroupIff | deployment_v3/inventory_resolver.py:186-202 | exactly when a name keeps its group after a removal |
| Naming.OfferedAreCreated | web-wizard/webwizard/operations.py:362-369 | the names the editor computes are those the resolver creates |
| Availability.CountBy | deployment_v3/availability.py:44-57 | counting into a dict gives the count of every key, keys in first-seen order |
| Availability.TallySums | deployment_v3/availability.py:48-57 | the counts add up to the services counted |
| Availability.Analyze | deployment_v3/availability.py:39-114 | every field of the report: totals, copies, counts, the scenarios in order, each with what is left, judged by the quorum and both replica counts in numbers, and the warnings in order |
| Availability.ScenariosCover | deployment_v3/availability.py:82-97 | each validator, storage peer, group of a validator and machine of a counted service has its scenario |
| Availability.PrimaryIsCovered | deployment_v3/availability.py:86-96 | so have the primary RPC and its machine |
| Availability.WarnedIff | deployment_v3/availability.py:97-107 | a machine or group is warned about exactly when it has validators and losing it loses the quorum; the other two warnings mean one machine and shared storage |
| Availability.QuorumMargin | deployment_v3/availability.py:58-59 | n - quorum is (n-1)/3; the quorum is at least two thirds, rounded up unless 3 divides n |
| Availability.QuorumsIntersect | deployment_v3/availability.py:58-59 | two quorums share more than (n-1)/3 members |
| Availability.SurvivorsIff | deployment_v3/availability.py:66-68 | survivors form a quorum exactly when at most (n-1)/3 are lost |
| Objectives.LossIsSubset | deployment_v3/availability.py:66-84 | a scenario's count is a set of validators, and consensus continues exactly when the survivors form a quorum |
| Objectives.ListedIsCount | deployment_v3/inventory_resolver.py:136 | counting a group's list is counting the validators indexed under it |
| Objectives.WhereIsCount | deployment_v3/inventory_resolver.py:138-139 | the two counts per machine agree |
| Objectives.ValidatorObjectiveAgrees | deployment_v3/inventory_resolver.py:143 | met exactly when no single-validator scenario loses quorum |
| Objectives.AdoptionKeepsCount | deployment_v3/inventory_resolver.py:136 | a group of the plan has as many validators as the list the resolver counts, whatever services it adopts |
| Objectives.GroupObjectiveAgrees | deployment_v3/inventory_resolver.py:144 | met over the resolver's own lists exactly when the analysis of the plan's groups has no group scenario that loses quorum |
| Objectives.MachineObjectiveAgrees | deployment_v3/inventory_resolver.py:145 | met over all machines exactly when no machine scenario loses quorum |
| Objectives.StorageObjectiveAgrees | deployment_v3/inventory_resolver.py:148 | met exactly when no machine scenario leaves storage undurable or unpublishable |
| Objectives.ProductionAcceptedIff | deployment_v3/inventory_resolver.py:122-157 | a production deployment passes exactly when it acknowledges the selected objectives the analysis reports against |
| Session.DraftSession.Open | web-wizard/webwizard/session.py:62-83 | a session opens exactly for a document that resolves |
| Session.DraftSession.Apply | web-wizard/webwizard/session.py:89-103 | a change is committed exactly when it and its resolution succeed; otherwise only the error changes |
| Session.DraftSession.Undo | web-wizard/webwizard/session.py:105-112 | undo never raises and restores the last committed draft |
| Session.DraftSession.Reset | web-wizard/webwizard/session.py:114-120 | reset never raises and restores the original |
| Session.DraftSession.Save | web-wizard/webwizard/session.py:168-224 | no existing file is changed, the draft is untouched, and a successful save reads back as the draft |
| Session.RunKeepsSound | web-wizard/webwizard/session.py:89-120 | in every reachable state the resolution is the draft's and every undo entry resolves |
| Session.RejectionChangesNothing | web-wizard/webwizard/session.py:91-97 | in every run, leaving out the edits that get rejected changes nothing but the reported error |
| Session.UndosRestore | web-wizard/webwizard/session.py:98-112 | k commits among rejected changes and saves, then k undos, restore draft, resolution and stack |
| Operations.Perform | web-wizard/webwizard/operations.py:66-68 | a failed check leaves the whole session as it was; a failed change leaves all but the error |
| Operations.PrecheckIff | web-wizard/webwizard/operations.py:58-84 | the check fails exactly for a count outside 1 to 1000, a group that exists or is placed already, an unknown machine, or an unknown group or node to remove |
| Operations.AddGroupMeans | web-wizard/webwizard/operations.py:268-282 | the group comes last in its section, with its count, placed on its machine; nothing else changes |
| Operations.RemoveGroupMeans | web-wizard/webwizard/operations.py:293-301 | the group leaves its section and the placement; the other groups keep their order and nothing else changes |
| Operations.ClearBindingMeans | web-wizard/webwizard/operations.py:371-377 | clearing a binding removes it, and the bindings with the last of them |
| Operations.AddThenRemoveRestores | web-wizard/webwizard/operations.py:268-301 | removing the group just added restores the document, an absent section staying as an empty one |
| Operations.AddGroupKeepsInstances | web-wizard/webwizard/operations.py:268-282 | adding a group renames no instance |
| Operations.RemoveRpcNodeKeepsReferences | web-wizard/webwizard/operations.py:325-342 | fails only for the last primary; otherwise no reference to the removed node remains and all others do, the first remaining node replaces a removed primary, and nothing else changes |
| Operations.BindingAcceptedIff | web-wizard/webwizard/operations.py:353-385 | a binding is accepted exactly for an RPC node or an observer the resolver creates |
| Operations.BindingMeansSameGroupIff | web-wizard/webwizard/operations.py:293-301 | exactly when a binding means the same group after an observer group is removed |
| Operations.BindingCanMove | web-wizard/webwizard/operations.py:293-301 | three groups of one: removing the first moves a binding to the second |
| Operations.ChainServiceIds | web-wizard/webwizard/operations.py:556-569 | the chain ids the editor lists are the RPC nodes and the instances the resolver creates |
| Ordering.StrLeIff | deployment_v3/network.py:28 | ids sort alphabetically: a prefix first, otherwise by the first character that differs |
| Ordering.SortIsStable | deployment_v3/inventory_resolver.py:677-681 | sorting keeps the order of elements with equal keys |

## Left out

- Subprocess, SSH, rsync, Docker, Git and chain calls: each is an operation that may fail; readiness, preflight and verification are boolean outcomes.
- SHA-256 and JSON serialisation: digests are injective, and a serialised document reads back as itself.
- Runner.Controller.Perform: a successful `docker compose up` is taken to leave a container on the staged inputs; inputs that Compose reads only through mounted files, and so does not compare, are not modelled, nor is `--force-recreate`.
- Runner.Controller.Apply: the journal, the requested revision, secrets, chain artifacts and cleaning of chain data are only places where it may raise; a missing Compose directory restaged for a local host (runner.py:573) is not modelled.
- Runs.ReuseIsSound: one controller at a time, since `push` takes no lock; interrupted pushes and recreating the probe are excluded and treated exactly in `RunLimits`, moves between slots in `Moves`; a service keeps its kind over a run. Each host keeps one staged copy: the directory per revision of an SSH host and the switching of its link are not modelled.
- Bundles.BundleStore.Prepare: a process killed between the two renames, and a failure inside the exception handler, are excluded.
- Plans.BuildPlan: the `auto` execution mode, step descriptions and actions are not modelled, and `machines` must not be empty, as the validator requires.
- Exposures.ConnectAndExpose: catalogue templates come without listeners; schema checks, the catalogue itself and the legacy infrastructure network are not modelled.
- Endpoints.CheckConnections: duplicate ports, infrastructure policy ports and single-field checks of the validator are left out.
- Expansion.StaticListNamesOthers: public keys are not modelled, and node ids are the service ids, as the resolver makes them.
- Objectives.GroupObjectiveAgrees: every validator is on some group's list, as the resolver places it (inventory_resolver.py:402).
- Naming.NumberInstances: counts are numbers; values of other types are rejected before this point.
- Session.DraftSession.Save: choosing a destination name, path resolution and a missing copy of the original bytes are not modelled; saving can fail at creation or while writing.
- Operations.Perform: four operations that meet names and references; the other handlers set single fields.
- `render.py` firewall suggestions, Compose, nginx and environment rendering, monitoring, terminal and browser interfaces, Lima scripts.
