# Model of the OVN scale-test scenarios

The scenarios drive an OVN control plane through long runs of iterations. Most of what they do is
send commands to `ovn-nbctl`, `ovs-vsctl` and shells; what they decide is which commands, addresses,
ports, groups and hosts to use, in functions that recompute each other's results and must agree. This
project models those decisions and proves what holds over every input and every run.

## How it is laid out

* `NorthDb`, `Batching`, `NbCtl`, `Builders`, `BuildersDb`: northbound commands with a database that can refuse each
  of them; the buffered client as a class with its fields; the controller operations as methods of a
  class that owns the one cached client. Every operation states exactly which commands it sends and
  leaves the client with batch mode off and nothing waiting. Nothing is lost, repeated or reordered for
  any batch size, so the database is the one immediate commands would have left.
* `Cidr`, `Topology`, `TopologyDb`, `TopologyRun`: address arithmetic, the routed topology with one
  gateway router per network, and a serial run of any number of iterations. Two results lead: peer
  integrity, for every topology, with gateways or without: no command is refused, each switch port
  of type router is paired with one router port, and every network and gateway is in place as the
  arguments say; and routing closure: each route's next hop is in a subnet of its router and belongs to
  the neighbouring router or to an external host that the localnet port of the gateway leads to.
  `TopologyRun.RunOnWire` says both of the database that the invocations on the wire leave behind.
* `TopologyClosure`, `WholeRun`: the exact condition for routing closure, and the topology run and the
  groups run composed: one database that has its peers, routes and groups in order.
* `RoutedPorts`, `RoutedPortsDb`, `PortDecisions`: ports created iteration by iteration with their
  network-policy and name-space groups, what a whole run leaves in every group and address set, and what
  the rules together decide for every packet from or to every port.
* `McastPlan`, `McastFile`, `McastTrigger`: the multicast workload planner, the input files (printed on
  one side, scanned character by character on the other), and the signal protocol between controller
  and testers in every interleaving. `McastTriggers.McastRun` joins the three.
* `PortBinding`, `VsCtl`, `SshConn`, `ChassisPairs`, `Sandboxes`: binding of ports to sandboxes, the
  buffered `ovs-vsctl` and shell clients, chassis addresses over hosts, sandbox creation and the registry
  of sandboxes.

Code that works by changing things is a method, with a class where the source has an object; each such
method is tied to a function of its inputs or of the old state, and the lemmas are about those
functions. Where the code lets an input through for which a property fails, the exact condition is
proved.

## What the code does not promise

* A command run outside batch mode while others wait loses those (`NbCtls.ImmediateDeliversIff`); a
  flush delivers only for a known install method and a clean buffer (`NbCtls.FlushDeliversIff`).
* Stopping a daemon that has no socket leaves a line in the buffer for one install method
  (`NbCtls.NbCtl.StopDaemon`).
* Two inputs that the scenarios let through are refused by the database: a cluster CIDR that is the
  default route, as soon as there is a gateway, and a word to wait for in upper case. The commands of a
  run are accepted exactly without them (`TopologyRun.PeersInEveryRun`, `RoutedPortsDb.GroupingRun`).
* Ports created on a topology with management ports are refused when a window reaches one
  (`WholeRuns.WholeRun`).
* Outside of prefixes up to /30 routes lead nowhere. Neither do default routes when the network name of
  the localnet ports and the one that the chassis map to br-ex, which are arguments of different
  scenarios, are not the same (`TopologyClosures.RoutingClosureIff`).
* The second rules of a policy allow any IPv4, so its address sets decide only how it is allowed
  (`PortDecisions.PortDecides`).
* With a match given, a second rule for a port is refused (`BuildersDb.PortRulesMade`).
* The two gateway addresses of a network are inside it exactly up to a /30 (`Cidrs.GatewaysInsideIff`).
* Address sets miss members as soon as an iteration has more than one port
  (`RoutedPortsDb.SetsCompleteIff`): one address is computed per call.
* The last rule of a network policy is written with the key `" action"`
  (`rally_ovs/plugins/ovs/scenarios/ovn_nb.py:82`), so it gets the default action; the model follows.
* Ports created at an offset below 2 run into the management port of their switch
  (`RoutedPorts.ManagementPortMissedIff`).
* A management port's ping target exists only if its network found a router
  (`TopologyRun.PingTargetRoutedIff`).
* A trigger is a `grep` for a substring: the one for an address ending in .1 also reaches the tester of
  .10 on its host (`McastTriggers.StrayNeighbours`), and a tester can then run ahead of the controller
  (`McastTriggers.InStepIff`). Signals can merge as soon as a tester may get two of them
  (`McastTriggers.NoneLostIff`).
* A block of more than 10000 groups is written past the tester's arrays (`McastFiles.FileReadsBack`).
* On a physical host without a container, binding runs no command; with docker it loses `--may-exist`
  (`VsCtls.BoundIff`).
* Fewer chassis addresses than hosts is a division by zero, none at all is not
  (`ChassisPairs.FewAddresses`).
* A sandbox batch below one makes no sandbox (`Sandboxes.BatchesMakeAll`); the size check of an iteration
  is against whatever network its window starts in (`Sandboxes.WindowFitsIff`,
  `Sandboxes.WindowLeavesNetwork`), and the window is in the network that was configured exactly when
  its end is (`Sandboxes.WindowInsideIff`); create-and-delete empties the farm's registry, because what it
  deletes is read off the dict that the registry was merged into (`Sandboxes.Farms.CreateAndDelete`).

## Assumptions

Division is that of Python 2. SSH delivers every script. The clocks, the answers of `random.choice` and
the contents of random names are parameters: names are numbered and distinct. Sandboxes are one per
farm and listed in farm order where that is said (`InFarmOrder`). `sem_wait` is restarted after a
signal handler, as `signal` arranges on Linux with glibc. Of the ACLs that match a packet those of the
highest priority decide, and an ACL of a port group is about the group's members.

## Model

| member | source | states |
|---|---|---|
| NorthDb.ApplyConcat | rally_ovs/plugins/ovs/ovsclients_impl.py:105-134 | an invocation of several commands does what two invocations of its parts do in turn |
| NorthDb.BatchesRefineCommands | rally_ovs/plugins/ovs/ovsclients_impl.py:62-134 | however commands are cut into invocations, the run succeeds exactly when the whole list does and ends in the same database; a failing run stops before the refused invocation |
| NorthDb.BatchingRefinesImmediate | rally_ovs/plugins/ovs/ovsclients_impl.py:62-134 | any cutting and immediate running succeed together with one database; on a refusal both have applied a prefix, the batched one no more |
| NorthDb.DecidesOnce | rally_ovs/plugins/ovs/scenarios/ovn_nb.py:51-173 | the rules of the highest priority among those that match a packet decide one thing at most |
| Batching.ChunksKeepOrder | rally_ovs/plugins/ovs/ovnclients.py:71-101 | counting flushes loses, repeats and reorders nothing, for any batch size |
| Batching.ChunkAt | rally_ovs/plugins/ovs/ovnclients.py:71-101 | invocation t carries the items from t * batch on, `batch` of them or the rest, and one each for a batch below one |
| Batching.ChunksSplit | rally_ovs/plugins/ovs/ovnclients.py:71-101 | cutting after whole chunks cuts nothing in two |
| Batching.BatchSizeIrrelevant | rally_ovs/plugins/ovs/ovnclients.py:71-129 | for every `batch`, zero and negative ones included, a builder ends in the database, and in the refusal, of running its commands one by one |
| Batching.LoopStep | rally_ovs/plugins/ovs/ovnclients.py:95-98 | one turn of the flush_count loop keeps: whole chunks are out, the rest waits |
| Batching.LoopEnd | rally_ovs/plugins/ovs/ovnclients.py:100-101 | the flush after the loop sends exactly the missing chunk |
| NbCtls.ImmediateDeliversIff | rally_ovs/plugins/ovs/ovsclients_impl.py:62-103 | an immediate command delivers what was waiting and itself exactly when a sandbox is set and nothing was waiting |
| NbCtls.FlushDeliversIff | rally_ovs/plugins/ovs/ovsclients_impl.py:105-134 | a flush delivers what waits exactly when a sandbox is set, the install method is known and only commands are in the buffer |
| NbCtls.DeliveredScripts | rally_ovs/plugins/ovs/ovsclients_impl.py:105-134 | the scripts of a list of invocations execute exactly their commands, in order |
| NbCtls.AllSourced | rally_ovs/plugins/ovs/ovsclients_impl.py:71-134 | in every script `sandbox.rc` is sourced before anything is invoked where the install method has one, and nowhere else |
| NbCtls.NbCtl.Run | rally_ovs/plugins/ovs/ovsclients_impl.py:62-103 | the new buffer and wire of a command in and outside batch mode |
| NbCtls.NbCtl.Issue | rally_ovs/plugins/ovs/ovsclients_impl.py:137-283 | in either mode a command method adds one command to what was issued, and leaves the client ready |
| NbCtls.NbCtl.RunExit | rally_ovs/plugins/ovs/ovsclients_impl.py:71-89 | the early return without a socket sends nothing and leaves the sandbox.rc line; otherwise one script goes out without a database command |
| NbCtls.NbCtl.Flush | rally_ovs/plugins/ovs/ovsclients_impl.py:105-134 | nothing for an empty buffer, else one script and an empty buffer |
| NbCtls.NbCtl.FlushReady | rally_ovs/plugins/ovs/ovsclients_impl.py:105-134 | of a ready client: one invocation with all that waited, or nothing, and what was issued stays |
| NbCtls.NbCtl.RunFlushed | rally_ovs/plugins/ovs/ovsclients_impl.py:293-302 | `sync` (and `chassis_bound`, lines 447-457) sends all pending commands first, then itself alone, and restores the mode |
| NbCtls.NbCtl.StopDaemon | rally_ovs/plugins/ovs/ovsclients_impl.py:325-327 | a quiet client stays quiet if it had a socket, and if not exactly when the install method sources no sandbox.rc |
| Builders.Scenario.GetOvnController | rally_ovs/plugins/ovs/ovnclients.py:28-34 | fetching the client again gives the same object, with its mode and buffer |
| Builders.Scenario.CountedFlush | rally_ovs/plugins/ovs/ovnclients.py:95-98 | the wire and the buffer are again where the loop invariant says, one item further |
| Builders.Scenario.EndBatch | rally_ovs/plugins/ovs/ovnclients.py:100-101 | all chunks are on the wire, the client is quiet |
| Builders.Scenario.CreateLswitches | rally_ovs/plugins/ovs/ovnclients.py:52-102 | switch k gets network k of the start CIDR; the invocations are the chunks of the switches' commands; fails exactly when the networks run out |
| Builders.Scenario.CreateRandomLswitches | rally_ovs/plugins/ovs/ovnclients.py:52-102 | without a start CIDR: one randomly named switch each with its settings, in chunks, client quiet |
| Builders.Scenario.CreateRouters | rally_ovs/plugins/ovs/ovnclients.py:104-129 | the routers' commands in chunks of the batch size, client quiet |
| BuildersDb.RandomSwitchesMade | rally_ovs/plugins/ovs/ovnclients.py:71-101 | there is a switch for every name drawn, each key of each with its last value, and nothing else has changed |
| BuildersDb.RoutersMade | rally_ovs/plugins/ovs/ovnclients.py:104-129 | there is a router for every name drawn, and nothing else has changed |
| Builders.Scenario.CreatePhynet | rally_ovs/plugins/ovs/scenarios/ovn.py:319-339 | the commands of one localnet port per switch, with the network name given, in chunks, client quiet |
| Builders.WindowFitsIff | rally_ovs/plugins/ovs/scenarios/ovn.py:127-133 | the size check passes exactly when every address of the window, and the next one, is in the network |
| Builders.Scenario.CreateSwitchLports | rally_ovs/plugins/ovs/scenarios/ovn.py:112-173 | the addresses of the window behind the switch's own in order, exactly when the size check and the external gateway allow it |
| Builders.Scenario.CreateAcl | rally_ovs/plugins/ovs/scenarios/ovn.py:198-236 | the rules of each port in one invocation, client quiet |
| BuildersDb.PortRulesMade | rally_ovs/plugins/ovs/scenarios/ovn.py:198-236 | exactly the rules asked for are added, matching UDP source port 100 + i if no match is given; with a match, a second rule of a port is refused |
| BuildersDb.UdpDecided | rally_ovs/plugins/ovs/scenarios/ovn.py:215-232 | without a match, the rules of a port decide exactly the packets from UDP ports 100 to 99 + acls_per_port, with the action given |
| BuildersDb.RulesDeleted | rally_ovs/plugins/ovs/scenarios/ovn.py:248-262 | the rules of the switches are gone, those of groups and other switches stay |
| Builders.Scenario.DeleteAllAcls | rally_ovs/plugins/ovs/scenarios/ovn.py:248-262 | the nested helper fetches the client in batch mode, so one invocation deletes for all switches |
| Builders.Scenario.PortGroupAddPort | rally_ovs/plugins/ovs/scenarios/ovn.py:277-283 | the lookup and the change go out one by one, client quiet |
| Builders.Scenario.WaitUpPortLsp | rally_ovs/plugins/ovs/scenarios/ovn.py:605-612 | after whatever was pending, command k of the wait is the one for the k-th port, and there are no more |
| Builders.Scenario.WaitUpPortSync | rally_ovs/plugins/ovs/scenarios/ovn.py:619-620 | the sync comes after everything issued, the mode is restored |
| Builders.Scenario.WaitUpPort | rally_ovs/plugins/ovs/scenarios/ovn.py:622-634 | command k is the wait for the k-th port, then comes the sync if any, or nothing at all for pings; client quiet |
| Builders.Scenario.BindPortsAndWait | rally_ovs/plugins/ovs/scenarios/ovn.py:416-433 | raises exactly for an unknown `wait_sync`, case ignored, or without sandboxes; otherwise sends the waits that were asked for |
| Cidrs.NextComposes | rally_ovs/plugins/ovs/scenarios/ovn.py:364-394 | `next(j).next(k)` is `next(j+k)`, overflow included, and a network again |
| Cidrs.NextDisjoint | rally_ovs/plugins/ovs/scenarios/ovn.py:364-394 | two networks of one chain share no address |
| Cidrs.GatewaysInsideIff | rally_ovs/plugins/ovs/ovnclients.py:48-50 | the gateways at offsets 1 and 2 are inside the network exactly when its prefix is at most /30 |
| Topology.AssignedLength | rally_ovs/plugins/ovs/ovnclients.py:158-165 | slicing routes the first networks_per_router networks per router, the rest is unrouted |
| Topology.AssignedAt | rally_ovs/plugins/ovs/ovnclients.py:158-165 | network m goes to router m / networks_per_router and to no other |
| Topology.OwnerAt | rally_ovs/plugins/ovs/ovnclients.py:158-165 | of an iteration's networks exactly the first networks_per_router per router find one, that of their index |
| Topology.ConnectNetworkToRouter | rally_ovs/plugins/ovs/ovnclients.py:131-156 | the commands of one connection, exactly when the gateway address exists |
| Topology.ConnectGatewayRouter | rally_ovs/plugins/ovs/ovnclients.py:167-243 | the commands that join a gateway router to its cluster router and external switch, and the record returned |
| Topology.ConnectNetworksToRouters | rally_ovs/plugins/ovs/ovnclients.py:158-165 | the nested slicing loop connects each network to the router it is assigned |
| Topology.ChainIff | rally_ovs/plugins/ovs/ovnclients.py:260-270 | the subnets suffice exactly when every network's two gateway addresses exist and both CIDRs can step on after each, the last one included |
| Topology.GatewaySlice | rally_ovs/plugins/ovs/ovnclients.py:260-270 | one router's slice advances networks, sandboxes and both CIDRs in lockstep, exactly when neither sandboxes nor subnets run out |
| Topology.ConnectNetworksToGwRouters | rally_ovs/plugins/ovs/ovnclients.py:245-272 | network m is wired through join subnet m, external subnet m and sandbox m, whatever its router; fails exactly when a sandbox or a subnet is missing |
| Topology.ConnectGwRoutersRoutes | rally_ovs/plugins/ovs/ovnclients.py:274-309 | the routes and addresses of every reported gateway router in order |
| Topology.CreateLports | rally_ovs/plugins/ovs/scenarios/ovn.py:102-110 | each switch's window with the external gateway of its index, exactly when all fit |
| Topology.CreateNetworks | rally_ovs/plugins/ovs/scenarios/ovn.py:364-376 | the switches of an iteration and their connections |
| Topology.CreateManagementPorts | rally_ovs/plugins/ovs/scenarios/ovn.py:409-413 | the management ports, their binding and the wait for them; raises exactly when a port does not fit, the wait is unknown or there is no sandbox |
| Topology.SetupGateways | rally_ovs/plugins/ovs/scenarios/ovn.py:378-404 | the gateway part: gateways, localnet ports and routes of one iteration |
| Topology.CreateRoutedNetwork | rally_ovs/plugins/ovs/scenarios/ovn.py:352-413 | every command of an iteration in order, waits included, its gateways and its ports; it raises exactly when something does not fit |
| TopologyDb.ConnectionApplied | rally_ovs/plugins/ovs/ovnclients.py:131-156 | the commands of a connection are accepted and add exactly its pair of ports |
| TopologyDb.GatewayApplied | rally_ovs/plugins/ovs/ovnclients.py:167-234 | the commands of a gateway are accepted on fresh names and add exactly its switches, router, ports and chassis |
| TopologyDb.SwitchApplied | rally_ovs/plugins/ovs/ovnclients.py:71-93 | the switch is added, each key configured with its last value |
| TopologyDb.PhynetApplied | rally_ovs/plugins/ovs/scenarios/ovn.py:319-339 | a port of type localnet with address unknown and the network name given is added, and nothing else |
| TopologyDb.PortApplied | rally_ovs/plugins/ovs/scenarios/ovn.py:143-161 | the port is added on its switch with its address, secured exactly if asked, and nothing else |
| TopologyDb.WaitsApplied | rally_ovs/plugins/ovs/scenarios/ovn.py:604-634 | waiting changes nothing; unless it is for pings it is accepted exactly when every one of the ports exists and the word is one that `ovn-nbctl` takes |
| TopologyDb.UpperCaseWait | rally_ovs/plugins/ovs/scenarios/ovn.py:416-425 | "HV" passes the check and is refused |
| TopologyDb.RoutesApplied | rally_ovs/plugins/ovs/ovnclients.py:274-309 | with the routes still free, the commands are accepted exactly when the cluster is not the default route, and then add the three routes, the forced SNAT address and the translation, and nothing else |
| TopologyDb.ClosedGrows | rally_ovs/plugins/ovs/ovnclients.py:274-309 | a route that is closed stays closed while the topology only grows |
| TopologyDb.GatewayKeeps | rally_ovs/plugins/ovs/ovnclients.py:167-243 | a gateway keeps peers paired, routes with their gateways, and the names of all later steps free |
| TopologyDb.RoutesClosed | rally_ovs/plugins/ovs/ovnclients.py:288-303 | the three next hops are the external host that the localnet port leads to, the cluster router's port and the gateway router's port |
| TopologyDb.RoutesKeep | rally_ovs/plugins/ovs/ovnclients.py:274-309 | adding a gateway's routes keeps peers, names, and every route with a gateway that is in place |
| TopologyRun.IterationApplied | rally_ovs/plugins/ovs/scenarios/ovn.py:352-413 | the commands of a fitting iteration are accepted exactly when no gateway is made for a default-route cluster and nothing is waited for in other words than `ovn-nbctl`'s; then the invariant holds for the next one |
| TopologyRun.AddChassisExternalHosts | rally_ovs/plugins/ovs/scenarios/ovn_fake_multinode.py:383-397 | the external host of every global index of the iteration, exactly when each can be computed |
| TopologyRun.AddChassisNodesLocalnet | rally_ovs/plugins/ovs/scenarios/ovn_fake_multinode.py:366-379 | br-ex of the chassis of every global index of the iteration is mapped to the network name, and of no other, exactly when each is found |
| TopologyRun.HostColocated | rally_ovs/plugins/ovs/scenarios/ovn_fake_multinode.py:383-397 | with one sandbox per farm in farm order the host of an index is where that index's gateway router is bound |
| TopologyRun.RunIterations | rally_ovs/plugins/ovs/scenarios/ovn_fake_multinode.py:415-430 | a serial run sends the commands of its iterations in order, and succeeds exactly when each fits |
| TopologyRun.PeersInEveryRun | rally_ovs/plugins/ovs/ovnclients.py:131-234 | after any number of iterations of any topology: the commands are accepted exactly under that condition, and then each router-type switch port is paired with one router port and the other way round, and network m of every iteration is in place: its settings, its router's port with the gateway address, its management port, and its gateway router with chassis, localnet port of the configured network name, three routes, forced SNAT and translation |
| TopologyRun.RoutingClosure | rally_ovs/plugins/ovs/ovnclients.py:167-309 | with both prefixes at most /30 and the localnet ports' network name mapped on the chassis: accepted exactly under the same condition, and then peers paired and every route closed |
| TopologyRun.WiredIsClosed | rally_ovs/plugins/ovs/ovnclients.py:274-309 | every route of a gateway that is in place is closed once the external hosts are |
| TopologyClosures.JoinRouteOpen | rally_ovs/plugins/ovs/ovnclients.py:300-303 | with join subnets above /30 the route of the cluster router to a gateway router is not closed |
| TopologyClosures.DefaultRouteOpen | rally_ovs/plugins/ovs/ovnclients.py:292-294 | with external subnets above /30, or a network name that no chassis maps, a default route is closed only if its next hop is the cluster router's address on the join subnet |
| TopologyClosures.RoutingClosureIff | rally_ovs/plugins/ovs/ovnclients.py:167-309 | every route of a run with gateways is closed exactly when both prefixes are at most /30 and the chassis map the network name of the localnet ports, or by that accident, which only a single gateway can have |
| TopologyRun.AnyBatching | rally_ovs/plugins/ovs/ovsclients_impl.py:105-134 | the run's outcome and database do not depend on how its commands were batched |
| TopologyRun.RunOnWire | rally_ovs/plugins/ovs/scenarios/ovn_fake_multinode.py:415-430 | whether an invocation on the wire is refused, exactly, and if not, that the database left behind has its peers paired, everything in place and its routes closed |
| TopologyRun.ReportedGateway | rally_ovs/plugins/ovs/ovnclients.py:236-243 | every field of what is reported of gateway m: network and router of the index, names, and the three addresses from the end of its subnets |
| TopologyRun.PortGatewayAgrees | rally_ovs/plugins/ovs/scenarios/ovn.py:150-158 | the `gw` a management port is given is the address of the router port on its switch (`rally_ovs/plugins/ovs/ovnclients.py:142`), and its own address is the database's |
| TopologyRun.ExternalAddressesAgree | rally_ovs/plugins/ovs/scenarios/ovn_fake_multinode.py:153-165 | ping target and `def_gw` of one global index are one address, and so is the external host's wherever there is one, whose default gateway is that router's external port |
| TopologyRun.SubnetsDisjoint | rally_ovs/plugins/ovs/scenarios/ovn.py:378-394 | join and external subnets are pairwise disjoint across and within iterations |
| TopologyRun.PingTargetRoutedIff | rally_ovs/plugins/ovs/scenarios/ovn.py:392-411 | a port's ping target is some gateway's default gateway exactly when its index is below routers times networks_per_router |
| RoutedPorts.ShiftIs | rally_ovs/plugins/ovs/scenarios/ovn_nb.py:238-241 | iterations take the switches in turn, and `ip_start_index` less the offset is the floor of the batches before over the switches |
| RoutedPorts.WindowsTile | rally_ovs/plugins/ovs/scenarios/ovn_nb.py:234-246 | the k-th next window of a switch starts exactly k batches further on |
| RoutedPorts.PortAddressesDistinct | rally_ovs/plugins/ovs/scenarios/ovn_nb.py:234-246 | over all iterations on disjoint switches no two ports share an address |
| RoutedPorts.PortIpsDistinct | rally_ovs/plugins/ovs/scenarios/ovn_nb.py:192-195 | the same by the global index of a port, hence distinct `lp_` names |
| RoutedPorts.WindowExact | rally_ovs/plugins/ovs/scenarios/ovn.py:127-154 | a window that passes the check is inside the network, never its last address, and holds the gateway exactly when it reaches as far as allowed |
| RoutedPorts.ManagementPortMissedIff | rally_ovs/plugins/ovs/scenarios/ovn_nb.py:234-241 | the windows of all iterations miss the management port of their switch exactly from an offset of 2 on |
| RoutedPorts.MissedInRunIff | rally_ovs/plugins/ovs/scenarios/ovn_nb.py:234-241 | the same for a run of n iterations, where an offset of 0 still misses while one-address windows have not moved on |
| RoutedPorts.CreateOrUpdateDeny | rally_ovs/plugins/ovs/scenarios/ovn_nb.py:86-145 | the commands for both default-deny groups: created with their rules by index 0, extended by all others; what the rules decide is PortDecisions.DefDenyDecides and MulticastDecides |
| RoutedPorts.CreateOrUpdateNetworkPolicy | rally_ovs/plugins/ovs/scenarios/ovn_nb.py:175-187 | both default-deny groups, then the policy group, its address sets and, when created, its rules, which decide as PortDecisions.PolicyDecides says |
| RoutedPorts.CreateOrUpdateNameSpace | rally_ovs/plugins/ovs/scenarios/ovn_nb.py:147-173 | the address set, the multicast group and, when created, its rules |
| RoutedPorts.GroupPorts | rally_ovs/plugins/ovs/scenarios/ovn_nb.py:205-221 | the group commands of every port of the iteration in slot order |
| RoutedPorts.CreateRoutedLport | rally_ovs/plugins/ovs/scenarios/ovn_nb.py:189-246 | the ports of the iteration's window and every command for them, waits included; the exact conditions under which it raises |
| RoutedPorts.RunIterations | rally_ovs/plugins/ovs/scenarios/ovn_nb.py:228-246 | a serial run sends the commands of its iterations in order, and succeeds exactly when each does |
| RoutedPortsDb.CreateFlags | rally_ovs/plugins/ovs/scenarios/ovn_nb.py:208-221 | `index % size == 0` says exactly that the group and sets of `index / size` do not exist yet |
| RoutedPortsDb.PortGrouped | rally_ovs/plugins/ovs/scenarios/ovn_nb.py:205-221 | all group commands of the next index are accepted and leave every group with exactly its index range |
| RoutedPortsDb.IterationGrouped | rally_ovs/plugins/ovs/scenarios/ovn_nb.py:189-246 | the commands of the next iteration are accepted exactly when it waits in words that `ovn-nbctl` knows; its ports and groups keep the run's invariant |
| RoutedPortsDb.GroupingRun | rally_ovs/plugins/ovs/scenarios/ovn_nb.py:189-246 | over a whole run nothing but waiting for an unknown word is ever refused; group K holds exactly the ports with index in [K*size, (K+1)*size), both default-deny groups hold every port; every group that exists has its rules and no others |
| RoutedPortsDb.PortStands | rally_ovs/plugins/ovs/scenarios/ovn_nb.py:189-246 | port i of iteration t is on switch t modulo the switches, at its address plus floor(t * batch / switches) plus offset plus i, secured if asked; the port returned says the same |
| PortDecisions.DefDenyDecides | rally_ovs/plugins/ovs/scenarios/ovn_nb.py:86-118 | for a member of the default-deny group ARP is allowed at 1001 and everything else dropped at 1000, in both directions |
| PortDecisions.MulticastDecides | rally_ovs/plugins/ovs/scenarios/ovn_nb.py:120-173 | multicast is dropped at 1011 by its default-deny group and allowed at 1012 by a name space's group above it; neither concerns other packets |
| PortDecisions.PolicyDecides | rally_ovs/plugins/ovs/scenarios/ovn_nb.py:51-84 | a policy group allows packets from its ingress set and to its egress set at 1010 and other IPv4 at 1009, related traffic only from the port |
| PortDecisions.MemberIff | rally_ovs/plugins/ovs/scenarios/ovn_nb.py:205-221 | port k is a member of both default-deny groups, of policy group k / network_policy_size and of the group of name space k / name_space_size, and of no other |
| PortDecisions.PortDecides | rally_ovs/plugins/ovs/scenarios/ovn_nb.py:51-226 | after a whole run, what all rules together decide for every packet of every port, with its priority |
| RoutedPortsDb.SetsCompleteIff | rally_ovs/plugins/ovs/scenarios/ovn_nb.py:198-221 | the name spaces' address sets hold every member's address exactly when an iteration has one port |
| WholeRuns.ReadyIff | rally_ovs/plugins/ovs/scenarios/ovn_nb.py:228-246 | the groups run can start on what the topology run leaves exactly when no window takes a management address |
| WholeRuns.PortsOnTopology | rally_ovs/plugins/ovs/scenarios/ovn_nb.py:189-246 | there it is accepted exactly when it misses those addresses and waits in known words, and adds nothing but ports and groups |
| WholeRuns.WholeRun | rally_ovs/plugins/ovs/scenarios/ovn_nb.py:28-246 | topology and groups together: accepted under exactly these conditions, and then peers, networks, gateways, routes, ports and groups are in order in one database, and every packet of every port is decided |
| WholeRuns.PortGateway | rally_ovs/plugins/ovs/scenarios/ovn.py:156-158 | the `gw` that a port of the groups run is given is the address of the router port on its switch |
| McastPlans.BuildConfigTesters | rally_ovs/plugins/ovs/scenarios/ovn_igmp.py:65-106 | the in-place loops compute the round-robin stream cut into rounds, receiver i of group g of each switch joining in the round that the assignments before it fill up to; it raises exactly when the group addresses run out |
| McastPlans.StreamAt | rally_ovs/plugins/ovs/scenarios/ovn_igmp.py:79-93 | switches are taken in the order listed, empty ones skipped: receiver i of group g of a switch is its port g * receivers + i modulo its ports |
| McastPlans.AssignmentInRound | rally_ovs/plugins/ovs/scenarios/ovn_igmp.py:95-106 | assignment a is in round a / batch, behind what that round has for its port |
| McastPlans.IdxFollows | rally_ovs/plugins/ovs/scenarios/ovn_igmp.py:33-35 | advancing the port index is counting modulo the number of ports |
| McastPlans.PlanBatchIndependent | rally_ovs/plugins/ovs/scenarios/ovn_igmp.py:82-106 | for every batch size a port's groups over all rounds are its part of the unbatched stream |
| McastPlans.PlanTotals | rally_ovs/plugins/ovs/scenarios/ovn_igmp.py:91-106 | no round is empty, all but the last are full, there are as many as needed, and each `n_groups` is its list's length |
| McastPlans.PlanConserves | rally_ovs/plugins/ovs/scenarios/ovn_igmp.py:76-106 | the totals add up to non-empty switches times groups times receivers |
| McastPlans.RoundAddsUp | rally_ovs/plugins/ovs/scenarios/ovn_igmp.py:91-97 | a round's total is the sum of what its ports join |
| McastPlans.RoundRobinShare | rally_ovs/plugins/ovs/scenarios/ovn_igmp.py:81-93 | after any number of assignments each port has exactly its round-robin share |
| McastPlans.SharesBalanced | rally_ovs/plugins/ovs/scenarios/ovn_igmp.py:81-93 | shares differ by at most one, earlier ports ahead |
| McastPlans.PairsDistinctIff | rally_ovs/plugins/ovs/scenarios/ovn_igmp.py:84-97 | no port joins a group twice exactly when receivers are at most the ports, or there is no group |
| McastFiles.InputFiles.ConfigMcastTesters | rally_ovs/plugins/ovs/scenarios/ovn_igmp.py:108-128 | the echo commands leave each port's file with the header and the port's blocks in round order, and no other file changed |
| McastFiles.LoadGroups | samples/tasks/scenarios/ovn-network/mcast-tester.c:97-100 | the inner loop reads exactly that many lines, or the assertion fails |
| McastFiles.LoadIterations | samples/tasks/scenarios/ovn-network/mcast-tester.c:88-101 | the loading loops end as scanning recursively says: blocks, a failed assertion or undefined behaviour |
| McastFiles.DecReadsBack | rally_ovs/plugins/ovs/scenarios/ovn_igmp.py:119-127 | decimal printing and reading are inverse |
| McastFiles.ScanPrinted | samples/tasks/scenarios/ovn-network/mcast-tester.c:90-95 | scanning a printed number gives it back and eats no more than its line |
| McastFiles.FgetsPrinted | samples/tasks/scenarios/ovn-network/mcast-tester.c:97-98 | a printed group fits the line buffer and is read whole |
| McastFiles.FileReadsBack | samples/tasks/scenarios/ovn-network/mcast-tester.c:21-29 | scanning a printed file gives back its blocks, empty ones too, exactly when none exceeds MAX_GROUPS; else the arrays overflow |
| McastFiles.InetReadsBack | samples/tasks/scenarios/ovn-network/mcast-tester.c:63-69 | `inet_addr` on a printed line, its newline included, is the address printed |
| McastFiles.TesterGetsItsPlan | samples/tasks/scenarios/ovn-network/mcast-tester.c:88-101 | from plan through file to tester: round by round the planned groups, always with a batch of 1 to 10000 |
| McastFiles.OneSwitchLoadsIff | samples/tasks/scenarios/ovn-network/mcast-tester.c:21-29 | with one switch of n ports all testers load exactly when the ceiling of min(batch, groups * receivers) over n is at most MAX_GROUPS |
| McastTriggers.TesterKeeps | samples/tasks/scenarios/ovn-network/mcast-tester.c:105-111 | every tester step keeps: signals are lost, pending, posted or used, and the groups joined are those of the blocks passed |
| McastTriggers.NextKeeps | rally_ovs/plugins/ovs/scenarios/ovn_igmp.py:138-186 | every event of controller or tester keeps the protocol's invariant |
| McastTriggers.TriggerActs | rally_ovs/plugins/ovs/scenarios/ovn_igmp.py:138-144 | a trigger leaves testers on other hosts alone; on the host of the port named, exactly the testers whose command line matches get one more signal, the one named among them |
| McastTriggers.IsolatedIff | rally_ovs/plugins/ovs/scenarios/ovn_igmp.py:138-144 | every trigger reaches its own tester only, exactly when no name matches the command line of another on its host |
| McastTriggers.TriggerSafety | rally_ovs/plugins/ovs/scenarios/ovn_igmp.py:176-186 | in every interleaving joins are a prefix of the rounds begun, never exceed what is expected, and equal it exactly when every tester has joined all rounds so far |
| McastTriggers.DrainedJoins | samples/tasks/scenarios/ovn-network/mcast-tester.c:105-111 | a drained tester is behind by exactly the signals it lost |
| McastTriggers.DrainedReachesExpected | rally_ovs/plugins/ovs/scenarios/ovn_igmp.py:172-186 | with no signal lost, drained testers have made exactly the joins expected |
| McastTriggers.TestersDrain | samples/tasks/scenarios/ovn-network/mcast-tester.c:105-111 | testers left alone can move until drained, and every step shortens what is left by one |
| McastTriggers.InStepIff | rally_ovs/plugins/ovs/scenarios/ovn_igmp.py:138-144 | testers stay in step in every run exactly when no trigger matches another tester on its host, or there is at most one round |
| McastTriggers.HostsApart | rally_ovs/plugins/ovs/scenarios/ovn_igmp.py:138-144 | ports on hosts of their own stay in step in every run, whatever their names |
| McastTriggers.Overrun | rally_ovs/plugins/ovs/scenarios/ovn_igmp.py:138-144 | a name that matches another command line on its host lets that tester start round two in round one |
| McastTriggers.NoneLostIff | samples/tasks/scenarios/ovn-network/mcast-tester.c:14-17 | signals are safe in every run exactly when no tester gets a second one |
| McastTriggers.GrepPortIff | rally_ovs/plugins/ovs/scenarios/ovn_igmp.py:141-144 | the trigger of one port name matches another's command line exactly when it is a prefix of that name, dots matching anything |
| McastTriggers.OneLengthIsolated | rally_ovs/plugins/ovs/scenarios/ovn_igmp.py:138-144 | port names of one length never catch each other's triggers |
| McastTriggers.StrayNeighbours | rally_ovs/plugins/ovs/scenarios/ovn_igmp.py:138-144 | of two addresses such as .1 and .10 the first one's trigger also reaches the second's tester |
| McastTriggers.PlanSetsUp | rally_ovs/plugins/ovs/scenarios/ovn_igmp.py:154-170 | planned, printed and loaded workloads are setups of the protocol, with the plan's totals |
| McastTriggers.McastRun | rally_ovs/plugins/ovs/scenarios/ovn_igmp.py:146-186 | at the end of a drained run every port has joined its part of the unbatched workload, in order, and the controller expects exactly that many joins |
| PortBindings.BindPorts | rally_ovs/plugins/ovs/scenarios/ovn.py:547-571 | both branches bind port k to the sandbox chosen for it, in order; it raises exactly without sandboxes |
| PortBindings.PerBoxBounds | rally_ovs/plugins/ovs/scenarios/ovn.py:553 | `lport_per_sandbox` is the smallest number that has room for all ports |
| PortBindings.BlockInRange | rally_ovs/plugins/ovs/scenarios/ovn.py:551-571 | the index `j` stays below the number of sandboxes |
| PortBindings.BoundExactly | rally_ovs/plugins/ovs/scenarios/ovn.py:554-571 | with distinct names each sandbox holds exactly the ports chosen for it and others have no entry |
| PortBindings.EveryPortBound | rally_ovs/plugins/ovs/scenarios/ovn.py:554-571 | the sizes of what the sandboxes get add up to the ports |
| PortBindings.ChosenByIndex | rally_ovs/plugins/ovs/scenarios/ovn.py:554-571 | a sandbox gets the ports of its indexes, each index once and in order |
| PortBindings.EachPortOnce | rally_ovs/plugins/ovs/scenarios/ovn.py:554-571 | every port has exactly one sandbox among whose indexes it is |
| PortBindings.RandomBinding | rally_ovs/plugins/ovs/scenarios/ovn.py:551-562 | with fewer ports than sandboxes a port is on the sandbox picked for it and on no other |
| PortBindings.BlockBinding | rally_ovs/plugins/ovs/scenarios/ovn.py:563-571 | sandbox j gets exactly the j-th slice, at most the ceiling of ports over sandboxes; it stays empty exactly when the slices before use up the ports |
| VsCtls.VsCtl.Run | rally_ovs/plugins/ovs/ovsclients_impl.py:543-576 | docker and containers switch batch mode off; what a command outside batch mode executes and where |
| VsCtls.VsCtl.Flush | rally_ovs/plugins/ovs/ovsclients_impl.py:578-592 | only the sandbox method executes what waits, for all others it is gone |
| VsCtls.VsCtl.BindShares | rally_ovs/plugins/ovs/scenarios/ovn.py:436-454 | one retargeted client executes, sandbox by sandbox, what each binding does, and ends quiet |
| VsCtls.BoundAt | rally_ovs/plugins/ovs/scenarios/ovn.py:436-454 | where anything is run, every port is added and then set up, in order, in its own sandbox's container or directory |
| VsCtls.BoundIff | rally_ovs/plugins/ovs/scenarios/ovn.py:436-454 | every port is added and set up on its own switch exactly for the sandbox method or a host container (or without ports); docker drops an option |
| SshConns.SshConn.Run | rally_ovs/plugins/ovs/ovsclients_impl.py:486-498 | one more line is issued, for the container set now; outside batch mode everything issued has run |
| SshConns.SshConn.FlushAll | rally_ovs/plugins/ovs/ovsclients_impl.py:504-512 | what waits becomes one script, and nothing waits any more; what was issued stays |
| SshConns.SshConn.UseAll | rally_ovs/plugins/ovs/ovsclients_impl.py:477-512 | however batch mode, container, lines and flushes interleave, the lines given run in order, each in its own container; after a flush all have run |
| ChassisPairs.FloorDivIs | ansible/library/generate_chassis_ip_pairs.py:58-64 | division is towards minus infinity, for divisors of either sign |
| ChassisPairs.AssignHosts | ansible/library/generate_chassis_ip_pairs.py:58-74 | the first pass: hosts, addresses and overflow, or the exact error |
| ChassisPairs.DescribeHosts | ansible/library/generate_chassis_ip_pairs.py:76-90 | the second pass: counts and start addresses, or running dry |
| ChassisPairs.Generate | ansible/library/generate_chassis_ip_pairs.py:43-97 | both passes for all integers, with the exact error |
| ChassisPairs.PassesAgree | ansible/library/generate_chassis_ip_pairs.py:58-90 | with an address per host: host h is assigned exactly the addresses the second pass describes, only the last host has the remainder more |
| ChassisPairs.CountsAddUp | ansible/library/generate_chassis_ip_pairs.py:76-88 | the counts add up to the addresses asked for |
| ChassisPairs.FewAddresses | ansible/library/generate_chassis_ip_pairs.py:58-90 | fewer addresses than hosts divide by zero; none at all gives every host a start address and a count of zero |
| Sandboxes.Farms.CreateSandbox | rally_ovs/plugins/ovs/scenarios/sandbox.py:117-193 | sandboxes, scripts, registry and the merged dict returned; every error exactly |
| Sandboxes.BatchesMakeAll | rally_ovs/plugins/ovs/scenarios/sandbox.py:153-189 | the batches hold exactly the requested consecutive addresses in order, none with a batch below one |
| Sandboxes.ScriptsMake | rally_ovs/plugins/ovs/scenarios/sandbox.py:153-193 | over SSH the scripts create exactly the addresses that are registered; otherwise there are none |
| Sandboxes.RegisteredAre | rally_ovs/plugins/ovs/scenarios/sandbox.py:73-89 | the registry then has the new addresses in a row with their tag, and what it had before |
| Sandboxes.BatchSizes | rally_ovs/plugins/ovs/scenarios/sandbox.py:153-189 | no batch is empty or above the batch size, all but the last are full |
| Sandboxes.BatchCount | rally_ovs/plugins/ovs/scenarios/sandbox.py:153-189 | there are as many batches as the ceiling of amount over batch |
| Sandboxes.Farms.AddSandboxResource | rally_ovs/plugins/ovs/scenarios/sandbox.py:73-89 | new entries win; the caller's dict becomes the merged one that is stored |
| Sandboxes.Farms.DeleteSandboxResource | rally_ovs/plugins/ovs/scenarios/sandbox.py:97-110 | deleting is removing keys, absent ones ignored |
| Sandboxes.Farms.DeleteSandbox | rally_ovs/plugins/ovs/scenarios/sandbox.py:197-225 | farm by farm, in any order: one cleanup script and the listed names gone from the registry |
| Sandboxes.CleanupsExact | rally_ovs/plugins/ovs/scenarios/sandbox.py:209-222 | each farm gets at most one script, which cleans up every sandbox listed for it and no other; only over SSH |
| Sandboxes.Farms.CreateAndDelete | rally_ovs/plugins/ovs/scenarios/ovn_sandbox.py:122-139 | the farm's registry ends empty, so it is restored exactly when it was empty |
| Sandboxes.Farms.CreateInIteration | rally_ovs/plugins/ovs/scenarios/ovn_sandbox.py:100-118 | the request and farm of an iteration, and what is registered |
| Sandboxes.IterationAsks | rally_ovs/plugins/ovs/scenarios/ovn_sandbox.py:103-118 | a given farm gets the request as configured; otherwise the farm's name ends in the iteration's number, and only the address moves, by iteration * amount + 1 |
| Sandboxes.WindowFitsIff | rally_ovs/plugins/ovs/scenarios/ovn_sandbox.py:103-118 | an iteration succeeds exactly when its window does not run into the end of the network it starts in |
| Sandboxes.WindowInsideIff | rally_ovs/plugins/ovs/scenarios/ovn_sandbox.py:103-118 | all addresses of an accepted window are in the configured network exactly when start + (iteration + 1) * amount + 1 is at most its last address |
| Sandboxes.WindowsTile | rally_ovs/plugins/ovs/scenarios/ovn_sandbox.py:103-118 | the windows of iterations follow each other without gap or overlap |
| Sandboxes.WindowLeavesNetwork | rally_ovs/plugins/ovs/scenarios/ovn_sandbox.py:113-118 | an instance of an accepted window outside the configured network |
| Sandboxes.LastTouch | rally_ovs/plugins/ovs/scenarios/sandbox.py:73-110 | over any run a sandbox is registered as the last operation naming it left it |
| Sandboxes.NeverTouched | rally_ovs/plugins/ovs/scenarios/sandbox.py:73-110 | a sandbox that no operation names stays as it was |

## Left out

- SSH transport, captured output, logging, sleeps and timeouts, and polling (`_ping_port`, `_run_mcast`, `_wait_chassis`): input, output and timing.
- Exact command strings, quoting and prefixes: commands are structured values; only where an invocation is cut matters.
- Random MAC addresses, which no property depends on.
- Switches without a CIDR in `_create_switch_lports`: the loop reads the CIDR unconditionally.
- The output parser `get_lswitch_info`, and `set_colval_args`: parsers and formatters of tool output.
- When `_flush_conns` runs the echo commands of the input files: they are modelled as taking effect in the order they are given, which the shell client keeps.
- `add_chassis_nodes` and the other loops over emulated nodes besides the external hosts.
- The missing-CIDR early returns of the gateway builders, which only log an error.
- What an operation leaves in the client's buffer after an exception, beyond what its contract says.
- Octal and hexadecimal parts, and short forms, in `inet_addr`; `%u` with a sign; number overflow past 32 bits is taken modulo 2^32; a null pointer from `malloc`; socket limits and failed joins in the tester.
- Patterns with special characters other than the dot in a trigger's `grep`, and matches in `ps` columns other than the command.
- TopologyRun.RoutingClosure: stated for one sandbox per farm in farm order, without which the hosts are elsewhere.
- TopologyRun.RunIterations: connecting the chassis and waiting for them (`connect_chassis_nodes`, `wait_chassis_nodes`), which send no northbound command.
- RoutedPortsDb.GroupingRun: starts from a database that has the switches, none of the run's ports and no groups; WholeRuns.ReadyIff says when the topology run leaves one.
- Builders.Scenario.WaitUpPort: the pings themselves, which send no northbound command.
- VsCtls.VsCtl.BindShares: per farm; the internal-port branch only adds an option to each command, the namespaces of `_bind_ovs_internal_vm` are not modelled.
- Sandboxes.Farms.DeleteSandbox: the order in which farms are visited is that of a dict, so only per-farm results are stated, and nothing of the farms already done when one is missing.
- OpenFlow, southbound queries, controllers, deployment engines, contexts and Ansible roles: glue around tools.
