# Crash safety, routing and text round trips

Dafny models of the parts of the repository whose correctness is hardest to see, with proofs for all
inputs and all runs.

- **Relay switch** (`RelayPlans`, `Forwards`, `RelayWorld`, `RelaySteps`, `RelayController`). The journalled switch that
  moves hosts to a relay address, together with the change of a node's IP that may happen meanwhile.
- **etcd membership** (`Bootstrap`, `MembershipWorld`, `MembershipController`). The journalled installation of the
  cluster, and the journalled addition and removal of members, all resumed after any failure.
- **Allocation** (`Allocators`). Overlay addresses, relay slots, port indices, and the address plan of the links.
- **Routing and debouncing** (`Routing`, `Debounce`). The choice of transit nodes, the link tracker, the exit
  probe and the confirmation of a changed address.
- **Balancer agent** (`SockStats` with `Sums`; `BalancerSpec`, `ConfigText`, `ConfigReader`, `Render`, `EngineManager`).
  Socket counters turned into pool counters, and the rendered configuration, which can be read back, as the measure
  of change.
- **Incremental log reader** (`LogCache`) and **WireGuard text** (`WireGuardConf`, `WireGuardLines`), both on `Text`.
- `Wrappers` and `Sets` hold what several modules share.

The two protocols are classes whose fields are the controller's memory. The world outside (files, host table,
forwards, cluster, nodes) is one value. Every call out of the process may fail before its effect, after it, or not
at all, unless faults are ruled out at creation or by a restart; then the contracts say exactly when an operation
succeeds, whatever failed before. A crash is a call that fails followed by `Restart`: no error path of the source
touches anything but its own memory, so stopping at a call is the same as failing there. A ghost trace records the
world after every single effect, and safety is stated of every state of the trace. `dafny verify dfyconfig.toml` checks everything.

## What the proofs showed

- The panel refuses a host patch with an empty address (`web/service/mesh.go:481`). A relayed host whose original
  address was empty can therefore never be put back, and neither can one that inherits its port when the
  inbound's port changed meanwhile (`ThereAndBack`). `FinishRelay` states exactly when the journal can be cleared;
  it always can if nobody edited a planned host and each had an address (`UneditedFinishable`).
- After a reload that failed, `Apply` skips a return to the earlier spec although the file on disk asks for
  something else (`SkippedWhileStale`). The comment above `Apply`, that a failure leaves the running
  configuration untouched, does not hold after the rename.
- A rotated log file that is not shorter than what was parsed goes unnoticed (`BelievesRightly`), and old
  entries are returned for it (`RotationUnseen`).

## Model

| member | source | states |
|---|---|---|
| `RelayPlans.PlanEnable` | `mesh/relay.go:47-73` | Fails exactly when the exit has no slot or a candidate host is already in a saved plan; otherwise returns the planned moves and the saved plans followed by them |
| `RelayPlans.PlannedExactly` | `mesh/relay.go:57-71` | The planned moves are exactly the enabled, eligible, direct hosts of the node whose port is numbered, each moved to the relay address and its relay port |
| `RelayPlans.PlannedStayDistinct` | `mesh/relay.go:53-67` | Appending new plans to saved ones never gives a host two plans |
| `RelayPlans.HostPatches` | `mesh/relay.go:74-100` | Fails exactly when some planned host still exists but is on neither of its two positions; otherwise returns the patches of the pending plans, in plan order |
| `RelayPlans.PatchesExactly` | `mesh/relay.go:80-98` | A patch is in the list if and only if it belongs to a plan whose live host is on the other position |
| `RelayPlans.PatchesDistinct` | `mesh/relay.go:80-98` | With distinct plans no host is patched twice |
| `RelayPlans.NoPatchesLeft` | `mesh/relay.go:200-206` | The recheck finds nothing to do if and only if no plan is pending |
| `Forwards.Validate` | `mesh/agent/agent.go:606-625` | The loop with its seen set accepts a rule set if and only if names, targets and ports are in range and no protocol and listen port occurs twice in the whole set |
| `Forwards.RelayPortInjective` | `mesh/relay.go:68` | Slot and index below 100 can be read back from the relay port, which stays within 55000 to 64999 |
| `Forwards.BlocksDisjoint` | `mesh/relay.go:127-135` | Two exits never share a protocol and listen port |
| `Forwards.BuiltRulesAccepted` | `mesh/relay.go:102-139` | Whatever exits are active and in whatever order, the rule set the controller builds is accepted by the validator of every entry node |
| `RelayWorld.MoveKeeps` | `mesh/relay.go:192-196` | Moving a host, once every entry forwards its relay port, keeps the whole invariant, whether or not the reply arrives |
| `RelayWorld.RestoreKeeps` | `mesh/relay.go:192-196` | Putting a host back keeps the invariant |
| `RelayWorld.PushKeeps` | `mesh/relay.go:140-173` | Replacing one entry's rules keeps the invariant if the new rules still carry every held host of every exit |
| `RelayWorld.SaveKeepsNew` | `mesh/relay.go:101` | After a save the new journal fits the world |
| `RelayWorld.RestartKeeps` | `mesh/controller.go:143` | Starting again from the files, at any point, keeps the invariant |
| `RelayWorld.OperatedKeeps` | `web/service/mesh.go:463-515` | Nothing operators do to hosts meanwhile, be it creating, editing, switching or deleting them or adding inbounds and ports, breaks the invariant |
| `RelayWorld.NodeIPKeeps` | `mesh/reconcile.go:243-245` | Rewriting a node's address in the panel keeps the invariant while its journal entry exists, and afterwards no host of the node has the old address |
| `RelayWorld.RenamePlansKeeps` | `mesh/reconcile.go:246-262` | Rewriting the old address in saved and pending plans keeps the invariant |
| `RelayWorld.RenameClearedKeeps` | `mesh/reconcile.go:291-294` | The address journal may be dropped once hosts and plans, in memory and on disk, no longer have the old address |
| `RelayWorld.OffMeansRestored` | `mesh/relay.go:207-222` | When every relay is off in memory, nothing is pending and no address change is, no host is held and every surviving host that was not edited is on its original position |
| `RelayWorld.OnMeansRelayed` | `mesh/relay.go:184-206` | While an exit is on and nothing is pending for it, every planned host that exists and was not edited is on its relay position and forwarded by every entry |
| `RelayWorld.BaseKept` | `mesh/reconcile.go:238-294` | Over any run an unedited host keeps the raw port and the customized flag it had in the first state that has it, and belongs at the address it had there or at the new one of a change confirmed for its node |
| `RelayController.Controller.constructor` | `mesh/relay.go:232-236` | From a world without relays the controller starts inside its invariant |
| `RelayController.Controller.HostPatch` | `web/service/mesh.go:463-515` | One compare-and-set that may fail, take effect, or take effect with the reply lost: the row changes only from the expected address, port and customization, and to exactly the ones sent; without failures it succeeds exactly when they are as expected, the port is in range and the address is not empty |
| `RelayController.Controller.Forwarding` | `mesh/relay.go:102-139` | Returns exactly one rule set for every exit that is on or being switched on, the switched exit as asked, and none for any other, each serving all ports assigned to its exit |
| `RelayController.Controller.PushForwards` | `mesh/relay.go:140-173` | Success means that no entry listens in the block of an exit that is off, and that every entry forwards the planned ports of an exit switched on; without failures every entry has exactly the forwards from 55000 + 100 slot + index to each port of each running exit. At no moment do the rules of another exit that holds hosts disappear; without failures it succeeds |
| `RelayController.Controller.SettleHosts` | `mesh/relay.go:184-206` | On success every planned host is gone or on its target position; without failures it succeeds exactly when every plan can be finished |
| `RelayController.Controller.FinishRelay` | `mesh/relay.go:174-226` | Success closes the operation in memory and on disk with the forwards in place, or withdrawn for every exit that is off, and failure changes no memory; without failures one call clears the journal, all planned hosts in place, if and only if every planned host is settled and, when switching off, can be put back as the panel demands |
| `RelaySteps.FinishOutcome` | `mesh/relay.go:188-206` | The patches sent and then computed again leave nothing pending exactly when the plans are finishable |
| `RelaySteps.PatchAllSettles` | `mesh/relay.go:192-206` | Applying the patches puts every plan on its target position |
| `RelaySteps.RulesCoverHeld` | `mesh/relay.go:102-139` | A push for one exit carries the forwards of every held host of all exits |
| `RelaySteps.OthersOutside` | `mesh/relay.go:102-139` | A rule set without rules for an exit has no listen port of that exit |
| `RelaySteps.TableExact` | `mesh/relay.go:102-139` | Rules for exactly the running exits, from a journal with all ports numbered, give exactly the table with a forward for every port of every running exit, over its own protocol and from its own listen port |
| `RelaySteps.StaysWithdrawn` | `mesh/relay.go:102-139` | Along a run, once no entry listens in the block of an exit, none does in any later state until memory has the exit on or being switched on |
| `RelaySteps.RestoredMeansNoneHeld` | `mesh/relay.go:197-211` | Forwards are withdrawn only when the recheck showed that the exit holds no host |
| `RelayController.Controller.SetRelay` | `mesh/relay.go:227-274` | Success leaves the exit in the wanted state without a pending operation, a switched-off exit without forwards; other exits are untouched. Without failures it succeeds exactly when a pending operation can be finished and then, for a switch on, a relay address is set and some host is direct, or, for a switch off, every saved plan can be finished; after a switch on every direct host is planned and behind the relay |
| `RelayController.Controller.Extend` | `mesh/relay.go:485-504` | Saved plans stay, other exits are untouched. Without failures it succeeds exactly when no direct host is planned already (and some is direct if one is needed); then all direct hosts, and no others, have moved behind the relay |
| `RelayController.Controller.Recover` | `mesh/relay.go:448-455` | Success finishes every pending operation and changes no other state. Without failures it succeeds exactly when every pending operation can be finished, provided no existing host is in the operations of two exits |
| `RelaySteps.UneditedFinishable` | `mesh/relay.go:74-100` | With no address change pending, any operation on planned hosts nobody edited can be finished, when switching off if each has an address to go back to |
| `RelayController.Controller.ReconcileRelays` | `mesh/relay.go:448-507` | Whatever fails in it the periodic pass keeps every invariant; success means nothing is pending and every exit is as decided. A failure-free pass leaves nothing pending if no planned host was edited, or if every pending operation can be finished and nothing else is switched off; with unedited hosts and nothing pending before, it succeeds exactly when every exit decided on has a slot and every one newly switched on has a relay address and a direct host |
| `RelayController.Controller.CompleteRename` | `mesh/reconcile.go:238-296` | On success the journal entry is gone and every surviving unedited host of the node belongs at its renamed address, is there unless relayed, and its plans name it; without failures it succeeds exactly when the panel does not refuse the node |
| `RelayController.Controller.ReconcileIPs` | `mesh/reconcile.go:216-298` | Journals only the confirmed changes of enrolled nodes; success leaves no change of an enrolled node pending; without failures it succeeds exactly when the panel refuses none of the nodes concerned |
| `RelayController.Controller.Restart` | `mesh/controller.go:143` | Memory becomes what the file holds, inside the invariant, whatever failed before |
| `RelayController.Controller.Run` | `mesh/relay.go:448-507` | Any run of switching, passes, address changes, failures and restarts: in every single state every held host is forwarded, over TCP and UDP, by every node with the role of an entry; no saved plans have two entries for a host; the withdrawn block of an exit stays withdrawn until the exit is switched on; every unedited planned host of an exit that is on and settled is behind the relay; with all relays off and no change pending every surviving unedited host has the port, customization and address it had when it appeared, the address possibly replaced by a change of its node confirmed in the run; a failure-free pass after any failures and a restart empties the journal whenever it can be emptied |
| `RelayController.ThereAndBack` | `web/service/mesh.go:481-491` | A host switched onto the relay and back without any failure: the way back is refused, and the operation stays pending, exactly if the host had no address or its inbound moved to another port meanwhile |
| `MembershipWorld.StartedKeeps` | `mesh/membership.go:162-181` | A process that comes up and names itself to the cluster keeps the invariant |
| `MembershipWorld.JournalKeeps` | `mesh/membership.go:275-281` | Writing a permitted journal entry keeps the invariant, both if memory follows and if the reply is lost |
| `MembershipWorld.SeedsKeeps` | `mesh/membership.go:63-69` | Writing a permitted seed list keeps the invariant |
| `MembershipWorld.NodeKeeps` | `mesh/embedded/service.go:273-304` | Setting data aside or marking a node that is no voter keeps the invariant |
| `MembershipWorld.AddKeeps` | `mesh/membership.go:339-352` | Adding a learner keeps at most one learner and at most seven members and changes no voter |
| `MembershipWorld.LaunchKeeps` | `mesh/embedded/service.go:491-509` | Launching the learner keeps the invariant, and it runs on data of its own member id |
| `MembershipWorld.PromoteKeeps` | `mesh/membership.go:376-387` | Promotion makes the node, and nothing else, a voter, on its own running data |
| `MembershipWorld.RemoveKeeps` | `mesh/membership.go:420-422` | Removal takes away at most one voter and leaves at least three |
| `MembershipWorld.StopKeeps` | `mesh/embedded/service.go:515-521` | Stopping a process that belongs to no member keeps the invariant |
| `MembershipWorld.QuorumsIntersect` | `mesh/membership.go:96-98` | A majority before and a majority after any single effect share a voter |
| `MembershipController.FindTarget` | `mesh/membership.go:298-303` | Finds a member with the name or peer address, or none exists |
| `MembershipController.Records` | `mesh/membership.go:48-62` | Succeeds exactly when every voter is enrolled under its own peer address, and returns the voters |
| `MembershipController.Controller.EtcdHealth` | `mesh/membership.go:81-104` | Success means exactly that a majority, or all, of the records answered |
| `MembershipController.Controller.PrepareEtcd` | `mesh/membership.go:105-142` | A running process, or data without a retired marker, means refusal with the node unchanged; success means no process and no data on the node, and nothing else changes |
| `MembershipController.Controller.Journal` | `mesh/membership.go:275-281` | Memory follows the file, except that the file may have changed although an error is reported |
| `MembershipController.Controller.CacheMembers` | `mesh/membership.go:63-69` | The same for the seed list |
| `MembershipController.Controller.SaveMembers` | `mesh/membership.go:70-80` | Success means file, memory and the list in etcd name the records |
| `MembershipController.Controller.Promote` | `mesh/membership.go:375-387` | Repeats until the node is a voter or time is up; in time if the learner catches up |
| `MembershipController.CountedOnce` | `mesh/membership.go:394-403` | Counting the list entries that vote counts the voting members |
| `MembershipController.Controller.CheckRemoval` | `mesh/membership.go:394-413` | Passes only if three voters stay and every voter who stays answered, and without failures exactly if three stay; the records are the voters without the target |
| `MembershipController.Controller.Expel` | `mesh/membership.go:393-426` | Success means the node is no member, the seed list does not name it and the journal says cleanup with its id; the removal is sent only after every voter who stays answered; without failures it succeeds exactly when three voters stay |
| `MembershipController.Controller.Retire` | `mesh/membership.go:427-434` | Success means the marker says retired and the process is stopped |
| `MembershipController.Controller.OpenAddition` | `mesh/membership.go:320-338` | Passes only if a majority of the cached members answered and the node runs nothing and has no data that is not retired; without failures exactly for a pending addition, or when there is room and the node may be prepared |
| `MembershipController.Controller.Join` | `mesh/membership.go:339-388` | Success means the node is a voter, its marker names its member id, and the journal has that id; without failures it always succeeds |
| `MembershipController.Controller.Close` | `mesh/membership.go:310-319` | Success means the voters are recorded and published and the journal is empty |
| `MembershipController.Controller.Conclude` | `mesh/membership.go:436-450` | Success means an empty journal, the node where it should be and the voters published |
| `MembershipController.Controller.ChangeMember` | `mesh/membership.go:282-451` | Success means an empty journal and the node a voter, or absent, stopped and, if anything was to do, retired, with the voters published; a new addition of a node that runs or has data without a retired marker is refused with every node unchanged; without failures it succeeds exactly when name, room, data or the three remaining voters allow it, and always for the journalled arguments |
| `MembershipController.Controller.Cycle` | `mesh/reconcile.go:72-83` | One failure-free cycle finishes any pending operation, from every state a crash can leave |
| `MembershipController.Controller.Restart` | `mesh/controller.go:143` | Starting again from the files, at any point, keeps the invariant |
| `MembershipController.Controller.constructor` | `mesh/membership.go:200-274` | A finished bootstrap is inside the invariant |
| `MembershipController.Controller.Run` | `mesh/membership.go:282-451` | Any run: in every state at most one learner, at most seven members, at least three voters, each voter running on its own data and not marked retired; every effect changes at most one voter, a member leaves only after the seed list has stopped naming it, and a node loses its data only while it is marked retired and not running; with an empty journal the launched nodes, the voters and the cached list are one set; a failure-free cycle, after any failures and restarts, empties the journal with the node where the operation wanted it |
| `Bootstrap.Controller.TakePlan` | `mesh/membership.go:210-229` | Success means the plan in the file names exactly these nodes; a new plan is drawn up only where nothing was installed |
| `Bootstrap.Controller.Install` | `mesh/membership.go:244-255` | Prepares a node at most once according to the plan, never over data, and launches it; nothing else changes |
| `Bootstrap.Controller.InstallAll` | `mesh/membership.go:243-257` | Success means exactly the chosen nodes run; without failures it succeeds exactly if those not yet prepared have no data |
| `Bootstrap.Controller.InstallCluster` | `mesh/membership.go:200-274` | Success means exactly the chosen nodes run, the seed list names them and the plan is gone; without failures it succeeds exactly for three, five or seven different enrolled nodes that the plan allows and that have no foreign data |
| `Bootstrap.Controller.Run` | `mesh/membership.go:200-274` | Any run of attempts, failures and restarts: in every state all processes belong to one cluster, no step discards data or stops a process; whoever insists on one choice of clean nodes has the cluster after the first attempt in which nothing fails, whatever happened before |
| `Bootstrap.Controller.Restart` | `mesh/controller.go:143` | Starting again from the files, at any point, keeps the invariant |
| `Bootstrap.Handover` | `mesh/membership.go:258-273` | The cluster a finished installation forms is one the membership protocol may start from |
| `Routing.NextHops` | `mesh/protocol/protocol.go:86-120` | The table has a hop for every other node: none if the edge is healthy or no transit exists, otherwise the transit that wins by priority, then by price in steps of 25, then by name, or the current one if it is at that priority and not dearer by more than the threshold; the price is written out from the reports of both directions |
| `Routing.Select` | `mesh/protocol/protocol.go:101-117` | The loop finds the transit of lowest priority number, then cheapest bucket, then first name, and applies the hysteresis, priced from the reports |
| `Routing.PriceIsCost` | `mesh/protocol/protocol.go:71-85` | The price of a transit is, for each of its two hops, the larger round trip and 1000 times the larger loss that its two directions report, and 100 times its load, each report cut to its range |
| `Routing.ChosenIsPicks` | `mesh/protocol/protocol.go:98-117` | The rule of the loop and the choice by prices are the same |
| `Routing.DominatedNotTaken` | `mesh/protocol/protocol.go:71-117` | A transit no better in any report than another of its priority, and worse by 0.025 in loss, 25 in round trip or 0.25 in load, is never chosen afresh |
| `Routing.ChooseAll` | `mesh/agent/agent.go:458-473` | Every node of one graph gets a table of its own choice |
| `Routing.RoutesUnique` | `mesh/protocol/protocol.go:86-120` | View and current routes determine the table |
| `Routing.RoutesStable` | `mesh/protocol/protocol.go:113-117` | Feeding the table back as the current routes reproduces it |
| `Routing.HopIsTransit` | `mesh/protocol/protocol.go:98-117` | A transit is chosen only without a healthy direct edge, and only with two mutually healthy edges; none is chosen only if there is none |
| `Routing.TransitQuality` | `mesh/protocol/protocol.go:107-116` | The chosen transit has the best priority and costs less than max(m+50, 4/3(m+25)) for every cost m at that priority |
| `Routing.LeftOnlyForGain` | `mesh/protocol/protocol.go:113-116` | A healthy route of the same priority is left only for a gain of at least 25 and a quarter of its cost |
| `Routing.LoopFree` | `mesh/agent/agent.go:458-473` | On one graph, whatever loads and earlier routes the nodes hold, a packet arrives after one or two hops without repeating a node, over healthy edges if and only if a healthy path of at most two edges exists |
| `SockStats.SockTracker.Update` | `balancer/engine/sockstats.go:98-132` | For every order of the sockets the counters become those the whole history of snapshots determines |
| `SockStats.SpansExact` | `balancer/engine/sockstats.go:104-125` | The stretches of a socket are exactly the maximal runs of snapshots that show it |
| `SockStats.GainedIsMoved` | `balancer/engine/sockstats.go:109-122` | What a socket adds is the last value of each stretch, less its first value if that was in the first snapshot, plus whatever its counter went back |
| `SockStats.PoolConservation` | `balancer/engine/sockstats.go:98-132` | Each pool counts what its own sockets moved plus what their counters went back |
| `SockStats.Conservation` | `balancer/engine/sockstats.go:98-132` | All pools together count what all sockets moved plus what their counters went back, on every history |
| `SockStats.ConservedIffSteady` | `balancer/engine/sockstats.go:98-132` | Pools count exactly what sockets moved if and only if no counter went back while its socket stayed |
| `SockStats.PoolsNeverGoBack` | `balancer/engine/sockstats.go:109-124` | No pool counter ever decreases |
| `BalancerSpec.SafeHost` | `balancer/spec/spec.go:110-122` | True exactly for hosts of 1 to 253 characters of the safe alphabet that do not begin with a dash |
| `BalancerSpec.Validate` | `balancer/spec/spec.go:60-108` | No problem is reported if and only if the spec is acceptable: known engine and words, ports and weights in range, safe hosts, members, UDP only with nginx and without PROXY, one pool per listener |
| `BalancerSpec.EffectiveSound` | `balancer/spec/spec.go:60-108` | What the printers rely on holds of every acceptable spec |
| `ConfigText.NumbersAgree` | `balancer/render/render.go:27-29` | A printed integer, negative ones included, can be read back before any character that is no digit |
| `ConfigText.AddressesAgree` | `balancer/render/render.go:27-29` | Host and port can be read back from their joined form, with or without brackets |
| `ConfigText.TextDetermines` | `balancer/render/haproxy.go:13-61` | Documents of one form whose variable parts are followed by breaking characters are determined by their text |
| `Render.Haproxy` | `balancer/render/haproxy.go:13-61` | The builder writes the HAProxy document; reading the text back gives, pool by pool, id, port, balance word and, member by member, host, port, weight, health check, backup and PROXY words as the spec has them |
| `Render.Nginx` | `balancer/render/nginx.go:10-64` | The builder writes the nginx document; reading the text back gives, pool by pool, id, port, protocol, balance line, PROXY line and, member by member, host, port, weight, backup and failure words as the spec has them |
| `Render.Render` | `balancer/render/render.go:13-24` | Succeeds exactly for acceptable specs, with the text of their engine, which reads back as the pools of the spec |
| `Render.TextTells` | `balancer/render/haproxy.go:33-60` | A reader that knows only the words of the two formats gets every pool of an acceptable spec back from its text |
| `ConfigReader.NumberPrinted` | `balancer/render/render.go:27-29` | The reader gets a printed number back before any character that is no digit |
| `ConfigReader.AddressPrinted` | `balancer/render/render.go:27-29` | The reader gets host and port back from their joined form |
| `Render.HaproxyDetermines` | `balancer/render/haproxy.go:33-60` | Equal HAProxy texts come from equal pools, ids and member order included |
| `Render.NginxDetermines` | `balancer/render/nginx.go:20-63` | Equal nginx texts come from equal pools |
| `Render.EnginesDiffer` | `balancer/render/render.go:17-22` | The two engines never get the same text |
| `Render.SameTextSameConfig` | `balancer/engine/engine.go:109-115` | Two acceptable specs have the same text if and only if engine and effective configuration are equal |
| `Render.SameTextSamePools` | `balancer/engine/engine.go:109-115` | Two acceptable specs have the same text if and only if the engine is the same and, pool by pool, id, port, protocol, flags, balance unless UDP, and the hosts, ports, weights (0 counting as 1) and backups of the members are equal |
| `Render.CosmeticChange` | `balancer/render/render.go:31-36` | A new name, weight 0 written as 1, or another algorithm for UDP leaves the text as it is |
| `EngineManager.Manager.Apply` | `balancer/engine/engine.go:87-149` | The reload is skipped if and only if the engine runs and the pools of the last applied spec are, field by field, the requested ones; then the file has the requested text if and only if no apply has failed after replacing it since the last that succeeded. A file that was loaded reads back as the requested pools |
| `EngineManager.SkippedWhileStale` | `balancer/engine/engine.go:126-141` | A reload that failed and a return to the old spec: the apply is skipped although the file asks for something else |
| `LogCache.LiveFile.Parse` | `logger/filecache.go:71-88` | Consumes exactly the complete lines and appends their entries, keeping the newest 400000 |
| `LogCache.LiveFile.Refresh` | `logger/filecache.go:42-68` | Returns the newest entries, all of them up to 400000, of what the reader takes the file to be; the offset is the end of its last complete line |
| `LogCache.BelievesRightly` | `logger/filecache.go:45-62` | The reader is right about the file exactly when path or length make it start over or the file still begins with what was parsed |
| `LogCache.RotationUnseen` | `logger/filecache.go:45-62` | A log of one line replaced by another of one line: the next refresh returns the old line where a full read returns the new one |
| `LogCache.ParsedAppend` | `logger/filecache.go:74-83` | After a complete line, reading in two pieces gives the entries of reading at once |
| `LogCache.ParsedLine` | `logger/filecache.go:74-83` | One more complete line adds its entry, if it has one, at the end; what follows without a newline adds nothing |
| `LogCache.ParsedComplete` | `logger/filecache.go:76-79` | A half-written last line makes no difference |
| `LogCache.Follow` | `logger/filecache.go:42-88` | For every sequence of appends, half-written lines and rotations seen as a shorter file, each refresh returns exactly the newest 400000 entries of the file, or all if there are fewer |
| `Debounce.Health.Observe` | `mesh/controller.go:74-87` | The value is unknown until three equal outcomes in a row and then that of the latest such run |
| `Debounce.LatestRunSnoc` | `mesh/controller.go:74-87` | The counters decide correctly whether one more outcome completes a run of three |
| `Debounce.Tracker.Update` | `mesh/protocol/protocol.go:131-164` | The flag is up until a run of three failures and then follows the latest run; the loss is the share of failures in the last twelve samples; the smoothed time is the first sample or moves by 0.3 of the difference, and stays in every range the successful samples stay in |
| `Debounce.AddressWatch.ObserveIP` | `mesh/reconcile.go:301-321` | True exactly when this look is accepted and ends at least three confirmations in a row: one address other than the one on record, rising times less than 60 s apart, nothing missing or implausible in between |
| `Debounce.AddressWatch.Missing` | `mesh/reconcile.go:222-227` | A node without an observation loses its run |
| `Debounce.RunLongest` | `mesh/reconcile.go:301-321` | No run of confirmations is longer than the counted one |
| `Debounce.RereadingChangesNothing` | `mesh/reconcile.go:307-309` | Reading the same observation again neither extends nor breaks the run |
| `Allocators.Registry.Enroll` | `mesh/controller.go:521-554` | Success records the request with the lowest free overlay and, for an exit, the lowest free slot; overlays and slots stay distinct and in range, enrolled nodes keep theirs; without failures it is refused exactly for malformed or changed requests or when all 200 overlays or all 100 slots are taken |
| `Allocators.NamesAreNumbered` | `mesh/protocol/protocol.go:31` | The names accepted are exactly n or b followed by a number below ten million in its own decimal digits |
| `Allocators.OverlaysTaken` | `mesh/embedded.go:82-96` | Every overlay is taken if and only if 200 nodes are enrolled |
| `Allocators.SlotsTaken` | `mesh/embedded.go:97-115` | Every slot is taken if and only if 100 exits are enrolled |
| `Allocators.AddPorts` | `mesh/controller.go:683-696` | New ports get the next indices in the order given, so that the indices stay exactly 0 to n-1; refused exactly for a port out of range or more than 100 different ports |
| `Allocators.Registry.ConfigurePorts` | `mesh/controller.go:670-703` | An index once held in memory never changes, new ports are numbered in the order given; memory follows only a save that succeeded |
| `Allocators.Registry.Restart` | `mesh/controller.go:143` | A restart loses no index that memory held, even after a save whose result was lost |
| `Allocators.IndexedBounded` | `mesh/relay.go:129` | The allocated indices satisfy what the relay rules demand |
| `Allocators.ValidateNodes` | `mesh/protocol/protocol.go:44-58` | A node table passes if and only if it has 1 to 200 nodes, all well formed, no overlay twice |
| `Allocators.AllocatedIsRegistered` | `mesh/protocol/protocol.go:44-58` | Every table the allocator can build passes |
| `Allocators.Links` | `mesh/agent/agent.go:245-276` | Refused exactly for a table that does not validate; otherwise one interface to every other node, on ports 53001 to 53200, given by `LinkTo`, whose meaning is that of `LinksMirror` and `LinksDoNotCollide` |
| `Allocators.LinksMirror` | `mesh/agent/agent.go:266-276` | Each end dials the port the other listens on, and the link addresses mirror |
| `Allocators.LinksDoNotCollide` | `mesh/agent/agent.go:226-229` | On one host interfaces, listen ports and link addresses are distinct, and no listen port is a relay port |
| `WireGuardConf.TrimConfBlock` | `sub/subscription_filter.go:30-70` | The loop writes exactly the kept lines, trimmed |
| `WireGuardConf.TrimBlockIdempotent` | `sub/subscription_filter.go:30-70` | Filtering a filtered text changes nothing, on every input |
| `WireGuardConf.TrimBlockKeeps` | `sub/subscription_filter.go:30-70` | A text of configuration lines only passes unchanged |
| `WireGuardLines.KeptOneByOne` | `sub/subscription_filter.go:30-70` | Of a longer text one more line stays by its own characters: nothing after a share link or a bare word in a section, no line before the first section but comments, every other line as it is |
| `WireGuardLines.UriIsLink` | `sub/subscription_filter.go:7-28` | A share link is exactly a line that begins with one of the thirteen schemes in letters of either case |
| `WireGuardLines.UnchangedIffConfiguration` | `sub/subscription_filter.go:30-70` | The filter returns a text as it is if and only if the text is empty or trimmed configuration: each line a comment, a header, or, after a header, blank or an assignment |
| `WireGuardLines.FilteredIsConfiguration` | `sub/subscription_filter.go:30-70` | Whatever the text, no share link and no bare word survives the filter |
| `WireGuardConf.AppendClientConf` | `sub/wireguard_panel.go:275-314` | The builder writes the blank line and the lines of the block |
| `WireGuardConf.CommasSnoc` | `sub/wireguard_panel.go:275-314` | The joined list of name servers has every server in its place, with a comma and a space before all but the first |
| `WireGuardConf.ExtractedBlock` | `sub/wireguard_panel.go:320-329` | From the panel text the extractor returns exactly the block that was written |
| `WireGuardLines.ExtractedFromHeader` | `sub/wireguard_panel.go:320-329` | The extractor takes the block from the first header line that is not the first line of the text |
| `WireGuardLines.ExtractedFromStart` | `sub/wireguard_panel.go:320-329` | A header in the first line counts if there is no other; without a header nothing is extracted |
| `WireGuardConf.FieldParsed` | `sub/share_link_wireguard.go:40-46` | A written field is read back as its key and trimmed value, equals signs in the value included |
| `WireGuardConf.ParseConf` | `sub/share_link_wireguard.go:29-69` | The loop assigns the fields of the two sections line by line |
| `WireGuardLines.ParsedIsLastSaid` | `sub/share_link_wireguard.go:29-69` | On every text each of the six fields is what the last assignment of its key in its own section says, and empty without one |
| `WireGuardConf.RoundTrip` | `sub/wireguard_panel.go:275-329` | For newline-free values, printing, extracting and parsing returns private key, address, public key, endpoint and preshared key as written, trimmed |
| `WireGuardConf.ShowAndRead` | `sub/share_link_wireguard.go:117-118` | The same for the three programs one after the other |
| `Text.TidyIsTrim` | `sub/subscription_filter.go:69` | Trimming a text drops its trailing blank lines and the outer ends of its first and last line, and nothing else |
| `Text.IndexOfLine` | `sub/wireguard_panel.go:321-324` | The header is found at the blank line before it if no earlier line equals it |

## Left out

- RelayController.Controller.Run: assumes a fixed set of enrolled nodes and a fixed relay address, one serving node per host, host ports among the ports assigned to the node, and that neither address of a change is the relay address; the code pushes no forwards to an entry that is enrolled while a relay is on.
- RelayWorld.OperatedKeeps: ports once numbered and inbounds once assigned to a node stay; the forwards are built from the ports assigned at the time and a move does not compare them with its plans, so a host whose inbound is taken from its node during the move would be moved without a forward.
- RelayController.Controller.PushForwards: the file, unit and restart steps of one entry are one effect, and a call that timed out does not take effect later.
- RelayController.Controller.ReconcileRelays: which exits should be on is an input; flags, modes and probe results are not modelled here.
- RelayController.Controller.CompleteRename: the host field of the enrolment record and the etcd keys written on the way are calls without modelled effect.
- MembershipController.Controller.Run: starts from a finished installation and keeps the set of enrolled nodes; certificates and enrolment in between are not modelled.
- Bootstrap.Handover: how etcd forms its cluster from the launched processes is given as the predicate `Forms`, not derived.
- Bootstrap.Controller.AwaitAll: that launched members answer in time is part of being failure-free.
- MembershipController.Controller.LaunchEtcd: the data directory exists as soon as the launch succeeds, not a moment later.
- MembershipController.Controller.ChangeMember: failure-free includes that the learner catches up before the deadline and that every member answers the health check.
- Routing.NextHops: costs are exact reals; rounding of floating-point sums is not modelled, NaN and infinities are.
- Debounce.Tracker.Update: times are exact reals.
- Debounce.AddressWatch.ObserveIP: whether an address parses as a public IPv4 address is an input of each observation.
- EngineManager.Manager.Apply: name resolution for nginx comes first and its result is the input; supervision and restart of the process are the method `Exited` and the next apply.
- LogCache.LiveFile.Refresh: what one line means (JSON, time stamps) is a parameter; a read error in the middle of a file is not modelled.
- WireGuardConf.RoundTrip: the descriptive lines before the block are any lines without the header itself; the extra lines of AmneziaWG and the matching of peers by name are not modelled.
- Allocators.Registry.Enroll: SSH, keys and the address check of the panel happen before and are not modelled; a participant's name is the input instead of its kind and number.
- Overlay addresses 10.203.0.k are represented by k; arbitrary spellings of addresses are not compared.
- `parseSS` and the call of `ss`: parsing of external output, no property beyond the format.
- `Hash` of a spec, `spec.json` and metrics: JSON and digests.
- Certificates, SSH, HTTP, docker, iptables and systemd: steps that fail or succeed.
- Subscription links, Clash conversion, web server, migrations, Loki client and user interface: long field copying or library behaviour.
