# Matterbridge core: a verified model

Dafny 4.11 model of the stateful core of Matterbridge: the Matter node that hands out ports and creates server
nodes while plugins add and remove devices, its start and stop, the device registry beside it, and the smaller
machines of the same package (case conversion, device selection, WebSocket sessions and log text, the resource history
ring). `dafny verify dfyconfig.toml` checks the whole project.

## How it is built

**The endpoint protocol** (`NodeProtocol.dfy`). Every call of `addBridgedEndpoint`, `removeBridgedEndpoint` and
`createMatterbridgeServerNode`, and every round of `removeAllBridgedEndpoints`, is cut at its awaits. The code between two
awaits is one atomic step; the steps of all calls interleave freely; every awaited promise may resolve or reject, and
every message to the registry may be handled, lost with an error, or handled after its sender has timed out. Plugin
load and shutdown, which reset the counter and the lock, are events too. `Exec(s, es)` is the state after the run `es`;
the theorems quantify over all runs. `NodeMethods.dfy` is the same code as methods that change a node object in
place, from one await to the next; each is proved to take exactly its protocol step. On top of that:

- `NodeAccounting.dfy`: the plugin's `registeredDevices` counter against the registry;
- `NodePorts.dfy`: ports, passcodes and discriminators of the node and of all its dependant nodes;
- `NodeLocks.dfy`, `NodePlacement.dfy`, `NodeShapes.dfy`: the lock, how much is created under it and by whom, and the kind of
  parent a device gets;
- `NodeOrphans.dfy`, `NodeStranding.dfy`: which devices are counted without a parent, and when exactly;
- `NodePointers.dfy`, `NodeParents.dfy`: what the node's own server node and aggregator are, and that every other parent is
  one of them;
- `NodeParts.dfy`, `NodeRemovals.dfy`: the endpoint tree and the map of dependants after any run, and what removals delete;
- `NodeProgress.dfy`, `NodeManagement.dfy`: calls get through, the registry is what was delivered, lock and counter are
  what loads and shutdowns have made of them.

**Start and stop** (`NodeLifecycle.dfy`) are calls cut at their awaits on top of that state: each plugin promise settles
by its own event, the barriers are sets of outstanding promises, the loops visit the live map of dependants, and every
event of the endpoint protocol may come in between. `LifecycleTours.dfy` is about the loops, `LifecycleStart.dfy`,
`LifecycleStop.dfy` and `LifecycleOwn.dfy` about what holds in every run, `LifecycleAsked.dfy` about which plugins are
asked, `LifecycleProgress.dfy` about when they fail and that they get through otherwise, `LifecycleQuiet.dfy` about stops
that leave nothing behind, `NodeRuns.dfy` and `LifecycleRuns.dfy` about particular runs from a new node.

**Around it.** `DeviceRegistry.dfy` and `RegistryLemmas.dfy` (the registry as an ordered list), `DeviceManager.dfy` (the
class, and its list after any run), `NodePurge.dfy` (`removeAllBridgedEndpoints` and every way it can stop),
`CaseCodec.dfy`, `DeviceSelection.dfy`, `Sessions.dfy` and `SessionHistory.dfy`, `LogText.dfy` and `LogPipeline.dfy`,
`HistoryRing.dfy` and `HistoryResets.dfy`.
`Optional.dfy`, `Sequences.dfy` and `Text.dfy` (splitting and joining) are helpers.

What lies outside the code is a parameter: which promise rejects and when, the random replacement values (assumed in
range), addresses, measurements. `device.plugin` is the name the device is added under.

## What turned out not to hold

Each of these has an input or a run where it fails, and the exact condition, proved beside it.

- Counter and registry do not agree at every quiescent point. A counted device whose construction fails stays counted
  (`FailedConstructionParts`); a set of a `uniqueId` already there, a second remove, or a load while devices are
  registered makes them drift too. `CounterTracksRegistry` gives the drift exactly, `QuiescentAgreement` says when they
  agree, `CounterAgrees` treats fresh identifiers.
- Ports are distinct if and only if at most one server node was created while the port counter was unset
  (`PortsDistinctExactly`). Zero counts as unset, so a start at zero never counts up (`PortsUnset`). A negative
  start counts up to zero and stops there.
- A device can be counted without a parent, even while its plugin's creation is going well (`SecondAddIsOrphan`). For a
  dynamic platform it happens if and only if no parent has been assigned when the device looks for it
  (`OrphansOnlyInWindow`, `PickDecides`); for an accessory platform `EntryParents` says when, for the other branches
  `ParentByKind`. If the creation under the lock fails, it lasts until the next shutdown of the plugin
  (`FailedCreationStrands`, `StrandedForGood`, `StrandedDevicesAreOrphans`).
- A dependant can be in the map without a server node (`DependantWithoutServer`), and then ends a start or a stop that comes
  to it (`PendingDependantFailsStart`, from a new bridge `StartFailsFromNew`).
- A completed stop can leave a dependant running (`ReplacedDependantSurvives`, from a new bridge `StopLeavesFromNew`):
  exactly those registered after their key's
  turn or replaced before it (`StopLeavesDependants`). The node's own server node and aggregator are there again exactly
  if a creation has assigned them since (`StopLeavesOwn`), as `OwnReturnsFromNew` shows from a new node. What rules both
  out beforehand is in `QuietStopLeavesNothing`.
- `pascalCase` is documented as the inverse of `snakeCase`. It is, in either direction, exactly on the sets given by
  `PascalUndoesSnake` and `SnakeUndoesPascal`.
- Removing a postfix undoes adding it exactly as `AnyPostfixRoundTrip` says. Without a dash in it, a base that does not
  contain it is enough (`PostfixRoundTrip`); with one it is not (`DashedPostfixFails`).
- Not every connected WebSocket client stays authorised: a client that outlives a timed-out `stop` belongs to no
  current server and can lose its address (`LeftoverLosesAuthorisation`, from the beginning
  `AuthorisationLostFromFresh`); `AuthorisedThroughoutExactly` says when.
- Stripping ANSI sequences can leave one behind (`StripNotIdempotent`); `StripsCleanExactly` says when it does not.

Where comments and code disagree the model follows the code: the default passcode is 20252026, not 20242025
(`packages/core/src/matterNode.ts:643` and `:648`), log messages keep their angle brackets
(`packages/core/src/frontend.ts:2511`), and `resetPeaks` sets the peaks to zero, not to the values stored
(`packages/utils/src/tracker.ts:270`).

## Model

| member | source | states |
|---|---|---|
| `NodeMethods.EndpointNode.constructor` | packages/core/src/matterNode.ts:98-153 | a fresh node is the initial state of the protocol |
| `NodeMethods.EndpointNode.TakeCounters` | packages/core/src/matterNode.ts:923-927 | hands out port, passcode and discriminator, each if set and nonzero, advances exactly those, and enters the hand-out in the ledger |
| `NodeMethods.EndpointNode.CreateServerNode` | packages/core/src/matterNode.ts:648-665 | appends one server node commissioned with the arguments or defaults, out-of-range passcodes and discriminators replaced |
| `NodeMethods.EndpointNode.TryLock` | packages/core/src/matterNode.ts:984-991 | test-and-set: an epoch is opened exactly if the lock was free, and only that plugin changes |
| `NodeMethods.EndpointNode.AddBridgedEndpoint` | packages/core/src/matterNode.ts:1065-1141 | refines the protocol: the whole new state is the `Add` step of the old one (refused as in `AddEntry`, parents as in `ParentsAreOwn`) |
| `NodeMethods.EndpointNode.AddToAccessory` | packages/core/src/matterNode.ts:945-1120 | first step for an accessory plugin, with the lock and completeness tests |
| `NodeMethods.EndpointNode.AddToDynamic` | packages/core/src/matterNode.ts:984-1130 | first step for a dynamic plugin: attach, create under the lock, or fall through a taken lock |
| `NodeMethods.EndpointNode.SpawnNode` | packages/core/src/matterNode.ts:1069-1078 | a server-mode device gets a dependant with counters of its own, entered in the map before it is created |
| `NodeMethods.EndpointNode.RemoveBridgedEndpoint` | packages/core/src/matterNode.ts:1157-1186 | refines the `Remove` step (refused as in `RemoveEntry`, deleting as in `RemovalsDelete`) |
| `NodeMethods.EndpointNode.PurgeRound` | packages/core/src/matterNode.ts:1207-1211 | refines the `Purge` step: a round for a listed device, refused exactly without plugin or endpoint |
| `NodeMethods.EndpointNode.CreateMatterbridgeServerNode` | packages/core/src/matterNode.ts:910-936 | refines the `Boot` step |
| `NodeMethods.EndpointNode.Continue` | packages/core/src/matterNode.ts:1065-1186 | whatever promise settles, in whatever phase, refines the `Resume` step |
| `NodeMethods.EndpointNode.ContinueSpawn` | packages/core/src/matterNode.ts:1026-1056 | a dependant takes from its own counters and creates its own server node |
| `NodeMethods.EndpointNode.ContinueHub` | packages/core/src/matterNode.ts:910-1017 | server node, then aggregator, then joining them, for dynamic plugins and the bridge |
| `NodeAccounting.BalanceStep` | packages/core/src/matterNode.ts:1137-1186 | one step of any call, a load or a shutdown changes counter minus registry minus messages owed by exactly its slip |
| `NodeAccounting.CounterTracksRegistry` | packages/core/src/matterNode.ts:1137-1186 | over every interleaving, failure, load and shutdown, the counter is ahead of the registry by what is owed plus the slips of the run, exactly |
| `NodeAccounting.QuiescentAgreement` | packages/core/src/matterNode.ts:1137-1183 | at a quiescent point of any run counter and registry agree if and only if slips and lost messages cancel out |
| `NodeAccounting.OrderlyStep` | packages/core/src/matterNode.ts:1137-1183 | under disciplined callers no step breaks: added ids are not registered, removed ids are, no two calls in flight clash |
| `NodeAccounting.DisciplinedRunsNeverSlip` | packages/core/src/deviceManager.ts:197-221 | with fresh ids and no double removes no message overwrites or misses an entry |
| `NodeAccounting.CounterAgrees` | packages/core/src/matterNode.ts:1137-1183 | with fresh ids and no double removes, in every reachable state, loads and shutdowns included, the counter is the number of registered devices plus pending sets minus pending removes plus lost messages, less what was afoot at the last load; so when the two agree |
| `NodeAccounting.FailedConstructionParts` | packages/core/src/matterNode.ts:1137-1140 | on any idle bridge a three-event run to a quiescent point where they differ |
| `NodePorts.BumpsClosedForm` | packages/core/src/matterNode.ts:923-927 | closed form of a counter after k hand-outs, for every start including unset, zero and negative |
| `NodePorts.LedgerStep` | packages/core/src/matterNode.ts:1043-1078 | every step keeps the ledger: one hand-out per creating call, held until it becomes a server node |
| `NodePorts.EachServerHasItsGrant` | packages/core/src/matterNode.ts:1002-1078 | every server node, own or of a dependant, is commissioned from one hand-out of this node, the k-th counting up from the start, and no two share one |
| `NodePorts.PortsDistinctExactly` | packages/core/src/matterNode.ts:923-1078 | for every start and run: all ports pairwise distinct if and only if at most one server node was created with the counter unset |
| `NodePorts.PortsContiguous` | packages/core/src/matterNode.ts:923-1078 | from a positive start the hand-outs are one contiguous range and no two server nodes of the tree share a port |
| `NodePorts.PortsUnset` | packages/core/src/matterNode.ts:923-927 | from an unset or zero start everything is on port 5540, so distinct exactly with at most one server node |
| `NodePorts.CommissioningInRange` | packages/core/src/matterNode.ts:648-665 | however far the counters run, passcode in 0..99999999 and discriminator in 0..4095 (section 5.1 of the Matter Core Specification), used unchanged while in range, 20252026 and 3850 from an unset start |
| `NodePorts.DiscriminatorsDistinct` | packages/core/src/matterNode.ts:661-665 | the first 4096 - d discriminators from a start d are pairwise distinct as used |
| `NodeLocks.LockInvStep` | packages/core/src/matterNode.ts:945-1017 | every step keeps the lock invariant: a taken lock has its holder, no two calls share an epoch, what exists was created by a holder |
| `NodeLocks.EpochsNeedUnlocks` | packages/core/src/pluginManager.ts:1428 | in every run a lock is taken at most once more than the plugin was shut down |
| `NodeLocks.CreationsNeedUnlocks` | packages/core/src/matterNode.ts:984-1017 | in every run, with any plugins, boots, server-mode devices and shutdowns, the server nodes created under a plugin's lock number at most one more than its shutdowns, and so do the aggregators |
| `NodeShapes.ShapedStep` | packages/core/src/matterNode.ts:1065-1137 | every step keeps the shape of every call: what it has created and which parent it can have, by its branch |
| `NodeShapes.MadeBy` | packages/core/src/matterNode.ts:910-1056 | in every run each server node is made by a boot, for a server-mode device or under its plugin's lock, each aggregator by a boot or under a lock |
| `NodePlacement.CountedDevicesSitRight` | packages/core/src/matterNode.ts:1084-1137 | in every reachable state a counted device with a parent has an existing one of the right kind, a server-mode device the server node its own call has made (which node it is otherwise: `ParentsAreOwn`) |
| `NodeOrphans.OrphansOnlyInWindow` | packages/core/src/matterNode.ts:1122-1137 | in every run a counted device of a dynamic plugin has exactly the parent the node had when it looked, the server node of that moment in matter mode and the aggregator otherwise; it has none if and only if none had been assigned by then, and then every creating call, and there was another one, was between lock and assignment, had failed there or was creating for an accessory; for one let through by its plugin's lock, whoever had taken that lock was between lock and assignment or had failed there |
| `NodeOrphans.PickDecides` | packages/core/src/matterNode.ts:1125-1137 | the converse: whenever such a call looks, what it has in the end is the server node (matter mode) or the aggregator (otherwise) of that moment, or nothing if there was none |
| `NodeOrphans.TargetExactly` | packages/core/src/matterNode.ts:1129-1130 | in every reachable state there is no parent for a device if and only if no creating call has assigned one |
| `NodeOrphans.SecondAddIsOrphan` | packages/core/src/matterNode.ts:990-1130 | a four-event run, with the creation still going well, to a counted device without a parent |
| `NodeOrphans.EntryParents` | packages/core/src/matterNode.ts:1084-1120 | in every run the parent of a counted device of a bridge or an accessory platform is settled when its add enters: on a bridge the server node or aggregator of that moment; an accessory has none if and only if there was no server node and the lock was taken or its description incomplete, sits on the server node if there was one, and otherwise on the one its own call has created |
| `NodePointers.PointersAreLast` | packages/core/src/matterNode.ts:910-1017 | in every run the node's server node is the one created last by a boot or for a device not in server mode, its aggregator the one created last, and each is there exactly if one has been created |
| `NodeParents.ParentsAreOwn` | packages/core/src/matterNode.ts:1084-1137 | in every run a counted device that is not in server mode and has a parent sits on what the node had for itself at some moment of the run: its server node, made by a boot or under a lock and never for a server-mode device, or its aggregator; the aggregator exactly if it is not in matter mode and not of an accessory platform |
| `NodeOrphans.ParentByKind` | packages/core/src/matterNode.ts:1069-1137 | in every run a bridge counts no device without a parent, a server-mode device has one exactly if complete, and where no branch applies there is none |
| `NodeOrphans.OneServerOneAggregator` | packages/core/src/matterNode.ts:984-1017 | in every run without a shutdown of the plugin at most one server node and one aggregator are created under its lock |
| `NodeStranding.StrandedForGood` | packages/core/src/matterNode.ts:984-1017 | lock taken, nothing created, nobody creating: stays so through every run without a shutdown of the plugin, a boot or an add of another plugin |
| `NodeStranding.StrandedDevicesAreOrphans` | packages/core/src/matterNode.ts:1125-1137 | in such a run every device counted after that has no parent |
| `NodeStranding.FailedCreationStrands` | packages/core/src/matterNode.ts:990-1002 | on any fresh node one add whose creation rejects leads there |
| `NodeParts.TreeIsLastTouch` | packages/core/src/matterNode.ts:1090-1177 | for every run and device, however often added, removed or purged, its place in the tree is what the last completed attach or delete left |
| `NodeRemovals.RemoveEntry` | packages/core/src/matterNode.ts:1157-1179 | in every state a removal is refused if and only if the plugin is unknown, or the device has no server node of its own and the aggregator (bridge, dynamic platform) or server node (accessory platform) is missing, and then nothing changes; it waits for the delete exactly if the device hangs in the tree; any other is counted down at once |
| `NodeRemovals.PurgeEntry` | packages/core/src/matterNode.ts:1207-1211 | in every state a round of a purge is refused if and only if plugin or endpoint is missing, else it waits for the delete of the endpoint found, having changed nothing |
| `NodeRemovals.LookupExactly` | packages/core/src/matterNode.ts:1207-1211 | in every state the lookup of a purge has an answer: an endpoint with the id under the current aggregator if there is one, else under the current server node, else none |
| `NodeRemovals.RemovalsDelete` | packages/core/src/matterNode.ts:1164-1183 | in every run a removal that has been counted down, and whose device hangs in the tree, has deleted it from the tree after it entered |
| `NodeRemovals.GoneUnlessAttached` | packages/core/src/matterNode.ts:1164-1179 | in every run a deleted endpoint is absent at the end unless an add has attached it again since |
| `NodeProgress.AddEntry` | packages/core/src/matterNode.ts:1065-1093 | in every state an add is refused if and only if the plugin is unknown or a bridge lacks the server node (matter mode) or aggregator (bridged mode) it needs, and then nothing changes |
| `NodeProgress.OneStepOn` | packages/core/src/matterNode.ts:910-1186 | a promise that resolves brings its call exactly one await closer to its end, never to a failure |
| `NodeProgress.GetsThrough` | packages/core/src/matterNode.ts:910-1186 | from every reachable state, whatever else is in flight, a call gets through if the promises it still waits for resolve |
| `NodeProgress.LateIsHandled` | packages/core/src/matterNode.ts:1140-1183 | a message to the registry waits until it is handled, and a sender that has timed out makes no difference to the registry |
| `NodeProgress.RegistryReflects` | packages/core/src/deviceManager.ts:197-221 | after every run, however the calls interleave, the registry holds what the delivered messages make of it: each live id once, with the device last set, in order of first insertion since its last removal |
| `NodeManagement.LockIsHistory` | packages/core/src/pluginManager.ts:1428 | in every run a plugin's lock is taken if and only if a call has taken it since the plugin's last shutdown |
| `NodeManagement.CounterIsHistory` | packages/core/src/pluginManager.ts:1263-1438 | in every run a plugin has a counter after its last load or shutdown if and only if that was a load, and either leaves it at zero |
| `NodeParts.FailedDependantStays` | packages/core/src/matterNode.ts:1073-1083 | a registered dependant stays in the map through every continuation, with a server node exactly if its call got one |
| `NodeParts.DependantWithoutServer` | packages/core/src/matterNode.ts:1073-1083 | a two-event run to a dependant in the map without server node and no call in flight |
| `NodePurge.DropFirst` | packages/core/src/deviceManager.ts:214-221 | dropping a plugin's first device takes the head of its list and touches no other list |
| `NodePurge.PurgingNode.RemoveOne` | packages/core/src/matterNode.ts:1207-1215 | one round with each of its endings: missing endpoint, rejected delete, unanswered removal, done; tree, counter and registry after each |
| `NodePurge.PurgingNode.RemoveEach` | packages/core/src/matterNode.ts:1206-1218 | for every course of the rounds: exactly the devices of the completed rounds are unregistered, exactly those and an unanswered one deleted and uncounted, and that one's message is on its way |
| `NodePurge.PurgingNode.RemoveAllBridgedEndpoints` | packages/core/src/matterNode.ts:1200-1220 | the same for the devices of the plugin, or nothing if they could not be listed; when it goes through, exactly the other plugins' devices are left, in their order |
| `NodePurge.PurgingNode.HandleLate` | packages/core/src/matterNode.ts:1215 | a late removal unregisters its device and changes nothing else |
| `NodePurge.DeletedExactly` | packages/core/src/matterNode.ts:1208-1211 | exactly when an id goes: from under the aggregator when it is named at all, from under the server node when it is named once, or twice if the aggregator has it too |
| `NodePurge.CourseExactly` | packages/core/src/matterNode.ts:1206-1218 | a round is completed if and only if all before it are, an endpoint with its device's id is left and the registry answers; the loop ends at the first that is not, with the ending that says why |
| `NodePurge.PurgeComplete` | packages/core/src/matterNode.ts:1200-1220 | when it goes through, the registry is left with exactly the other plugins' devices, in their order |
| `NodePurge.PurgeInterrupted` | packages/core/src/matterNode.ts:1206-1218 | for every ending the rest of the plugin's list and all other lists are untouched, and counter and registry are as far apart as before, or one less until an unanswered removal is handled |
| `DeviceManagers.DeviceManager.Has` | packages/core/src/deviceManager.ts:176-178 | true exactly for the ids of listed devices |
| `DeviceManagers.DeviceManager.Set` | packages/core/src/deviceManager.ts:197-205 | replaces in place or appends; refused exactly without a uniqueId |
| `DeviceManagers.DeviceManager.Remove` | packages/core/src/deviceManager.ts:214-221 | drops the entry, answers whether it was there; throws exactly without a uniqueId |
| `DeviceManagers.DeviceManager.Clear` | packages/core/src/deviceManager.ts:226-228 | leaves no device |
| `DeviceManagers.DeviceManager.BaseArray` | packages/core/src/deviceManager.ts:255-263 | the order-preserving sublist of the plugin; all devices without a name or with an empty one |
| `DeviceManagers.ListReflectsRun` | packages/core/src/deviceManager.ts:197-228 | after any run of set, remove and clear, the list holds each live id once, with the device last set, in order of first insertion since its last removal |
| `DeviceManagers.BaseArrayAfterRun` | packages/core/src/deviceManager.ts:255-263 | after any run, a plugin's list is exactly its live devices, oldest first |
| `DeviceManagers.PluginsPartition` | packages/core/src/deviceManager.ts:255-263 | the per-plugin lists, gathered over all names, hold every device exactly as often as the whole list |
| `LifecycleStart.StartInOrder` | packages/core/src/matterNode.ts:357-411 | in every run, whatever interleaves: the own server node is started only when every start asked for has settled, configures come after that and all before any dependant, nothing twice |
| `LifecycleStart.StartsEachOnce` | packages/core/src/matterNode.ts:406-411 | after a completed start a dependant has been started, once, if and only if it was in the map at its key's turn: neither registered later nor replaced before |
| `LifecycleAsked.StartsTheLoaded` | packages/core/src/matterNode.ts:357-380 | in every run only plugins that were enabled and loaded when the start began (or the node's own plugin) are started, and when the own server node is started, as in every completed start, all of them have settled |
| `LifecycleAsked.ConfiguresTheStarted` | packages/core/src/matterNode.ts:386-404 | in every run only plugins that were enabled and started when the own server node's start settled are configured, and all of them before any dependant and in every completed start |
| `LifecycleAsked.StopsTheStarted` | packages/core/src/matterNode.ts:420-455 | in every run only plugins that were enabled and started when the stop began are shut down, and all of them before anything is closed |
| `LifecycleAsked.StartedIsHistory` | packages/core/src/pluginManager.ts:1321-1431 | in every run a known plugin counts as started if and only if the last event that says so was its start settling or a reload as started |
| `LifecycleAsked.ShutdownFrees` | packages/core/src/pluginManager.ts:1428-1438 | a shutdown that settles well frees the plugin's lock and drops its counter, and touches no other plugin and nothing else of the node |
| `LifecycleProgress.StartFailsExactly` | packages/core/src/matterNode.ts:357-411 | exactly when an event of a start fails it: no server node at the beginning of a bridge or after the last plugin, or a dependant without server node at its turn |
| `LifecycleProgress.StopFailsExactly` | packages/core/src/matterNode.ts:420-472 | exactly when an event of a stop fails it: no server node at the beginning or at the end of the loop, or a dependant without one at its turn |
| `LifecycleProgress.StartGetsThrough` | packages/core/src/matterNode.ts:357-411 | from every state of a start in progress with the server node there and no dependant without one, the events of the start alone lead to its end |
| `LifecycleProgress.StopGetsThrough` | packages/core/src/matterNode.ts:420-472 | the same for a stop |
| `LifecycleStart.PendingDependantFailsStart` | packages/core/src/matterNode.ts:406-411 | a two-event run where a dependant without server node fails the start |
| `LifecycleTours.MapRegisters` | packages/core/src/matterNode.ts:1077 | registering keeps the map: keys in insertion order, under each the dependant registered last |
| `LifecycleTours.FreshMap` | packages/core/src/matterNode.ts:153 | a node without dependants satisfies what the theorems on start and stop assume of the map |
| `LifecycleTours.VisitNext` | packages/core/src/matterNode.ts:408-460 | the next entry of the live map is a dependant not visited yet, the last one registered for its key |
| `LifecycleTours.VisitedExactly` | packages/core/src/matterNode.ts:408-460 | a completed loop over the live map has visited a dependant if and only if it was neither late nor replaced |
| `LifecycleStop.StopInOrder` | packages/core/src/matterNode.ts:420-472 | in every run, whatever interleaves: only plugins asked are shut down, dependants are closed only when every shutdown asked for has settled, then the own server node, then the storage, nothing twice |
| `LifecycleStop.StopLeavesDependants` | packages/core/src/matterNode.ts:458-461 | after a completed stop, in every run, a dependant has a server node if and only if it got one, no earlier stop closed it, and it was registered after its key's turn or replaced before it |
| `LifecycleStop.ReplacedDependantSurvives` | packages/core/src/matterNode.ts:458-468 | a five-event run to a completed stop that leaves a replaced dependant with its server node |
| `LifecycleOwn.StopLeavesOwn` | packages/core/src/matterNode.ts:464-468 | after a completed stop, in every run, the node has a server node or aggregator of its own if and only if one has been made since the close |
| `LifecycleQuiet.CalmCloseIsFinal` | packages/core/src/matterNode.ts:464-468 | if no creation is in flight at the close and nothing is added or booted after it, the node has neither server node nor aggregator in any run from there |
| `LifecycleQuiet.QuietStopLeavesNothing` | packages/core/src/matterNode.ts:420-472 | if a stop begins with no creation in flight and no dependant replaced, and nothing is added or booted until it completes, no node in the tree has a server node or aggregator |
| `LifecycleRuns.StartFailsFromNew` | packages/core/src/matterNode.ts:357-411 | the failing start as a run from a new bridge |
| `LifecycleRuns.StopLeavesFromNew` | packages/core/src/matterNode.ts:420-472 | the stop that leaves a dependant running as a run from a new bridge |
| `LifecycleRuns.OwnReturnsFromNew` | packages/core/src/matterNode.ts:464-1017 | a run from a new node to a completed stop after which the node has a server node again |
| `CaseCodec.SnakeCase` | packages/core/src/matterbridgeFactory.ts:58-74 | the loop with its flag computes the recursive `Snake` |
| `CaseCodec.SnakeIsLetters` | packages/core/src/matterbridgeFactory.ts:58-74 | letter by letter: a capital becomes small, behind a dash unless it is first or follows a capital; every other character stays |
| `CaseCodec.ScanIsPascal` | packages/core/src/matterbridgeFactory.ts:85-91 | split, filter, capitalize, join equals one left-to-right scan |
| `CaseCodec.PascalUndoesSnake` | packages/core/src/matterbridgeFactory.ts:58-91 | `pascalCase(snakeCase(s)) == s` if and only if s has no separator, does not start in lower case and has no two adjacent upper-case letters |
| `CaseCodec.SnakeInjective` | packages/core/src/matterbridgeFactory.ts:58-74 | `snakeCase` is injective on those strings |
| `CaseCodec.SnakeUndoesPascal` | packages/core/src/matterbridgeFactory.ts:58-91 | `snakeCase(pascalCase(t)) == t` if and only if t is empty, or has no upper case, no underscore, no empty piece, every later piece starts with a letter and no piece before another is a single letter |
| `CaseCodec.CamelPascal` | packages/core/src/matterbridgeFactory.ts:102-105 | `camelCase` and `pascalCase` can each be recovered from the other's result, and `pascalCase` is idempotent |
| `CaseCodec.Alphabet` | packages/core/src/matterbridgeFactory.ts:58-91 | the letters, their two cases and the separators, by character code |
| `CaseCodec.CamelShape` | packages/core/src/matterbridgeFactory.ts:102-105 | `camelCase` never starts in upper case and is `pascalCase` from the second character on |
| `DeviceSelection.PluginConfig.SelectDevice` | packages/core/src/frontend.ts:2411-2439 | the new lists after a select: by name that name; by serial the serial, without the first occurrence of dash and postfix if it has one; refused, with nothing changed, exactly for another selectFrom |
| `DeviceSelection.PluginConfig.UnselectDevice` | packages/core/src/frontend.ts:2459-2486 | likewise after an unselect |
| `DeviceSelection.RemoveFirstExactly` | packages/core/src/frontend.ts:2413-2415 | a string without the pattern stays, otherwise exactly its first occurrence is cut out |
| `DeviceSelection.NoneBefore` | packages/core/src/frontend.ts:2413-2415 | and the pattern does not begin at any earlier place |
| `DeviceSelection.OthersKeepPlace` | packages/core/src/frontend.ts:2411-2478 | every operation leaves a missing list missing, moves no key but its own, and puts a new one last |
| `DeviceSelection.BlackIsLastUnselected` | packages/core/src/frontend.ts:2411-2478 | after any run a key is black-listed exactly if the last operation on it was an unselect, or none was and it was there |
| `DeviceSelection.EmptyWhiteStays` | packages/core/src/frontend.ts:2417-2470 | an empty white list stays empty through every run |
| `DeviceSelection.WhiteIsLastSelected` | packages/core/src/frontend.ts:2417-2470 | after any run a key is white-listed exactly if the list has not been emptied and the last operation on it was a select, or none was and it was there |
| `DeviceSelection.NonEmptyAllAlong` | packages/core/src/frontend.ts:2417-2470 | a list that is non-empty now was never empty on the way |
| `DeviceSelection.UnselectSelectRestores` | packages/core/src/frontend.ts:2417-2470 | unselect then select brings a white-listed key back if and only if it was not the only one |
| `DeviceSelection.TidyRun` | packages/core/src/frontend.ts:2411-2478 | lists that start disjoint and duplicate-free stay so in every run |
| `DeviceSelection.PostfixRoundTrip` | packages/core/src/frontend.ts:2413-2415 | for a postfix without dash, removal undoes addition if and only if the base does not contain it, or is from there on nothing but repetitions of it |
| `DeviceSelection.CommutingWords` | packages/core/src/frontend.ts:2413-2415 | two strings commute if and only if they are repetitions of one word |
| `DeviceSelection.AnyPostfixRoundTrip` | packages/core/src/frontend.ts:2413-2415 | for every base and every postfix, with or without dashes, removal undoes addition if and only if the base, from where the first occurrence begins, and the pattern are repetitions of one word |
| `DeviceSelection.DashedPostfixFails` | packages/core/src/frontend.ts:2413-2415 | a concrete base and dashed postfix where an overlapping earlier occurrence is hit |
| `Sessions.CurrentClientsAuthorised` | packages/core/src/frontend.ts:413-425 | in every run, with one cancelled timer or any number of uncancelled ones, every client of the running server is authorised |
| `Sessions.CleanStopsAuthoriseAll` | packages/core/src/frontend.ts:1156-1194 | if no stop leaves a client connected, every connected client is authorised at all times |
| `Sessions.LostExactly` | packages/core/src/backendWsServer.ts:168-180 | one event takes a connected client's authorisation if and only if it is a timer clearing while only clients of earlier servers, one with a known address, are left |
| `Sessions.AuthorisedThroughoutExactly` | packages/core/src/backendWsServer.ts:168-180 | a whole run keeps all clients authorised if and only if no such clearing happens in it |
| `Sessions.LeftoverLosesAuthorisation` | packages/core/src/frontend.ts:1176-1194 | after any stop that left a known client connected, four events withdraw its authorisation |
| `Sessions.AuthorisationLostFromFresh` | packages/core/src/frontend.ts:1176-1194 | such a run of seven events from the initial state |
| `Sessions.SessionServer.OnLogin` | packages/core/src/frontend.ts:697 | refines the login event and keeps the invariant |
| `Sessions.SessionServer.OnUpgrade` | packages/core/src/frontend.ts:499-502 | refines the upgrade event and keeps the invariant |
| `Sessions.SessionServer.OnClose` | packages/core/src/frontend.ts:413-425 | refines the close event: a timer starts exactly if the running server has no client left, replacing the old one in the frontend |
| `Sessions.SessionServer.OnTimer` | packages/core/src/frontend.ts:420-424 | refines the timer event: addresses are cleared exactly if the running server has no client |
| `Sessions.SessionServer.OnStart` | packages/core/src/frontend.ts:384 | refines the start event: a new server without clients, so nobody is newly unauthorised |
| `Sessions.SessionServer.OnStopped` | packages/core/src/frontend.ts:1168-1194 | refines the stop event and keeps the invariant |
| `Sessions.SessionServer.OnDestroy` | packages/core/src/frontend.ts:173-174 | refines the destroy event: the frontend's timer is cancelled |
| `SessionHistory.FireExactly` | packages/core/src/frontend.ts:420-424 | in every state a timer empties the authorised addresses if the running server has no client, else leaves them, and changes nothing else |
| `SessionHistory.AuthorisedIsHistory` | packages/core/src/frontend.ts:413-502 | in every run an address is authorised if and only if a login or upgrade with it came after the last time a timer found the running server without clients, or it was there at the start and no timer ever did |
| `SessionHistory.ConnectedIsHistory` | packages/core/src/frontend.ts:384-502 | in every run a socket is connected if and only if it was upgraded while a server was running and has not closed since, with that address and server |
| `SessionHistory.ServerIsHistory` | packages/core/src/frontend.ts:384 | in every run the server is running if and only if a start has not been stopped |
| `SessionHistory.SingleTimer` | packages/core/src/frontend.ts:413-425 | in every run of the frontend its timer is pending if and only if the running server has been deserted since it last fired or was destroyed |
| `SessionHistory.UncancelledTimers` | packages/core/src/backendWsServer.ts:168-180 | in every run of the backend the pending timers are the desertions less the firings |
| `LogPipeline.SendLogMessage` | packages/core/src/frontend.ts:2514-2548 | something is sent exactly if there are clients and no field is empty; for whatever visible characters, control characters and ANSI sequences the message is made of, it is the visible text after the leading asterisks, quotes unescaped, words truncated except for spawn; free of control characters, no longer than the message and, except for spawn, with words of at most 100 |
| `LogPipeline.PreparedIsSent` | packages/core/src/frontend.ts:2519-2546 | the steps in their order give that text, for every message so made up |
| `LogPipeline.EveryMessageIsBits` | packages/core/src/frontend.ts:2519-2526 | every message is made of visible characters, control characters and sequences |
| `LogPipeline.CleanTextIsSent` | packages/core/src/frontend.ts:2519-2546 | clean text with control characters and sequences interleaved is sent as exactly that text |
| `LogPipeline.AnsiIsSequence` | packages/core/src/frontend.ts:2519 | stripping recognises exactly the sequences: escape, bracket, digits and semicolons, one of m, bar, s, u, K |
| `LogPipeline.UnquoteJoins` | packages/core/src/frontend.ts:2528 | cut at its backslash-quotes (`EveryTextIsCut`: every text can be), a text keeps its pieces, now joined by quotes |
| `LogText.WithoutConcat` | packages/core/src/frontend.ts:2523-2526 | removing a class of characters distributes over concatenation |
| `LogText.WithoutOne` | packages/core/src/frontend.ts:2523-2526 | a single character is kept if and only if it is not in the class |
| `LogText.WithoutCounts` | packages/core/src/frontend.ts:2523-2526 | every character outside the class occurs as often as before, none inside it |
| `LogText.StripUndoesRender` | packages/core/src/frontend.ts:2519 | stripping ANSI sequences (section 5.4 of ECMA-48) from rendered text gives back the text |
| `LogText.StripsCleanExactly` | packages/core/src/frontend.ts:2519 | no escape character remains if and only if the message is escape-free text interleaved with well-formed sequences |
| `LogText.StripNotIdempotent` | packages/core/src/backendWsServer.ts:336 | a concrete message where stripping twice removes more |
| `LogText.TruncatedWords` | packages/core/src/frontend.ts:2535-2545 | the words of a truncated text are exactly the pieces of its words, a word over 100 cut to its first 20, three dots and its last 20 |
| `LogText.TruncateIdempotent` | packages/core/src/frontend.ts:2535-2545 | truncation changes a text exactly if a word is too long, and is idempotent |
| `LogText.PreparedIsClean` | packages/core/src/backendWsServer.ts:334-363 | the prepared text has no control character, is no longer than the message, and has short words |
| `LogText.CleanExactly` | packages/core/src/frontend.ts:2519-2546 | the pipeline leaves a message alone if and only if it has no control character, leading asterisk, escaped quote or long word |
| `LogText.UnquoteUndoesQuote` | packages/core/src/frontend.ts:2528 | replacing escaped quotes undoes escaping them, on every string |
| `LogText.StarsDropped` | packages/core/src/frontend.ts:2521 | exactly the leading asterisks go |
| `LogText.TabsAreControls` | packages/core/src/frontend.ts:2523-2526 | the separate removal of tabs and newlines changes nothing |
| `Text.JoinSplit` | packages/core/src/frontend.ts:2535-2545 | joining with the separator undoes splitting |
| `Text.SplitJoin` | packages/core/src/frontend.ts:2535-2545 | splitting undoes joining pieces free of the separator |
| `HistoryRing.NormalizedHistory` | packages/core/src/cliHistory.ts:67-72 | the modular loop returns the used slots of the ring rotated to the write index |
| `HistoryRing.RotateVisitsAll` | packages/core/src/cliHistory.ts:67-69 | once around visits each slot exactly once |
| `HistoryRing.PeakIgnoresRotation` | packages/core/src/cliHistory.ts:74-84 | a peak is the maximum over the used slots of the raw buffer whatever the start; there is a page exactly if a slot is used |
| `HistoryRing.WriteTurns` | packages/utils/src/tracker.ts:183-264 | seen by the reader, a write drops the oldest slot and appends the new one |
| `HistoryRing.PageIsLastWrites` | packages/core/src/cliHistory.ts:65-72 | for every size, start index and number n of writes, the page is the last min(n, size) samples in write order |
| `HistoryRing.Tracker.Sample` | packages/utils/src/tracker.ts:183-264 | one tick writes the measurement with peaks carried over from the newest entry and advances the index |
| `HistoryRing.PeakSurvivesEviction` | packages/core/src/cliHistory.ts:78-84 | after any number of measurements the page's peak is the largest value ever measured, also once its slot is overwritten |
| `HistoryRing.PageShowsMeasures` | packages/utils/src/tracker.ts:183-264 | after any number of measurements the page shows the last of them, each with its time and the value measured for every metric |
| `HistoryRing.Tracker.ResetPeaks` | packages/utils/src/tracker.ts:272-283 | a reset zeroes the peaks of the newest entry and changes nothing else |
| `HistoryResets.ResetTurns` | packages/utils/src/tracker.ts:272-283 | seen by the reader, a reset changes only the last slot |
| `HistoryResets.PageIsLastLogged` | packages/core/src/cliHistory.ts:65-72 | for every size and every run of samples and resets the page is the last entries of a plain list of all of them |
| `HistoryResets.NewestPeakSinceReset` | packages/utils/src/tracker.ts:183-283 | after every such run the newest entry shows the largest value measured since the last reset |
| `HistoryResets.LogIsSamples` | packages/utils/src/tracker.ts:183-283 | in every run of samples and resets there is one entry for each sample, with its time and values; resets change neither |

## Left out

- Everything inside matter.js (server nodes, endpoints, fabrics, pairing): only created, attached, deleted and closed remain.
- `matterStorageContext`, which concurrent creations overwrite: storage is not modelled.
- `addVirtualEndpoint`, `subscribeAttributeChanged`, `yieldToNode` and delays: they change none of the modelled state.
- The registry's message handler and the plugin manager appear as events of the protocol (`Deliver`, `Timeout`, `Unlock`, `Uncount`, `Load`), not as methods of `EndpointNode`; the registry's own methods are in `DeviceManager.dfy`.
- In NodePorts, NodeLocks, NodeShapes, NodePlacement, NodeOrphans, NodeStranding, NodePointers, NodeParents, NodeRemovals, NodeProgress and NodeManagement "every run" is every run of the endpoint protocol, which has no stop: once a stop has cleared the node's pointers, a creating call may have assigned a parent that is no longer there.
- The waits for construction that follow an `add` inside `createAccessoryPlugin` and `createDeviceServerNode` are one step with it, so a rejection there counts as a failed add and leaves the device out of the tree.
- `start` and `stop` are modelled on values, each section between two awaits a function: update in place is not captured there.
- A dependant whose device has no name starts its plugin once more before its start fails; only the failure is modelled.
- NodePurge.PurgingNode.RemoveAllBridgedEndpoints: without interference; among other calls its rounds are `Purge` events, free to come in any order.
- NodePurge.PurgingNode.RemoveOne: a rejected delete leaves the endpoint where it was.
- Sessions.SessionServer.OnStopped: asking each client to close, and waiting at most ten seconds, is left to later `Close` events.
- CaseCodec.SnakeCase: upper and lower case are ASCII; other characters keep their case here.
- LogPipeline.SendLogMessage: characters are code points, where the source counts UTF-16 units.
- LogText.TruncatedWords: likewise, a word of 100 characters outside the basic plane is 200 units long in the source.
- HistoryRing.Tracker.Sample: free and total memory, which the history page does not read, are not modelled; measurements are real numbers.
- HistoryRing.PeakSurvivesEviction: runs without resets; with resets the page is described by `PageIsLastLogged` and `NewestPeakSinceReset`.
- `toBaseDevice` copies fields; devices carry only the fields the protocol reads.
- HTTP, HTTPS and Express routes, certificates, files, the other WebSocket requests, the generated HTML page and the browser application.
