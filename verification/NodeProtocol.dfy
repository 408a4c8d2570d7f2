/**
 The endpoint protocol of MatterNode (packages/core/src/matterNode.ts) as a state machine.

 Every call of `addBridgedEndpoint`, `removeBridgedEndpoint` and `createMatterbridgeServerNode`,
 and every round of `removeAllBridgedEndpoints`, is cut at its `await`s: the code between two awaits
 is one atomic step, and the steps of all calls interleave freely.  What an awaited promise does
 (resolve or reject) is chosen by the event.
 */
module NodeProtocol {
  import opened Optional
  import opened DeviceRegistry

  datatype BridgeMode = Bridge | ChildBridge | Unbridged

  datatype Platform = Accessory | Dynamic | AnyPlatform

  /** A plugin record.  `epochs` counts how often its lock has been taken. */
  datatype Plugin = Plugin(platform: Platform, locked: bool, epochs: nat, registered: Option<int>)

  // ---------- commissioning counters ----------

  datatype Counters = Counters(port: Option<int>, passcode: Option<int>, discriminator: Option<int>)

  /** `this.x ? this.x++ : undefined`: the value handed out.  Zero counts as unset. */
  function Take(c: Option<int>): Option<int> {
    if c.Some? && c.value != 0 then c else None
  }

  /** `this.x ? this.x++ : undefined`: the counter afterwards. */
  function Bump(c: Option<int>): Option<int> {
    if c.Some? && c.value != 0 then Some(c.value + 1) else c
  }

  function TakeAll(c: Counters): Counters {
    Counters(Take(c.port), Take(c.passcode), Take(c.discriminator))
  }

  function BumpAll(c: Counters): Counters {
    Counters(Bump(c.port), Bump(c.passcode), Bump(c.discriminator))
  }

  const DEFAULT_PORT := 5540
  const DEFAULT_PASSCODE := 20252026
  const DEFAULT_DISCRIMINATOR := 3850
  const MAX_PASSCODE := 99999999
  const MAX_DISCRIMINATOR := 0xfff

  /** A created matter.js server node: the call that created it and what it was commissioned with. */
  datatype ServerNode = ServerNode(call: nat, port: int, passcode: int, discriminator: int)

  /** What `createServerNode` builds from its (possibly undefined) arguments;
      `rp` and `rd` are the random replacements for invalid values. */
  function MakeServer(c: nat, g: Counters, rp: int, rd: int): ServerNode {
    var passcode := g.passcode.GetOr(DEFAULT_PASSCODE);
    var discriminator := g.discriminator.GetOr(DEFAULT_DISCRIMINATOR);
    ServerNode(
      c,
      g.port.GetOr(DEFAULT_PORT),
      if passcode < 0 || passcode > MAX_PASSCODE then rp else passcode,
      if discriminator < 0 || discriminator > MAX_DISCRIMINATOR then rd else discriminator)
  }

  // ---------- calls in flight ----------

  /** Removing deletes `endpoint` and unregisters `device`; the two are one except in a purge, which finds
      the endpoint by the id of a registered device. */
  datatype Job =
    | Booting
    | Adding(plugin: string, device: Device)
    | Removing(plugin: string, device: Device, endpoint: Device)

  datatype Parent = OnServer(server: nat) | OnAggregator(hub: nat)

  /** Where a call is suspended, or how it ended. */
  datatype Phase =
    | Spawning                            // dependant registered, its create() is running
    | SpawnCreating(given: Counters)      // the dependant's createServerNode is running
    | SpawnAttaching(server: nat)         // the dependant adds the device to its server node
    | LockContext                         // accessory plugin: storage context
    | LockCreating(given: Counters)       // accessory plugin: createServerNode
    | LockAttaching(server: nat)          // accessory plugin: adding the device
    | HubContext                          // dynamic plugin or bridge: storage context
    | HubCreating(given: Counters)        // createServerNode
    | HubAggregating                      // createAggregatorNode
    | HubJoining                          // adding the aggregator to the server node
    | HubSettled                          // createDynamicPlugin has returned
    | Attaching(target: Option<Parent>)   // adding the device to its parent, if there is one
    | Constructing                        // counted, waiting for the endpoint's construction
    | Setting                             // devices_set sent
    | SettingLate                         // devices_set sent, the caller has timed out
    | Deleting                            // endpoint.delete() is running
    | Unsetting                           // devices_remove sent
    | UnsettingLate                       // devices_remove sent, the caller has timed out
    | Settled                             // the registry has handled the message
    | Refused                             // failed before the device was counted
    | Dropped                             // failed after it was counted, the registry never changed

  /** A call.  `grant`, `server`, `hub`, `epoch` and `placed` record what it was given:
      an entry of the grant ledger, a server node, an aggregator, a lock epoch, a parent. */
  datatype Call = Call(
    job: Job,
    phase: Phase,
    grant: Option<nat>,
    server: Option<nat>,
    hub: Option<nat>,
    epoch: Option<nat>,
    placed: Option<Parent>)

  /** A dependant MatterNode with its own counters. */
  datatype Dependant = Dependant(counters: Counters, server: Option<nat>)

  /** One hand-out of the node's counters. */
  datatype Grant = Grant(call: nat, counters: Counters)

  /** What all calls share. */
  datatype Shared = Shared(
    mode: BridgeMode,
    plugins: map<string, Plugin>,
    counters: Counters,
    serverNode: Option<nat>,
    aggregator: Option<nat>,
    dependants: map<string, nat>,
    children: map<nat, Dependant>,
    grants: seq<Grant>,
    servers: seq<ServerNode>,
    hubs: seq<nat>,
    parts: map<Device, Parent>,
    registry: seq<Device>)

  datatype State = State(node: Shared, calls: seq<Call>)

  function Init(mode: BridgeMode, plugins: map<string, Plugin>, counters: Counters, registry: seq<Device>): State {
    State(Shared(mode, plugins, counters, None, None, map[], map[], [], [], [], map[], registry), [])
  }

  /** One atomic step of a call: the shared state and the call afterwards. */
  datatype Outcome = Outcome(node: Shared, call: Call)

  // ---------- events ----------

  datatype Event =
    | Boot                                               // create() of a bridge node
    | Add(plugin: string, device: Device)
    | Remove(plugin: string, device: Device)
    | Purge(plugin: string, device: Device, endpoint: Option<Device>)  // a round for a listed device
    | Resume(call: nat, ok: bool, rp: int, rd: int)      // the awaited promise resolves or rejects
    | Deliver(call: nat)                                 // the registry handles the call's message
    | Timeout(call: nat)                                 // the call's fetch times out
    | Unlock(plugin: string)                             // plugin shutdown clears the lock
    | Uncount(plugin: string)                            // plugin shutdown clears the counter
    | Load(plugin: string)                               // plugin load zeroes the counter

  predicate Resumable(ph: Phase) {
    !ph.Setting? && !ph.SettingLate? && !ph.Unsetting? && !ph.UnsettingLate?
    && !ph.Settled? && !ph.Refused? && !ph.Dropped?
  }

  /** `x` is an endpoint with this id under the current aggregator, or under the current server node. */
  predicate UnderHub(n: Shared, x: Device, id: string) {
    n.aggregator.Some? && x in n.parts && n.parts[x] == OnAggregator(n.aggregator.value) && x.id == id
  }

  predicate UnderServer(n: Shared, x: Device, id: string) {
    n.serverNode.Some? && x in n.parts && n.parts[x] == OnServer(n.serverNode.value) && x.id == id
  }

  /** `found` is what looking up the id finds: under the aggregator first, then under the server node. */
  ghost predicate Finds(n: Shared, id: string, found: Option<Device>) {
    match found
    case Some(x) => UnderHub(n, x, id) || (UnderServer(n, x, id) && forall y :: !UnderHub(n, y, id))
    case None => forall y :: !UnderHub(n, y, id) && !UnderServer(n, y, id)
  }

  ghost predicate Enabled(s: State, e: Event) {
    match e
    case Boot => true
    case Add(p, d) => d.plugin == p
    case Remove(p, d) => d.plugin == p
    case Purge(p, d, found) => d.plugin == p && Finds(s.node, d.id, found)
    case Resume(c, ok, rp, rd) =>
      && c < |s.calls|
      && Resumable(s.calls[c].phase)
      && 0 <= rp <= MAX_PASSCODE
      && 0 <= rd <= MAX_DISCRIMINATOR
      && (s.calls[c].phase == Attaching(None) || s.calls[c].phase.HubSettled? ==> ok)
    case Deliver(c) =>
      && c < |s.calls|
      && (var ph := s.calls[c].phase; ph.Setting? || ph.SettingLate? || ph.Unsetting? || ph.UnsettingLate?)
    case Timeout(c) => c < |s.calls| && (s.calls[c].phase.Setting? || s.calls[c].phase.Unsetting?)
    case Unlock(p) => p in s.node.plugins
    case Uncount(p) => p in s.node.plugins
    case Load(p) => p in s.node.plugins
  }

  // ---------- pieces shared by the steps ----------

  function NewCall(job: Job, ph: Phase): Call {
    Call(job, ph, None, None, None, None, None)
  }

  /** `if (plugin.registeredDevices !== undefined) plugin.registeredDevices += k`. */
  function Tally(plugins: map<string, Plugin>, p: string, k: int): map<string, Plugin> {
    if p in plugins && plugins[p].registered.Some?
    then plugins[p := plugins[p].(registered := Some(plugins[p].registered.value + k))]
    else plugins
  }

  /** The parent an endpoint of the given mode goes to, as it is now. */
  function Target(n: Shared, d: Device): Option<Parent> {
    if d.mode.Matter? then
      (if n.serverNode.Some? then Some(OnServer(n.serverNode.value)) else None)
    else
      (if n.aggregator.Some? then Some(OnAggregator(n.aggregator.value)) else None)
  }

  /** The device has its parent (or none): count it and wait for its construction. */
  function Place(n: Shared, call: Call, parent: Option<Parent>): Outcome
    requires call.job.Adding?
  {
    Outcome(
      n.(parts := if parent.Some? then n.parts[call.job.device := parent.value] else n.parts,
         plugins := Tally(n.plugins, call.job.plugin, 1)),
      call.(phase := Constructing, placed := parent))
  }

  /** Take the plugin's lock and start creating its server node. */
  function Lock(n: Shared, p: string, d: Device, ph: Phase): Outcome
    requires p in n.plugins
  {
    var e := n.plugins[p].epochs;
    Outcome(
      n.(plugins := n.plugins[p := n.plugins[p].(locked := true, epochs := e + 1)]),
      NewCall(Adding(p, d), ph).(epoch := Some(e)))
  }

  /** Hand out the node's counters to call `c`. */
  function Give(n: Shared, c: nat, call: Call, ph: Phase): Outcome {
    Outcome(
      n.(counters := BumpAll(n.counters), grants := n.grants + [Grant(c, TakeAll(n.counters))]),
      call.(phase := ph, grant := Some(|n.grants|)))
  }

  /** This node's own server node has been created by call `c`. */
  function Create(n: Shared, call: Call, server: ServerNode, ph: Phase): Outcome {
    Outcome(
      n.(servers := n.servers + [server], serverNode := Some(|n.servers|)),
      call.(phase := ph, server := Some(|n.servers|)))
  }

  // ---------- entering a call ----------

  /** `addBridgedEndpoint` up to its first await; `c` is the new call. */
  function EnterAdd(n: Shared, c: nat, p: string, d: Device): Outcome {
    var job := Adding(p, d);
    if p !in n.plugins then Outcome(n, NewCall(job, Refused))
    else if d.mode.Server? then Spawn(n, c, job)
    else match n.mode
      case Bridge =>
        Outcome(n, NewCall(job, if Target(n, d).None? then Refused else Attaching(Target(n, d))))
      case ChildBridge => (
        match n.plugins[p].platform
        case Accessory => EnterAccessory(n, p, d)
        case Dynamic => EnterDynamic(n, p, d)
        case AnyPlatform => Place(n, NewCall(job, Constructing), None))
      case Unbridged => Place(n, NewCall(job, Constructing), None)
  }

  function EnterAccessory(n: Shared, p: string, d: Device): Outcome
    requires p in n.plugins
  {
    var job := Adding(p, d);
    if n.serverNode.Some? then Outcome(n, NewCall(job, Attaching(Some(OnServer(n.serverNode.value)))))
    else if !n.plugins[p].locked && d.complete then Lock(n, p, d, LockContext)
    else Outcome(n, NewCall(job, Attaching(None)))
  }

  function EnterDynamic(n: Shared, p: string, d: Device): Outcome
    requires p in n.plugins
  {
    var job := Adding(p, d);
    if n.serverNode.Some? then Outcome(n, NewCall(job, Attaching(Target(n, d))))
    else if !n.plugins[p].locked then Lock(n, p, d, HubContext)
    else Outcome(n, NewCall(job, HubSettled))
  }

  /** A device in server mode gets its own MatterNode, with counters handed out by this one. */
  function Spawn(n: Shared, c: nat, job: Job): Outcome
    requires job.Adding?
  {
    var given := Give(n, c, NewCall(job, Spawning), Spawning);
    given.(node := given.node.(
      children := n.children[c := Dependant(TakeAll(n.counters), None)],
      dependants := n.dependants[job.device.id := c]))
  }

  /** `removeBridgedEndpoint` up to its first await. */
  function EnterRemove(n: Shared, p: string, d: Device): Outcome {
    var job := Job.Removing(p, d, d);
    if p !in n.plugins then Outcome(n, NewCall(job, Refused))
    else
      var parent: Option<Option<nat>> :=
        if d.ownServer || n.mode.Unbridged? then None
        else if n.mode.Bridge? then Some(n.aggregator)
        else if n.plugins[p].platform.Accessory? then Some(n.serverNode)
        else if n.plugins[p].platform.Dynamic? then Some(n.aggregator)
        else None;
      match parent
      case None => Outcome(n.(plugins := Tally(n.plugins, p, -1)), NewCall(job, Unsetting))
      case Some(None) => Outcome(n, NewCall(job, Refused))
      case Some(Some(_)) => Outcome(n, NewCall(job, Deleting))
  }

  /** A round of `removeAllBridgedEndpoints`, from the lookup of the endpoint to the first await. */
  function EnterPurge(n: Shared, p: string, d: Device, found: Option<Device>): Outcome {
    Outcome(n, NewCall(Job.Removing(p, d, found.GetOr(d)), if p !in n.plugins || found.None? then Refused
        else Deleting))
  }

  // ---------- resuming a call ----------

  /** The promise awaited by `call` (number `c`) settles. */
  function Advance(n: Shared, c: nat, call: Call, ok: bool, rp: int, rd: int): Outcome {
    if !ok then Outcome(n, call.(phase := if call.phase.Constructing? then Dropped else Refused))
    else match call.job
      case Booting => AdvanceHub(n, c, call, rp, rd)
      case Adding(_, _) => AdvanceAdd(n, c, call, rp, rd)
      case Removing(p, _, x) =>
        // delete() is done: uncount the device and tell the registry
        Outcome(n.(parts := n.parts - {x}, plugins := Tally(n.plugins, p, -1)), call.(phase := Unsetting))
  }

  function AdvanceAdd(n: Shared, c: nat, call: Call, rp: int, rd: int): Outcome
    requires call.job.Adding?
  {
    match call.phase
    case Spawning => SpawnReady(n, c, call)
    case SpawnCreating(g) => SpawnCreated(n, c, call, MakeServer(c, g, rp, rd))
    case SpawnAttaching(k) => Place(n, call, Some(OnServer(k)))
    case LockContext => Give(n, c, call, LockCreating(TakeAll(n.counters)))
    case LockCreating(g) => Create(n, call, MakeServer(c, g, rp, rd), LockAttaching(|n.servers|))
    case LockAttaching(k) => Place(n, call, Some(OnServer(k)))
    case HubSettled => Outcome(n, call.(phase := Attaching(Target(n, call.job.device))))
    case Attaching(t) => Place(n, call, t)
    case Constructing => Outcome(n, call.(phase := Setting))
    case _ => AdvanceHub(n, c, call, rp, rd)
  }

  /** Creating a server node with its aggregator: `createDynamicPlugin` and `createMatterbridgeServerNode`. */
  function AdvanceHub(n: Shared, c: nat, call: Call, rp: int, rd: int): Outcome {
    match call.phase
    case HubContext => Give(n, c, call, HubCreating(TakeAll(n.counters)))
    case HubCreating(g) => Create(n, call, MakeServer(c, g, rp, rd), HubAggregating)
    case HubAggregating =>
      Outcome(n.(hubs := n.hubs + [c], aggregator := Some(|n.hubs|)),
              call.(phase := HubJoining, hub := Some(|n.hubs|)))
    case HubJoining => Outcome(n, call.(phase := if call.job.Booting? then Settled else HubSettled))
    case _ => Outcome(n, call)
  }

  /** The dependant's storage is ready: it takes from its own counters, unless the device is incomplete. */
  function SpawnReady(n: Shared, c: nat, call: Call): Outcome
    requires call.job.Adding?
  {
    if !call.job.device.complete || c !in n.children then Place(n, call, None)
    else
      var mine := n.children[c].counters;
      Outcome(n.(children := n.children[c := n.children[c].(counters := BumpAll(mine))]),
              call.(phase := SpawnCreating(TakeAll(mine))))
  }

  /** The dependant's server node has been created. */
  function SpawnCreated(n: Shared, c: nat, call: Call, server: ServerNode): Outcome {
    var k := |n.servers|;
    Outcome(
      n.(servers := n.servers + [server],
         children := if c in n.children then n.children[c := n.children[c].(server := Some(k))] else n.children),
      call.(phase := SpawnAttaching(k), server := Some(k)))
  }

  // ---------- the registry's side ----------

  /** The registry handles the message of `call`; it throws, and changes nothing, without a uniqueId. */
  function Handle(n: Shared, call: Call): Outcome {
    match call.job
    case Adding(_, d) =>
      if d.uniqueId == "" then Outcome(n, call.(phase := Dropped))
      else Outcome(n.(registry := Put(n.registry, d)), call.(phase := Settled))
    case Removing(_, d, _) =>
      if d.uniqueId == "" then Outcome(n, call.(phase := Dropped))
      else Outcome(n.(registry := Drop(n.registry, d.uniqueId)), call.(phase := Settled))
    case Booting => Outcome(n, call)
  }

  // ---------- one step ----------

  /** An event that starts a call: what the call does before its first await. */
  predicate Starts(e: Event) { e.Boot? || e.Add? || e.Remove? || e.Purge? }

  function Entry(n: Shared, c: nat, e: Event): Outcome
    requires Starts(e)
  {
    match e
    case Boot => Outcome(n, NewCall(Booting, HubContext))
    case Add(p, d) => EnterAdd(n, c, p, d)
    case Remove(p, d) => EnterRemove(n, p, d)
    case Purge(p, d, found) => EnterPurge(n, p, d, found)
  }

  /** An event that moves a call on. */
  predicate Moves(e: Event) { e.Resume? || e.Deliver? || e.Timeout? }

  function Move(n: Shared, call: Call, e: Event): Outcome
    requires Moves(e)
  {
    match e
    case Resume(c, ok, rp, rd) => Advance(n, c, call, ok, rp, rd)
    case Deliver(_) => Handle(n, call)
    case Timeout(_) => Outcome(n, call.(phase := if call.phase.Setting? then SettingLate else UnsettingLate))
  }

  /** Plugin shutdown and load. */
  function Manage(n: Shared, e: Event): Shared
    requires !Starts(e) && !Moves(e) && e.plugin in n.plugins
  {
    var q := n.plugins[e.plugin];
    n.(plugins := n.plugins[e.plugin :=
      match e
      case Unlock(_) => q.(locked := false)
      case Uncount(_) => q.(registered := None)
      case Load(_) => q.(registered := Some(0))])
  }

  ghost function Step(s: State, e: Event): State
    requires Enabled(s, e)
  {
    if Starts(e) then
      var out := Entry(s.node, |s.calls|, e);
      State(out.node, s.calls + [out.call])
    else if Moves(e) then
      var out := Move(s.node, s.calls[e.call], e);
      State(out.node, s.calls[e.call := out.call])
    else State(Manage(s.node, e), s.calls)
  }

  // ---------- runs ----------

  /** `es` is a run from `s`: every event is enabled when its turn comes. */
  ghost predicate IsRun(s: State, es: seq<Event>)
    decreases |es|
  {
    es == [] || (Enabled(s, es[0]) && IsRun(Step(s, es[0]), es[1..]))
  }

  ghost function Exec(s: State, es: seq<Event>): State
    decreases |es|
  {
    if es == [] then s
    else if Enabled(s, es[0]) then Exec(Step(s, es[0]), es[1..])
    else s
  }
}
