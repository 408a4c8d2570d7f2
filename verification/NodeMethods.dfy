/**
 The methods of MatterNode (packages/core/src/matterNode.ts) that create server nodes and add and remove endpoints,
 as methods that change a node in place.  Each method runs from one await to the next, and is proved to take
 exactly the step of NodeProtocol that goes with its event; every result about runs of that protocol is a result
 about these methods, called in any order.
 */
module NodeMethods {
  import opened Optional
  import opened DeviceRegistry
  import opened NodeProtocol

  class EndpointNode {
    const mode: BridgeMode
    var plugins: map<string, Plugin>
    var port: Option<int>
    var passcode: Option<int>
    var discriminator: Option<int>
    var serverNode: Option<nat>
    var aggregator: Option<nat>
    var dependants: map<string, nat>
    var children: map<nat, Dependant>
    var grants: seq<Grant>
    var servers: seq<ServerNode>
    var hubs: seq<nat>
    var parts: map<Device, Parent>
    var registry: seq<Device>
    var calls: seq<Call>

    ghost function Node(): Shared
      reads this
    {
      Shared(mode, plugins, Counters(port, passcode, discriminator), serverNode, aggregator,
             dependants, children, grants, servers, hubs, parts, registry)
    }

    ghost function View(): State
      reads this
    {
      State(Node(), calls)
    }

    constructor (mode: BridgeMode, plugins: map<string, Plugin>, counters: Counters, registry: seq<Device>)
      ensures View() == Init(mode, plugins, counters, registry)
    {
      this.mode, this.plugins, this.registry := mode, plugins, registry;
      port, passcode, discriminator := counters.port, counters.passcode, counters.discriminator;
      serverNode, aggregator, dependants, children := None, None, map[], map[];
      grants, servers, hubs, parts, calls := [], [], [], map[], [];
    }

    // ---------- counters and server nodes ----------

    /** The three `this.x ? this.x++ : undefined`. */
    method TakeCounters(c: nat) returns (given: Counters)
      modifies this`port, this`passcode, this`discriminator, this`grants
      ensures given == old(TakeAll(Node().counters))
      ensures Node() == old(Node().(counters := BumpAll(Node().counters),
                                    grants := Node().grants + [Grant(c, TakeAll(Node().counters))]))
    {
      given := Counters(None, None, None);
      if port.Some? && port.value != 0 {
        given := given.(port := port);
        port := Some(port.value + 1);
      }
      if passcode.Some? && passcode.value != 0 {
        given := given.(passcode := passcode);
        passcode := Some(passcode.value + 1);
      }
      if discriminator.Some? && discriminator.value != 0 {
        given := given.(discriminator := discriminator);
        discriminator := Some(discriminator.value + 1);
      }
      grants := grants + [Grant(c, given)];
    }

    /** `createServerNode`: defaults, then the replacement of invalid values. */
    method CreateServerNode(c: nat, given: Counters, rp: int, rd: int) returns (k: nat)
      modifies this`servers
      ensures k == |old(servers)| && servers == old(servers) + [MakeServer(c, given, rp, rd)]
    {
      var portArg := if given.port.Some? then given.port.value else DEFAULT_PORT;
      var code := if given.passcode.Some? then given.passcode.value else DEFAULT_PASSCODE;
      var disc := if given.discriminator.Some? then given.discriminator.value else DEFAULT_DISCRIMINATOR;
      if code < 0 || code > MAX_PASSCODE { code := rp; }
      if disc < 0 || disc > MAX_DISCRIMINATOR { disc := rd; }
      k := |servers|;
      servers := servers + [ServerNode(c, portArg, code, disc)];
    }

    method Count(p: string, k: int)
      modifies this`plugins
      ensures plugins == Tally(old(plugins), p, k)
    {
      if p in plugins && plugins[p].registered.Some? {
        var plugin := plugins[p];
        plugins := plugins[p := plugin.(registered := Some(plugin.registered.value + k))];
      }
    }

    /** The test-and-set of `plugin.locked`. */
    method TryLock(p: string) returns (epoch: Option<nat>)
      requires p in plugins
      modifies this`plugins
      ensures epoch == if old(plugins[p].locked) then None else Some(old(plugins[p].epochs))
      ensures plugins == if epoch.None? then old(plugins)
                         else old(plugins)[p := old(plugins[p]).(locked := true, epochs := epoch.value + 1)]
    {
      var plugin := plugins[p];
      if plugin.locked { return None; }
      plugins := plugins[p := plugin.(locked := true, epochs := plugin.epochs + 1)];
      return Some(plugin.epochs);
    }

    /** The device is under its parent, if it has one: count it. */
    method PlaceDevice(call: Call, parent: Option<Parent>) returns (r: Call)
      requires call.job.Adding?
      modifies this`parts, this`plugins
      ensures Outcome(Node(), r) == Place(old(Node()), call, parent)
    {
      if parent.Some? { parts := parts[call.job.device := parent.value]; }
      Count(call.job.plugin, 1);
      r := call.(phase := Constructing, placed := parent);
    }

    // ---------- addBridgedEndpoint ----------

    method AddBridgedEndpoint(p: string, d: Device)
      requires d.plugin == p
      modifies this
      ensures View() == old(Step(View(), Add(p, d)))
    {
      var call := NewCall(Adding(p, d), Refused);
      if p in plugins {
        if d.mode.Server? {
          call := SpawnNode(p, d);
        } else if mode.Bridge? {
          call := AddToBridge(p, d);
        } else if mode.ChildBridge? && plugins[p].platform.Accessory? {
          call := AddToAccessory(p, d);
        } else if mode.ChildBridge? && plugins[p].platform.Dynamic? {
          call := AddToDynamic(p, d);
        } else {
          call := PlaceDevice(call, None);
        }
      }
      calls := calls + [call];
    }

    method SpawnNode(p: string, d: Device) returns (r: Call)
      modifies this`port, this`passcode, this`discriminator, this`grants, this`children, this`dependants
      ensures Outcome(Node(), r) == Spawn(old(Node()), |calls|, Adding(p, d))
    {
      var c := |calls|;
      r := NewCall(Adding(p, d), Spawning).(grant := Some(|grants|));
      var given := TakeCounters(c);
      children := children[c := Dependant(given, None)];
      dependants := dependants[d.id := c];
    }

    method AddToBridge(p: string, d: Device) returns (r: Call)
      requires mode.Bridge? && p in plugins && !d.mode.Server?
      ensures Outcome(Node(), r) == EnterAdd(Node(), |calls|, p, d)
    {
      r := NewCall(Adding(p, d), Refused);
      if d.mode.Matter? {
        if serverNode.Some? { r := r.(phase := Attaching(Some(OnServer(serverNode.value)))); }
      } else {
        if aggregator.Some? { r := r.(phase := Attaching(Some(OnAggregator(aggregator.value)))); }
      }
    }

    method AddToAccessory(p: string, d: Device) returns (r: Call)
      requires p in plugins
      modifies this`plugins
      ensures Outcome(Node(), r) == EnterAccessory(old(Node()), p, d)
    {
      r := NewCall(Adding(p, d), Attaching(None));
      if serverNode.Some? {
        r := r.(phase := Attaching(Some(OnServer(serverNode.value))));
      } else if d.complete {
        var epoch := TryLock(p);
        if epoch.Some? { r := r.(phase := LockContext, epoch := epoch); }
      }
    }

    method AddToDynamic(p: string, d: Device) returns (r: Call)
      requires p in plugins
      modifies this`plugins
      ensures Outcome(Node(), r) == EnterDynamic(old(Node()), p, d)
    {
      r := NewCall(Adding(p, d), HubSettled);
      if serverNode.None? {
        var epoch := TryLock(p);
        if epoch.Some? { r := r.(phase := HubContext, epoch := epoch); }
      } else if d.mode.Matter? {
        r := r.(phase := Attaching(Some(OnServer(serverNode.value))));
      } else {
        r := r.(phase := Attaching(if aggregator.Some? then Some(OnAggregator(aggregator.value)) else None));
      }
    }

    // ---------- removeBridgedEndpoint and createMatterbridgeServerNode ----------

    method RemoveBridgedEndpoint(p: string, d: Device)
      requires d.plugin == p
      modifies this`plugins, this`calls
      ensures View() == old(Step(View(), Remove(p, d)))
    {
      var job := Job.Removing(p, d, d);
      var phase := Unsetting;
      if p !in plugins {
        phase := Refused;
      } else if !d.ownServer {
        if mode.Bridge? {
          phase := if aggregator.None? then Refused else Deleting;
        } else if mode.ChildBridge? {
          if plugins[p].platform.Accessory? {
            phase := if serverNode.None? then Refused else Deleting;
          } else if plugins[p].platform.Dynamic? {
            phase := if aggregator.None? then Refused else Deleting;
          }
        }
      }
      if phase.Unsetting? { Count(p, -1); }
      calls := calls + [NewCall(job, phase)];
    }

    /** A round of `removeAllBridgedEndpoints` for a listed device, after its endpoint has been looked up. */
    method PurgeRound(p: string, d: Device, found: Option<Device>)
      requires d.plugin == p && Finds(Node(), d.id, found)
      modifies this`calls
      ensures View() == old(Step(View(), Purge(p, d, found)))
    {
      var phase := Deleting;
      if p !in plugins || found.None? { phase := Refused; }
      calls := calls + [NewCall(Job.Removing(p, d, found.GetOr(d)), phase)];
    }

    method CreateMatterbridgeServerNode()
      modifies this`calls
      ensures View() == old(Step(View(), Boot))
    {
      calls := calls + [NewCall(Booting, HubContext)];
    }

    // ---------- after an await ----------

    /** The promise a call waits for resolves (`ok`) or rejects. */
    method Continue(c: nat, ok: bool, rp: int, rd: int)
      requires Enabled(View(), Resume(c, ok, rp, rd))
      modifies this
      ensures View() == old(Step(View(), Resume(c, ok, rp, rd)))
    {
      var call := calls[c];
      if !ok {
        call := call.(phase := if call.phase.Constructing? then Dropped else Refused);
      } else if call.job.Removing? {
        parts := parts - {call.job.endpoint};
        Count(call.job.plugin, -1);
        call := call.(phase := Unsetting);
      } else if call.job.Adding? {
        call := ContinueAdd(c, call, rp, rd);
      } else {
        call := ContinueHub(c, call, rp, rd);
      }
      calls := calls[c := call];
    }

    method ContinueAdd(c: nat, call: Call, rp: int, rd: int) returns (r: Call)
      requires call.job.Adding?
      modifies this
      ensures Outcome(Node(), r) == AdvanceAdd(old(Node()), c, call, rp, rd) && calls == old(calls)
    {
      match call.phase
      case Spawning | SpawnCreating(_) =>
        r := ContinueSpawn(c, call, rp, rd);
      case LockContext =>
        r := call.(grant := Some(|grants|));
        var given := TakeCounters(c);
        r := r.(phase := LockCreating(given));
      case LockCreating(given) =>
        var k := CreateServerNode(c, given, rp, rd);
        serverNode := Some(k);
        r := call.(phase := LockAttaching(k), server := Some(k));
      case SpawnAttaching(k) =>
        r := PlaceDevice(call, Some(OnServer(k)));
      case LockAttaching(k) =>
        r := PlaceDevice(call, Some(OnServer(k)));
      case HubSettled =>
        var target := if call.job.device.mode.Matter?
                      then (if serverNode.Some? then Some(OnServer(serverNode.value)) else None)
                      else (if aggregator.Some? then Some(OnAggregator(aggregator.value)) else None);
        r := call.(phase := Attaching(target));
      case Attaching(target) =>
        r := PlaceDevice(call, target);
      case Constructing =>
        r := call.(phase := Setting);
      case _ =>
        r := ContinueHub(c, call, rp, rd);
    }

    /** `create` of a dependant node: it takes from its own counters, then creates its own server node. */
    method ContinueSpawn(c: nat, call: Call, rp: int, rd: int) returns (r: Call)
      requires call.job.Adding? && (call.phase.Spawning? || call.phase.SpawnCreating?)
      modifies this
      ensures Outcome(Node(), r) == AdvanceAdd(old(Node()), c, call, rp, rd) && calls == old(calls)
    {
      if call.phase.Spawning? {
        if call.job.device.complete && c in children {
          var child := children[c];
          children := children[c := child.(counters := BumpAll(child.counters))];
          r := call.(phase := SpawnCreating(TakeAll(child.counters)));
        } else {
          r := PlaceDevice(call, None);
        }
      } else {
        var k := CreateServerNode(c, call.phase.given, rp, rd);
        if c in children { children := children[c := children[c].(server := Some(k))]; }
        r := call.(phase := SpawnAttaching(k), server := Some(k));
      }
    }

    /** `createDynamicPlugin` and `createMatterbridgeServerNode`. */
    method ContinueHub(c: nat, call: Call, rp: int, rd: int) returns (r: Call)
      modifies this
      ensures Outcome(Node(), r) == AdvanceHub(old(Node()), c, call, rp, rd) && calls == old(calls)
    {
      r := call;
      match call.phase
      case HubContext =>
        r := r.(grant := Some(|grants|));
        var given := TakeCounters(c);
        r := r.(phase := HubCreating(given));
      case HubCreating(given) =>
        var k := CreateServerNode(c, given, rp, rd);
        serverNode := Some(k);
        r := r.(phase := HubAggregating, server := Some(k));
      case HubAggregating =>
        aggregator := Some(|hubs|);
        r := r.(phase := HubJoining, hub := aggregator);
        hubs := hubs + [c];
      case HubJoining =>
        r := r.(phase := if call.job.Booting? then Settled else HubSettled);
      case _ =>
    }
  }
}
