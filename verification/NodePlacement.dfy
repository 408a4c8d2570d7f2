/**
 Which parent a device ends up with, and which devices are counted without one, over every
 interleaving (packages/core/src/matterNode.ts).
 */
module NodePlacement {
  import opened Optional
  import opened DeviceRegistry
  import opened NodeProtocol
  import opened NodeAccounting
  import opened NodePorts
  import opened NodeLocks

  // ---------- the right parent ----------

  /** The device of this call has been counted. */
  predicate CountedCall(call: Call) {
    call.job.Adding?
    && (call.phase.Constructing? || call.phase.Setting? || call.phase.SettingLate? || call.phase.Settled? ||
        call.phase.Dropped?)
  }

  /** The parent a call is heading for or has got: `None` before it has picked one,
      `Some(None)` when it has found none. */
  function Aim(call: Call): Option<Option<Parent>> {
    if call.phase.Attaching? then Some(call.phase.target)
    else if CountedCall(call) then Some(call.placed)
    else None
  }

  predicate Exists(n: Shared, parent: Parent) {
    match parent
    case OnServer(k) => k < |n.servers|
    case OnAggregator(k) => k < |n.hubs|
  }

  /** Devices in server mode belong on the server node of their own dependant; otherwise, under an
      aggregator, matter devices belong on the server node and bridged ones on the aggregator. */
  predicate RightKind(n: Shared, c: nat, call: Call, parent: Parent)
    requires call.job.Adding?
  {
    && Exists(n, parent)
    && (call.job.device.mode.Server? ==> parent.OnServer? && n.servers[parent.server].call == c)
    && (call.job.device.mode.Matter? ==> parent.OnServer?)
    && (call.job.device.mode.Bridged? && parent.OnServer? ==> AccessoryChild(n, call.job.plugin))
  }

  predicate AccessoryChild(n: Shared, p: string) {
    n.mode.ChildBridge? && p in n.plugins && n.plugins[p].platform.Accessory?
  }

  predicate CallPlace(n: Shared, c: nat, call: Call) {
    call.job.Adding? ==>
      && (call.phase.SpawnAttaching? ==>
            call.job.device.mode.Server? && call.phase.server < |n.servers| && n.servers[call.phase.server].call == c)
      && (call.phase.Spawning? || call.phase.SpawnCreating? ==> call.job.device.mode.Server?)
      && (call.phase.LockContext? || call.phase.LockCreating? || call.phase.LockAttaching? ==>
            !call.job.device.mode.Server? && AccessoryChild(n, call.job.plugin))
      && (call.phase.LockAttaching? ==> call.phase.server < |n.servers|)
      && (call.phase.HubSettled? || call.phase.HubContext? || call.phase.HubCreating? ||
          call.phase.HubAggregating? || call.phase.HubJoining? ==>
            !call.job.device.mode.Server?)
      && (Aim(call).Some? && Aim(call).value.Some? ==> RightKind(n, c, call, Aim(call).value.value))
  }

  /** The node's own pointers are valid. */
  predicate PointersValid(n: Shared) {
    && (n.serverNode.Some? ==> n.serverNode.value < |n.servers|)
    && (n.aggregator.Some? ==> n.aggregator.value < |n.hubs|)
  }

  ghost predicate PlaceInv(s: State) {
    && PointersValid(s.node)
    && forall c :: 0 <= c < |s.calls| ==> CallPlace(s.node, c, s.calls[c])
  }

  /** Lists of servers and aggregators only grow; platforms and mode are fixed. */
  predicate Grows(n: Shared, m: Shared) {
    && n.servers <= m.servers && n.hubs <= m.hubs && n.mode == m.mode
    && n.plugins.Keys == m.plugins.Keys
    && forall p :: p in n.plugins ==> m.plugins[p].platform == n.plugins[p].platform
  }

  lemma OtherPlace(n: Shared, m: Shared, c: nat, call: Call)
    requires CallPlace(n, c, call) && Grows(n, m)
    ensures CallPlace(m, c, call)
  {}

  // Lists and pointers.

  lemma EntryPointers(n: Shared, c: nat, e: Event)
    requires Starts(e)
    ensures var m := Entry(n, c, e).node;
            m.mode == n.mode && m.servers == n.servers && m.serverNode == n.serverNode
            && m.aggregator == n.aggregator && m.hubs == n.hubs
  {
    EntryLight(n, c, e);
  }

  lemma HubPointers(n: Shared, c: nat, call: Call, rp: int, rd: int)
    requires PointersValid(n)
    ensures var m := AdvanceHub(n, c, call, rp, rd).node; m.mode == n.mode && PointersValid(m)
  {}

  /** A step that creates nothing leaves the lists and pointers alone. */
  lemma IdlePointers(n: Shared, c: nat, call: Call, rp: int, rd: int)
    requires call.job.Adding? && !call.phase.SpawnCreating? && !call.phase.LockCreating?
    requires !call.phase.HubContext? && !call.phase.HubCreating? && !call.phase.HubAggregating? &&
             !call.phase.HubJoining?
    ensures var m := AdvanceAdd(n, c, call, rp, rd).node;
            m.mode == n.mode && m.servers == n.servers && m.serverNode == n.serverNode
            && m.aggregator == n.aggregator && m.hubs == n.hubs
  {}

  lemma AddPointers(n: Shared, c: nat, call: Call, rp: int, rd: int)
    requires PointersValid(n) && call.job.Adding?
    ensures var m := AdvanceAdd(n, c, call, rp, rd).node; m.mode == n.mode && PointersValid(m)
  {
    if call.phase.SpawnCreating? || call.phase.LockCreating? {
    } else if call.phase.HubContext? || call.phase.HubCreating? || call.phase.HubAggregating? ||
        call.phase.HubJoining? {
      HubPointers(n, c, call, rp, rd);
    } else {
      IdlePointers(n, c, call, rp, rd);
    }
  }

  lemma MovePointers(n: Shared, call: Call, e: Event)
    requires Moves(e) && PointersValid(n)
    ensures Move(n, call, e).node.mode == n.mode && PointersValid(Move(n, call, e).node)
  {
    if e.Resume? && e.ok {
      match call.job
      case Booting => HubPointers(n, e.call, call, e.rp, e.rd);
      case Adding(_, _) => AddPointers(n, e.call, call, e.rp, e.rd);
      case Removing(_, _, _) =>
    }
  }

  lemma EntryGrows(s: State, e: Event)
    requires Starts(e) && LockInv(s) && PointersValid(s.node)
    ensures var m := Entry(s.node, |s.calls|, e).node; Grows(s.node, m) && PointersValid(m)
  {
    EntryPointers(s.node, |s.calls|, e);
    EntryLock(s, e);
  }

  lemma MoveGrows(n: Shared, call: Call, e: Event)
    requires Moves(e) && PointersValid(n) && CallLock(n, call) && CallLedger(n, e.call, call) && PhaseFits(call)
    requires e.Resume? ==> Resumable(call.phase) && 0 <= e.rp <= MAX_PASSCODE && 0 <= e.rd <= MAX_DISCRIMINATOR
    requires e.Deliver? ==> Posted(call)
    requires e.Timeout? ==> call.phase.Setting? || call.phase.Unsetting?
    ensures var m := Move(n, call, e).node; Grows(n, m) && PointersValid(m)
  {
    var out := Move(n, call, e);
    MovePointers(n, call, e);
    MoveHub(n, call, e);
    assert n.hubs <= out.node.hubs;
    MoveServers(n, call, e);
    MovePlatforms(n, call, e);
  }

  lemma MoveServers(n: Shared, call: Call, e: Event)
    requires Moves(e) && CallLedger(n, e.call, call) && PhaseFits(call)
    requires e.Resume? ==> 0 <= e.rp <= MAX_PASSCODE && 0 <= e.rd <= MAX_DISCRIMINATOR
    requires e.Deliver? ==> Posted(call)
    ensures n.servers <= Move(n, call, e).node.servers
  {
    MoveMine(n, call, e);
  }

  lemma MovePlatforms(n: Shared, call: Call, e: Event)
    requires Moves(e) && CallLock(n, call)
    requires e.Timeout? ==> call.phase.Setting? || call.phase.Unsetting?
    requires e.Deliver? ==> Posted(call)
    ensures SameLocks(n.plugins, Move(n, call, e).node.plugins)
  {
    MoveLock(n, call, e);
  }

  lemma TallyPlatforms(plugins: map<string, Plugin>, p: string, k: int, q: string)
    ensures q in Tally(plugins, p, k) <==> q in plugins
    ensures q in plugins ==> Tally(plugins, p, k)[q].platform == plugins[q].platform
  {}

  // Parents.

  lemma PlacePlace(n: Shared, c: nat, call: Call, parent: Option<Parent>)
    requires call.job.Adding? && (parent.Some? ==> RightKind(n, c, call, parent.value))
    ensures CallPlace(Place(n, call, parent).node, c, Place(n, call, parent).call)
  {
    TallyPlatforms(n.plugins, call.job.plugin, 1, call.job.plugin);
  }

  lemma EntryPlace(n: Shared, c: nat, e: Event)
    requires Starts(e) && PointersValid(n)
    ensures CallPlace(Entry(n, c, e).node, c, Entry(n, c, e).call)
  {
    if e.Add? && e.plugin in n.plugins && !e.device.mode.Server? {
      var job := Adding(e.plugin, e.device);
      if n.mode.ChildBridge? && n.plugins[e.plugin].platform.Accessory? {
        AccessoryPlace(n, c, e.plugin, e.device);
      } else if n.mode.ChildBridge? && n.plugins[e.plugin].platform.Dynamic? {
        DynamicPlace(n, c, e.plugin, e.device);
      } else if !n.mode.Bridge? {
        PlacePlace(n, c, NewCall(job, Constructing), None);
      }
    }
  }

  lemma AccessoryPlace(n: Shared, c: nat, p: string, d: Device)
    requires PointersValid(n) && AccessoryChild(n, p) && !d.mode.Server?
    ensures CallPlace(EnterAccessory(n, p, d).node, c, EnterAccessory(n, p, d).call)
  {}

  lemma DynamicPlace(n: Shared, c: nat, p: string, d: Device)
    requires PointersValid(n) && p in n.plugins && !d.mode.Server?
    ensures CallPlace(EnterDynamic(n, p, d).node, c, EnterDynamic(n, p, d).call)
  {}

  /** The steps that place the device. */
  lemma PlacingPlace(n: Shared, c: nat, call: Call, rp: int, rd: int)
    requires CallPlace(n, c, call) && call.job.Adding?
    requires call.phase.SpawnAttaching? || call.phase.LockAttaching? || call.phase.Attaching?
             || (call.phase.Spawning? && (!call.job.device.complete || c !in n.children))
    ensures CallPlace(AdvanceAdd(n, c, call, rp, rd).node, c, AdvanceAdd(n, c, call, rp, rd).call)
  {
    match call.phase
    case Spawning => PlacePlace(n, c, call, None);
    case SpawnAttaching(k) => PlacePlace(n, c, call, Some(OnServer(k)));
    case LockAttaching(k) => PlacePlace(n, c, call, Some(OnServer(k)));
    case Attaching(t) => PlacePlace(n, c, call, t);
  }

  /** The steps that create for it. */
  lemma CreatingPlace(n: Shared, c: nat, call: Call, rp: int, rd: int)
    requires CallPlace(n, c, call) && call.job.Adding?
    requires (call.phase.Spawning? && call.job.device.complete && c in n.children)
             || call.phase.SpawnCreating? || call.phase.LockContext? || call.phase.LockCreating?
    ensures CallPlace(AdvanceAdd(n, c, call, rp, rd).node, c, AdvanceAdd(n, c, call, rp, rd).call)
  {}

  lemma AddPlace(n: Shared, c: nat, call: Call, rp: int, rd: int)
    requires PointersValid(n) && CallPlace(n, c, call) && call.job.Adding? && Resumable(call.phase)
    ensures CallPlace(AdvanceAdd(n, c, call, rp, rd).node, c, AdvanceAdd(n, c, call, rp, rd).call)
  {
    match call.phase
    case HubSettled =>
    case Constructing =>
    case Spawning =>
      if call.job.device.complete && c in n.children {
        CreatingPlace(n, c, call, rp, rd);
      } else {
        PlacingPlace(n, c, call, rp, rd);
      }
    case SpawnAttaching(_) => PlacingPlace(n, c, call, rp, rd);
    case LockAttaching(_) => PlacingPlace(n, c, call, rp, rd);
    case Attaching(_) => PlacingPlace(n, c, call, rp, rd);
    case SpawnCreating(_) => CreatingPlace(n, c, call, rp, rd);
    case LockContext => CreatingPlace(n, c, call, rp, rd);
    case LockCreating(_) => CreatingPlace(n, c, call, rp, rd);
    case _ => HubPlace(n, c, call, rp, rd);
  }

  lemma HubPlace(n: Shared, c: nat, call: Call, rp: int, rd: int)
    requires CallPlace(n, c, call) && call.job.Adding?
    ensures CallPlace(AdvanceHub(n, c, call, rp, rd).node, c, AdvanceHub(n, c, call, rp, rd).call)
  {}

  lemma MovePlace(n: Shared, call: Call, e: Event)
    requires Moves(e) && PointersValid(n) && CallPlace(n, e.call, call) && PhaseFits(call)
    requires e.Resume? ==> Resumable(call.phase)
    requires e.Deliver? ==> Posted(call)
    requires e.Timeout? ==> call.phase.Setting? || call.phase.Unsetting?
    ensures CallPlace(Move(n, call, e).node, e.call, Move(n, call, e).call)
  {
    if e.Resume? && e.ok && call.job.Adding? { AddPlace(n, e.call, call, e.rp, e.rd); }
    if e.Resume? { AdvanceFits(n, e.call, call, e.ok, e.rp, e.rd); }
  }

  /** Everything proved so far about reachable states. */
  ghost predicate Reached(start: Counters, s: State) {
    WellFormed(s) && Ledger(start, s) && LockInv(s) && HubsHeld(s.node.hubs, s.calls)
  }

  lemma ReachedStep(start: Counters, s: State, e: Event)
    requires Reached(start, s) && Enabled(s, e)
    ensures Reached(start, Step(s, e))
  {
    WellFormedStep(s, e);
    LedgerStep(start, s, e);
    LockInvStep(s, e);
    HubsStep(s, e);
  }

  lemma PlaceInvStep(start: Counters, s: State, e: Event)
    requires Reached(start, s) && PlaceInv(s) && Enabled(s, e)
    ensures PlaceInv(Step(s, e))
  {
    if Starts(e) {
      EntryGrows(s, e);
      EntryPlace(s.node, |s.calls|, e);
    } else if Moves(e) {
      var call := s.calls[e.call];
      assert CallLock(s.node, call) && CallLedger(s.node, e.call, call) && PhaseFits(call) &&
             CallPlace(s.node, e.call, call);
      MoveGrows(s.node, call, e);
      MovePlace(s.node, call, e);
    }
    PlaceInvOthers(s, Step(s, e), if Starts(e) then |s.calls| else if Moves(e) then e.call else |s.calls|);
  }

  lemma PlaceInvOthers(s: State, t: State, c: nat)
    requires PlaceInv(s) && Grows(s.node, t.node) && PointersValid(t.node)
    requires |s.calls| <= |t.calls| <= |s.calls| + 1 && (|t.calls| == |s.calls| + 1 ==> c == |s.calls|)
    requires forall a :: 0 <= a < |s.calls| && a != c ==> t.calls[a] == s.calls[a]
    requires c < |t.calls| ==> CallPlace(t.node, c, t.calls[c])
    ensures PlaceInv(t)
  {
    forall a | 0 <= a < |t.calls| ensures CallPlace(t.node, a, t.calls[a]) {
      if a != c { OtherPlace(s.node, t.node, a, s.calls[a]); }
    }
  }

  lemma {:induction false} PlaceRun(start: Counters, s: State, es: seq<Event>)
    requires Reached(start, s) && PlaceInv(s) && IsRun(s, es)
    ensures Reached(start, Exec(s, es)) && PlaceInv(Exec(s, es))
    decreases |es|
  {
    if es != [] {
      ReachedStep(start, s, es[0]);
      PlaceInvStep(start, s, es[0]);
      PlaceRun(start, Step(s, es[0]), es[1..]);
    }
  }

  /** In every reachable state, a counted device that has a parent has one of the right kind. */
  lemma CountedDevicesSitRight(s: State, es: seq<Event>, c: nat)
    requires Untouched(s) && IsRun(s, es) && c < |Exec(s, es).calls|
    requires var call := Exec(s, es).calls[c]; CountedCall(call) && call.placed.Some?
    ensures var t := Exec(s, es); RightKind(t.node, c, t.calls[c], t.calls[c].placed.value)
  {
    PlaceRun(s.node.counters, s, es);
    var t := Exec(s, es);
    assert CallPlace(t.node, c, t.calls[c]);
  }
}
