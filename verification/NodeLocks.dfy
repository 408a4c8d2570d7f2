/**
 The plugin lock, the server node and aggregator created under it, and the parents devices end
 up with, over every interleaving (packages/core/src/matterNode.ts).
 */
module NodeLocks {
  import opened Optional
  import opened Sequences
  import opened DeviceRegistry
  import opened NodeProtocol
  import opened NodeAccounting
  import opened NodePorts

  /** Calls that create this node's own server node: the bridge at boot, or whoever took a plugin's lock. */
  predicate Creator(call: Call) {
    call.job.Booting? || call.epoch.Some?
  }

  predicate HoldsLock(call: Call, p: string, e: nat) {
    call.job.Adding? && call.job.plugin == p && call.epoch == Some(e)
  }

  predicate Unassigned(ph: Phase) {
    ph.LockContext? || ph.LockCreating? || ph.HubContext? || ph.HubCreating?
  }

  /** What a call has created, according to where it stands. */
  predicate Created(call: Call) {
    && (Unassigned(call.phase) ==> Creator(call) && call.server.None? && call.hub.None?)
    && (call.phase.LockAttaching? ==> Creator(call))
    && (call.phase.Spawning? || call.phase.SpawnCreating? ==> call.job.Adding? && call.epoch.None?)
    && (call.phase.HubAggregating? ==> Creator(call) && call.server.Some? && call.hub.None?)
    && (call.phase.HubJoining? ==> Creator(call) && call.server.Some? && call.hub.Some?)
    && (call.phase.HubSettled? && call.epoch.Some? ==> call.server.Some? && call.hub.Some?)
  }

  predicate CallLock(n: Shared, call: Call) {
    && Created(call)
    && (call.epoch.Some? ==>
          call.job.Adding? && call.job.plugin in n.plugins && call.epoch.value < n.plugins[call.job.plugin].epochs)
    && (Creator(call) && call.server.Some? ==> n.serverNode.Some?)
    && (call.hub.Some? ==> n.aggregator.Some? && Creator(call))
  }

  ghost predicate LocksHeld(plugins: map<string, Plugin>, calls: seq<Call>) {
    forall p :: p in plugins && plugins[p].locked ==>
      plugins[p].epochs > 0 && exists h :: 0 <= h < |calls| && HoldsLock(calls[h], p, plugins[p].epochs - 1)
  }

  /** An add that skipped the creation did so because of some holder of its plugin's lock. */
  ghost predicate Excused(calls: seq<Call>, call: Call) {
    call.phase.HubSettled? && call.epoch.None? && call.job.Adding? ==>
      exists h :: 0 <= h < |calls| && calls[h].epoch.Some? && calls[h].job.Adding? &&
          calls[h].job.plugin == call.job.plugin
  }

  predicate SameEpoch(a: Call, b: Call) {
    a.epoch.Some? && a.epoch == b.epoch && a.job.Adding? && b.job.Adding? && a.job.plugin == b.job.plugin
  }

  ghost predicate LockInv(s: State) {
    && (forall c :: 0 <= c < |s.calls| ==> CallLock(s.node, s.calls[c]))
    && (forall c :: 0 <= c < |s.calls| ==> Excused(s.calls, s.calls[c]))
    && (forall a, b :: 0 <= a < b < |s.calls| ==> !SameEpoch(s.calls[a], s.calls[b]))
    && LocksHeld(s.node.plugins, s.calls)
    && (s.node.serverNode.Some? ==> exists h :: 0 <= h < |s.calls| && Creator(s.calls[h]) && s.calls[h].server.Some?)
  }

  /** Locks and epochs are only touched by taking a lock. */
  predicate SameLocks(a: map<string, Plugin>, b: map<string, Plugin>) {
    && a.Keys == b.Keys
    && forall p :: p in a ==> b[p].locked == a[p].locked && b[p].epochs == a[p].epochs && b[p].platform == a[p].platform
  }

  lemma TallyLocks(plugins: map<string, Plugin>, p: string, k: int)
    ensures SameLocks(plugins, Tally(plugins, p, k))
  {}

  /** What a step of a running call does to locks, server node and aggregator. */
  predicate LockStep(n: Shared, call: Call, out: Outcome) {
    && CallLock(out.node, out.call)
    && out.call.epoch == call.epoch && out.call.job == call.job
    && SameLocks(n.plugins, out.node.plugins)
    && (n.serverNode.Some? ==> out.node.serverNode.Some?)
    && (n.aggregator.Some? ==> out.node.aggregator.Some?)
    && (n.serverNode.None? && out.node.serverNode.Some? ==> Creator(out.call) && out.call.server.Some?)
    && (call.server.Some? ==> out.call.server.Some?)
    && (out.call.phase.HubSettled? && out.call.epoch.None? ==> call.phase.HubSettled?)
  }

  lemma PlaceLock(n: Shared, call: Call, parent: Option<Parent>)
    requires CallLock(n, call) && call.job.Adding?
    ensures LockStep(n, call, Place(n, call, parent))
  {
    TallyLocks(n.plugins, call.job.plugin, 1);
  }

  lemma HubLock(n: Shared, c: nat, call: Call, rp: int, rd: int)
    requires CallLock(n, call)
    ensures LockStep(n, call, AdvanceHub(n, c, call, rp, rd))
  {
    HubKeepsLock(n, c, call, rp, rd);
    match call.phase
    case HubContext =>
    case HubCreating(_) =>
    case HubAggregating =>
    case HubJoining =>
    case _ =>
  }

  lemma HubKeepsLock(n: Shared, c: nat, call: Call, rp: int, rd: int)
    ensures var out := AdvanceHub(n, c, call, rp, rd);
            && out.call.epoch == call.epoch && out.call.job == call.job
            && out.node.plugins == n.plugins && SameLocks(n.plugins, out.node.plugins)
  {}

  lemma AddLock(n: Shared, c: nat, call: Call, rp: int, rd: int)
    requires CallLock(n, call) && call.job.Adding?
    ensures LockStep(n, call, AdvanceAdd(n, c, call, rp, rd))
  {
    match call.phase
    case Spawning => if !call.job.device.complete || c !in n.children { PlaceLock(n, call, None); }
    case SpawnAttaching(k) => PlaceLock(n, call, Some(OnServer(k)));
    case LockAttaching(k) => PlaceLock(n, call, Some(OnServer(k)));
    case Attaching(t) => PlaceLock(n, call, t);
    case SpawnCreating(_) =>
    case LockContext =>
    case LockCreating(_) =>
    case HubSettled =>
    case Constructing =>
    case _ => HubLock(n, c, call, rp, rd);
  }

  /** Phases in which a call creates nothing any more. */
  predicate Past(ph: Phase) {
    ph.Dropped? || ph.Refused? || ph.Settled? || ph.SettingLate? || ph.Unsetting? || ph.UnsettingLate?
  }

  lemma PastLock(n: Shared, call: Call, out: Outcome)
    requires CallLock(n, call) && SameLocks(n.plugins, out.node.plugins)
    requires out.node.serverNode == n.serverNode && out.node.aggregator == n.aggregator
    requires Past(out.call.phase) && out.call == call.(phase := out.call.phase)
    ensures LockStep(n, call, out)
  {}

  lemma MovePast(n: Shared, call: Call, e: Event)
    requires Moves(e) && (e.Resume? && e.ok ==> call.job.Removing?)
    requires e.Deliver? ==> !call.job.Booting?
    ensures var out := Move(n, call, e);
            && Past(out.call.phase) && out.call == call.(phase := out.call.phase)
            && out.node.serverNode == n.serverNode && out.node.aggregator == n.aggregator
            && (out.node.plugins == n.plugins || (call.job.Removing? &&
                out.node.plugins == Tally(n.plugins, call.job.plugin, -1)))
  {}

  lemma MoveLock(n: Shared, call: Call, e: Event)
    requires Moves(e) && CallLock(n, call)
    requires e.Timeout? ==> call.phase.Setting? || call.phase.Unsetting?
    requires e.Deliver? ==> Posted(call)
    ensures LockStep(n, call, Move(n, call, e))
  {
    if e.Resume? && e.ok && call.job.Booting? {
      HubLock(n, e.call, call, e.rp, e.rd);
    } else if e.Resume? && e.ok && call.job.Adding? {
      AddLock(n, e.call, call, e.rp, e.rd);
    } else if !(e.Deliver? && call.job.Booting?) {
      MovePast(n, call, e);
      if call.job.Removing? { TallyLocks(n.plugins, call.job.plugin, -1); }
      PastLock(n, call, Move(n, call, e));
    }
  }

  lemma OtherLock(n: Shared, m: Shared, call: Call)
    requires CallLock(n, call)
    requires n.serverNode.Some? ==> m.serverNode.Some?
    requires n.aggregator.Some? ==> m.aggregator.Some?
    requires forall p :: p in n.plugins ==> p in m.plugins && n.plugins[p].epochs <= m.plugins[p].epochs
    ensures CallLock(m, call)
  {}

  lemma LockInvMove(s: State, e: Event)
    requires LockInv(s) && Enabled(s, e) && Moves(e)
    ensures LockInv(Step(s, e))
  {
    var call := s.calls[e.call];
    MoveLock(s.node, call, e);
    LockInvAfter(s, e.call, Move(s.node, call, e));
  }

  lemma LockInvAfter(s: State, c: nat, out: Outcome)
    requires LockInv(s) && c < |s.calls| && LockStep(s.node, s.calls[c], out)
    ensures LockInv(State(out.node, s.calls[c := out.call]))
  {
    var calls' := s.calls[c := out.call];
    forall a | 0 <= a < |calls'| ensures CallLock(out.node, calls'[a]) && Excused(calls', calls'[a]) {
      if a != c { OtherLock(s.node, out.node, s.calls[a]); }
      ExcusedKept(s.calls, calls', s.calls[a], calls'[a]);
    }
    forall a, b | 0 <= a < b < |calls'| ensures !SameEpoch(calls'[a], calls'[b]) {
      assert !SameEpoch(s.calls[a], s.calls[b]);
    }
    LocksKept(s.node.plugins, s.calls, out.node.plugins, calls');
    if out.node.serverNode.Some? {
      if s.node.serverNode.Some? {
        var h :| 0 <= h < |s.calls| && Creator(s.calls[h]) && s.calls[h].server.Some?;
        assert Creator(calls'[h]) && calls'[h].server.Some?;
      } else {
        assert Creator(calls'[c]) && calls'[c].server.Some?;
      }
    }
  }

  /** Calls keep their job and epoch. */
  ghost predicate KeepsCalls(calls: seq<Call>, calls': seq<Call>) {
    && |calls| <= |calls'|
    && forall a :: 0 <= a < |calls| ==> calls'[a].job == calls[a].job && calls'[a].epoch == calls[a].epoch
  }

  lemma ExcusedKept(calls: seq<Call>, calls': seq<Call>, call: Call, call': Call)
    requires KeepsCalls(calls, calls') && Excused(calls, call)
    requires call'.job == call.job && call'.epoch == call.epoch
    requires call'.phase.HubSettled? && call'.epoch.None? ==> call.phase.HubSettled?
    ensures Excused(calls', call')
  {
    if call'.phase.HubSettled? && call'.epoch.None? && call'.job.Adding? {
      var h :| 0 <= h < |calls| && calls[h].epoch.Some? && calls[h].job.Adding? &&
               calls[h].job.plugin == call.job.plugin;
      assert calls'[h].epoch.Some? && calls'[h].job.Adding? && calls'[h].job.plugin == call.job.plugin;
    }
  }

  lemma LocksKept(plugins: map<string, Plugin>, calls: seq<Call>, plugins': map<string, Plugin>, calls': seq<Call>)
    requires LocksHeld(plugins, calls) && KeepsCalls(calls, calls')
    requires forall p :: p in plugins' && plugins'[p].locked ==>
               p in plugins && plugins[p].locked && plugins'[p].epochs == plugins[p].epochs
    ensures LocksHeld(plugins', calls')
  {
    forall p | p in plugins' && plugins'[p].locked
      ensures plugins'[p].epochs > 0 && exists h :: 0 <= h < |calls'| && HoldsLock(calls'[h], p, plugins'[p].epochs - 1)
    {
      var h :| 0 <= h < |calls| && HoldsLock(calls[h], p, plugins[p].epochs - 1);
      assert HoldsLock(calls'[h], p, plugins'[p].epochs - 1);
    }
  }

  // ---------- entering a call ----------

  /** A new call either takes the lock of its plugin, for a new epoch, or leaves all locks alone. */
  ghost predicate LockEntry(n: Shared, calls: seq<Call>, out: Outcome) {
    && CallLock(out.node, out.call)
    && Excused(calls, out.call)
    && out.node.serverNode == n.serverNode && out.node.aggregator == n.aggregator
    && match out.call.epoch
       case None => SameLocks(n.plugins, out.node.plugins)
       case Some(e) =>
         && out.call.job.Adding?
         && out.call.job.plugin in n.plugins
         && var p := out.call.job.plugin;
         && !n.plugins[p].locked && n.plugins[p].epochs == e
         && out.node.plugins == n.plugins[p := n.plugins[p].(locked := true, epochs := e + 1)]
  }

  lemma EntryLock(s: State, e: Event)
    requires Starts(e) && LocksHeld(s.node.plugins, s.calls)
    ensures LockEntry(s.node, s.calls, Entry(s.node, |s.calls|, e))
  {
    match e
    case Boot =>
    case Remove(p, d) => TallyLocks(s.node.plugins, p, -1);
    case Add(p, d) => AddEntryLock(s.node, s.calls, p, d);
    case Purge(_, _, _) =>
  }

  lemma AddEntryLock(n: Shared, calls: seq<Call>, p: string, d: Device)
    requires LocksHeld(n.plugins, calls)
    ensures LockEntry(n, calls, EnterAdd(n, |calls|, p, d))
  {
    if p in n.plugins && !d.mode.Server? {
      TallyLocks(n.plugins, p, 1);
      if n.mode.ChildBridge? && n.plugins[p].platform.Dynamic? {
        DynamicEntryLock(n, calls, p, d);
      } else if n.mode.ChildBridge? && n.plugins[p].platform.Accessory? {
        AccessoryEntryLock(n, calls, p, d);
      }
    }
  }

  lemma AccessoryEntryLock(n: Shared, calls: seq<Call>, p: string, d: Device)
    requires p in n.plugins
    ensures LockEntry(n, calls, EnterAccessory(n, p, d))
  {}

  lemma DynamicEntryLock(n: Shared, calls: seq<Call>, p: string, d: Device)
    requires LocksHeld(n.plugins, calls) && p in n.plugins
    ensures LockEntry(n, calls, EnterDynamic(n, p, d))
  {
    if n.serverNode.None? && n.plugins[p].locked {
      var h :| 0 <= h < |calls| && HoldsLock(calls[h], p, n.plugins[p].epochs - 1);
      assert calls[h].epoch.Some? && calls[h].job.Adding? && calls[h].job.plugin == p;
    }
  }

  lemma LockInvStart(s: State, e: Event)
    requires LockInv(s) && Enabled(s, e) && Starts(e)
    ensures LockInv(Step(s, e))
  {
    var out := Entry(s.node, |s.calls|, e);
    EntryLock(s, e);
    LockInvEnter(s, out);
  }

  lemma LockInvEnter(s: State, out: Outcome)
    requires LockInv(s) && LockEntry(s.node, s.calls, out)
    ensures LockInv(State(out.node, s.calls + [out.call]))
  {
    var n := |s.calls|;
    var calls' := s.calls + [out.call];
    forall a | 0 <= a < |calls'| ensures CallLock(out.node, calls'[a]) && Excused(calls', calls'[a]) {
      if a < n {
        OtherLock(s.node, out.node, s.calls[a]);
        ExcusedKept(s.calls, calls', s.calls[a], calls'[a]);
      } else {
        ExcusedKept(s.calls, calls', out.call, out.call);
      }
    }
    forall a, b | 0 <= a < b < |calls'| ensures !SameEpoch(calls'[a], calls'[b]) {
      if b == n {
        assert CallLock(s.node, s.calls[a]);
      } else {
        assert !SameEpoch(s.calls[a], s.calls[b]);
      }
    }
    EnterLocksHeld(s, out);
    if out.node.serverNode.Some? {
      var h :| 0 <= h < |s.calls| && Creator(s.calls[h]) && s.calls[h].server.Some?;
      assert calls'[h] == s.calls[h];
    }
  }

  lemma EnterLocksHeld(s: State, out: Outcome)
    requires LocksHeld(s.node.plugins, s.calls) && LockEntry(s.node, s.calls, out)
    ensures LocksHeld(out.node.plugins, s.calls + [out.call])
  {
    var calls' := s.calls + [out.call];
    forall p | p in out.node.plugins && out.node.plugins[p].locked
      ensures out.node.plugins[p].epochs > 0
      ensures exists h :: 0 <= h < |calls'| && HoldsLock(calls'[h], p, out.node.plugins[p].epochs - 1)
    {
      if out.call.epoch.Some? && p == out.call.job.plugin {
        assert HoldsLock(calls'[|s.calls|], p, out.node.plugins[p].epochs - 1);
      } else {
        var h :| 0 <= h < |s.calls| && HoldsLock(s.calls[h], p, s.node.plugins[p].epochs - 1);
        assert HoldsLock(calls'[h], p, out.node.plugins[p].epochs - 1);
      }
    }
  }

  lemma LockInvManage(s: State, e: Event)
    requires LockInv(s) && Enabled(s, e) && !Starts(e) && !Moves(e)
    ensures LockInv(Step(s, e))
  {
    var t := Step(s, e);
    forall a | 0 <= a < |s.calls| ensures CallLock(t.node, s.calls[a]) {
      OtherLock(s.node, t.node, s.calls[a]);
    }
    LocksKept(s.node.plugins, s.calls, t.node.plugins, s.calls);
  }

  lemma LockInvStep(s: State, e: Event)
    requires LockInv(s) && Enabled(s, e)
    ensures LockInv(Step(s, e))
  {
    if Starts(e) { LockInvStart(s, e); } else if Moves(e) { LockInvMove(s, e); } else { LockInvManage(s, e); }
  }

  // ---------- aggregators belong, one to one, to the calls that created them ----------

  ghost predicate HubsHeld(hubs: seq<nat>, calls: seq<Call>) {
    forall k :: 0 <= k < |hubs| ==> hubs[k] < |calls| && calls[hubs[k]].hub == Some(k)
  }

  predicate MineHub(before: seq<nat>, c: nat, had: Option<nat>, after: seq<nat>, has: Option<nat>) {
    || (after == before && has == had)
    || (after == before + [c] && had.None? && has == Some(|before|))
  }

  lemma MoveHub(n: Shared, call: Call, e: Event)
    requires Moves(e) && Created(call)
    ensures var out := Move(n, call, e); MineHub(n.hubs, e.call, call.hub, out.node.hubs, out.call.hub)
  {
    if e.Resume? && e.ok && call.job.Booting? {
      HubHub(n, e.call, call, e.rp, e.rd);
    } else if e.Resume? && e.ok && call.job.Adding? {
      AddHub(n, e.call, call, e.rp, e.rd);
    }
  }

  lemma HubHub(n: Shared, c: nat, call: Call, rp: int, rd: int)
    requires Created(call)
    ensures var out := AdvanceHub(n, c, call, rp, rd); MineHub(n.hubs, c, call.hub, out.node.hubs, out.call.hub)
  {}

  lemma AddHub(n: Shared, c: nat, call: Call, rp: int, rd: int)
    requires Created(call) && call.job.Adding?
    ensures var out := AdvanceAdd(n, c, call, rp, rd); MineHub(n.hubs, c, call.hub, out.node.hubs, out.call.hub)
  {
    HubHub(n, c, call, rp, rd);
  }

  lemma EntryHub(n: Shared, c: nat, e: Event)
    requires Starts(e)
    ensures Entry(n, c, e).node.hubs == n.hubs && Entry(n, c, e).call.hub.None?
  {
    EntryLight(n, c, e);
  }

  lemma HubsStep(s: State, e: Event)
    requires LockInv(s) && HubsHeld(s.node.hubs, s.calls) && Enabled(s, e)
    ensures HubsHeld(Step(s, e).node.hubs, Step(s, e).calls)
  {
    if Starts(e) {
      EntryHub(s.node, |s.calls|, e);
      HubsEnter(s.node.hubs, s.calls, Entry(s.node, |s.calls|, e).call);
    } else if Moves(e) {
      var out := Move(s.node, s.calls[e.call], e);
      assert CallLock(s.node, s.calls[e.call]);
      MoveHub(s.node, s.calls[e.call], e);
      HubsMove(s.node.hubs, s.calls, e.call, out.node.hubs, out.call);
    } else {
      assert Step(s, e) == State(Manage(s.node, e), s.calls);
    }
  }

  lemma HubsEnter(hubs: seq<nat>, calls: seq<Call>, call: Call)
    requires HubsHeld(hubs, calls)
    ensures HubsHeld(hubs, calls + [call])
  {}

  lemma HubsMove(hubs: seq<nat>, calls: seq<Call>, c: nat, hubs': seq<nat>, call: Call)
    requires HubsHeld(hubs, calls) && c < |calls| && MineHub(hubs, c, calls[c].hub, hubs', call.hub)
    ensures HubsHeld(hubs', calls[c := call])
  {}

  // ---------- over every run ----------

  /** No call yet, no server node, no lock taken. */
  ghost predicate Untouched(s: State) {
    && Fresh(s)
    && s.node.serverNode.None? && s.node.aggregator.None? && s.node.hubs == []
    && forall p :: p in s.node.plugins ==> !s.node.plugins[p].locked && s.node.plugins[p].epochs == 0
  }

  lemma {:induction false} LockRun(s: State, es: seq<Event>)
    requires LockInv(s) && HubsHeld(s.node.hubs, s.calls) && IsRun(s, es)
    ensures LockInv(Exec(s, es)) && HubsHeld(Exec(s, es).node.hubs, Exec(s, es).calls)
    decreases |es|
  {
    if es != [] {
      LockInvStep(s, es[0]);
      HubsStep(s, es[0]);
      LockRun(Step(s, es[0]), es[1..]);
    }
  }

  lemma EpochsApart(s: State, a: nat, b: nat)
    requires LockInv(s) && a < |s.calls| && b < |s.calls| && a != b
    ensures !SameEpoch(s.calls[a], s.calls[b])
  {
    if a < b { assert !SameEpoch(s.calls[a], s.calls[b]); } else { assert !SameEpoch(s.calls[b], s.calls[a]); }
  }

  // ---------- how many epochs there can be ----------

  function Unlocks(es: seq<Event>, p: string): nat {
    if es == [] then 0 else (if es[0] == Unlock(p) then 1 else 0) + Unlocks(es[1..], p)
  }

  /** Epochs still possible before the next unlock. */
  function Room(q: Plugin): nat { if q.locked then 0 else 1 }

  lemma EpochStep(s: State, e: Event, p: string)
    requires LockInv(s) && Enabled(s, e) && p in s.node.plugins
    ensures var t := Step(s, e);
            && p in t.node.plugins
            && t.node.plugins[p].epochs + Room(t.node.plugins[p])
            <= s.node.plugins[p].epochs + Room(s.node.plugins[p]) + (if e == Unlock(p) then 1 else 0)
  {
    if Starts(e) {
      EntryLock(s, e);
    } else if Moves(e) {
      assert CallLock(s.node, s.calls[e.call]);
      MoveLock(s.node, s.calls[e.call], e);
    }
  }

  /** A new epoch needs an unlock: the lock is taken at most once per shutdown, plus once at the start. */
  lemma {:induction false} EpochsNeedUnlocks(s: State, es: seq<Event>, p: string)
    requires LockInv(s) && IsRun(s, es) && p in s.node.plugins
    ensures p in Exec(s, es).node.plugins
    ensures Exec(s, es).node.plugins[p].epochs <= s.node.plugins[p].epochs + Room(s.node.plugins[p]) + Unlocks(es, p)
    decreases |es|
  {
    if es != [] {
      EpochStep(s, es[0], p);
      LockInvStep(s, es[0]);
      EpochsNeedUnlocks(Step(s, es[0]), es[1..], p);
    }
  }

  // ---------- how much is created under a lock ----------

  /** Was it created by a call that had taken the lock of `p`? */
  predicate MadeUnder(calls: seq<Call>, maker: nat, p: string) {
    maker < |calls| && calls[maker].epoch.Some? && calls[maker].job.Adding? && calls[maker].job.plugin == p
  }

  function CountUnder(calls: seq<Call>, makers: seq<nat>, p: string): nat {
    if makers == [] then 0
    else CountUnder(calls, makers[..|makers| - 1], p) + (if MadeUnder(calls, makers[|makers| - 1], p) then 1 else 0)
  }

  function EpochsUnder(calls: seq<Call>, makers: seq<nat>, p: string): set<nat> {
    set k | 0 <= k < |makers| && MadeUnder(calls, makers[k], p) :: calls[makers[k]].epoch.value
  }

  lemma EpochsNext(calls: seq<Call>, makers: seq<nat>, p: string)
    requires makers != []
    ensures var n := |makers| - 1;
            EpochsUnder(calls, makers, p) == EpochsUnder(calls, makers[..n], p) +
              (if MadeUnder(calls, makers[n], p) then {calls[makers[n]].epoch.value} else {})
  {
    var n := |makers| - 1;
    var before := makers[..n];
    assert forall k :: 0 <= k < n ==> before[k] == makers[k];
  }

  /** The last maker's epoch is a new one. */
  lemma EpochIsNew(s: State, makers: seq<nat>, p: string)
    requires LockInv(s) && Distinct(makers) && makers != [] && MadeUnder(s.calls, makers[|makers| - 1], p)
    ensures s.calls[makers[|makers| - 1]].epoch.value !in EpochsUnder(s.calls, makers[..|makers| - 1], p)
  {
    var n := |makers| - 1;
    forall k | 0 <= k < n && MadeUnder(s.calls, makers[k], p)
      ensures s.calls[makers[k]].epoch.value != s.calls[makers[n]].epoch.value
    {
      EpochsApart(s, makers[k], makers[n]);
    }
  }

  /** Distinct makers have distinct epochs, so there are as many epochs as creations. */
  lemma {:induction false} OneEpochEach(s: State, makers: seq<nat>, p: string)
    requires LockInv(s) && Distinct(makers)
    ensures |EpochsUnder(s.calls, makers, p)| == CountUnder(s.calls, makers, p)
  {
    if makers != [] {
      var n := |makers| - 1;
      OneEpochEach(s, makers[..n], p);
      EpochsNext(s.calls, makers, p);
      if MadeUnder(s.calls, makers[n], p) { EpochIsNew(s, makers, p); }
    }
  }

  lemma {:induction false} BelowCount(es: set<nat>, n: nat)
    requires forall e :: e in es ==> e < n
    ensures |es| <= n
  {
    if n > 0 {
      BelowCount(es - {n - 1}, n - 1);
    } else {
      assert es == {};
    }
  }

  lemma CreationsBounded(s: State, makers: seq<nat>, p: string)
    requires LockInv(s) && Distinct(makers) && p in s.node.plugins
    ensures CountUnder(s.calls, makers, p) <= s.node.plugins[p].epochs
  {
    OneEpochEach(s, makers, p);
    forall e | e in EpochsUnder(s.calls, makers, p) ensures e < s.node.plugins[p].epochs {
      var k :| 0 <= k < |makers| && MadeUnder(s.calls, makers[k], p) && s.calls[makers[k]].epoch.value == e;
      assert CallLock(s.node, s.calls[makers[k]]);
    }
    BelowCount(EpochsUnder(s.calls, makers, p), s.node.plugins[p].epochs);
  }

  function Makers(servers: seq<ServerNode>): seq<nat> {
    seq(|servers|, i requires 0 <= i < |servers| => servers[i].call)
  }

  /** In every run, with any plugins, boots, server-mode devices and shutdowns: the server nodes created under the
      lock of a plugin number at most one more than its shutdowns, and so do the aggregators. */
  lemma CreationsNeedUnlocks(s: State, es: seq<Event>, p: string)
    requires Untouched(s) && IsRun(s, es) && p in s.node.plugins
    ensures var t := Exec(s, es);
            && CountUnder(t.calls, Makers(t.node.servers), p) <= 1 + Unlocks(es, p)
            && CountUnder(t.calls, t.node.hubs, p) <= 1 + Unlocks(es, p)
  {
    var t := Exec(s, es);
    LockRun(s, es);
    LedgerRun(s.node.counters, s, es);
    EpochsNeedUnlocks(s, es, p);
    assert Distinct(t.node.hubs);
    assert Distinct(Makers(t.node.servers)) by {
      forall i, j | 0 <= i < j < |t.node.servers| ensures t.node.servers[i].call != t.node.servers[j].call {}
    }
    CreationsBounded(t, Makers(t.node.servers), p);
    CreationsBounded(t, t.node.hubs, p);
  }
}
