/**
 What a call can have created, and which parent it can have, by the kind of call it is: fixed when it enters and
 kept by every step (packages/core/src/matterNode.ts).
 */
module NodeShapes {
  import opened Optional
  import opened DeviceRegistry
  import opened NodeProtocol
  import opened NodeAccounting
  import opened NodePorts
  import opened NodeLocks
  import opened NodePlacement

  /** The branches of `addBridgedEndpoint`, and the other calls. */
  datatype Kind =
    | Boots
    | Removes
    | Unknown      // no such plugin
    | Own          // server mode: a dependant of its own
    | Bridges      // bridge mode
    | Locks        // accessory platform of a childbridge
    | Hubs         // dynamic platform of a childbridge
    | Loose        // no branch applies

  function KindOf(n: Shared, job: Job): Kind {
    match job
    case Booting => Boots
    case Removing(_, _, _) => Removes
    case Adding(p, d) =>
      if p !in n.plugins then Unknown
      else if d.mode.Server? then Own
      else if n.mode.Bridge? then Bridges
      else if n.mode.ChildBridge? && n.plugins[p].platform.Accessory? then Locks
      else if n.mode.ChildBridge? && n.plugins[p].platform.Dynamic? then Hubs
      else Loose
  }

  predicate Idle(call: Call) {
    call.epoch.None? && call.server.None? && call.hub.None?
  }

  predicate Ended(call: Call) {
    CountedCall(call) || call.phase.Refused?
  }

  /** On the way to a server node with its aggregator, and what has been created by then. */
  predicate HubPath(call: Call) {
    match call.phase
    case HubContext => call.server.None? && call.hub.None?
    case HubCreating(_) => call.server.None? && call.hub.None?
    case HubAggregating => call.server.Some? && call.hub.None?
    case Refused => call.hub.Some? ==> call.server.Some?
    case _ => call.server.Some? && call.hub.Some?
  }

  predicate Shape(kind: Kind, call: Call) {
    match kind
    case Boots => call.job.Booting? && call.epoch.None? && call.placed.None? && HubPath(call)
    case Removes => call.job.Removing? && Idle(call) && call.placed.None?
    case Unknown => call.job.Adding? && Idle(call) && call.phase.Refused?
    case Own => call.job.Adding? && OwnShape(call)
    case Bridges =>
      && call.job.Adding? && Idle(call)
      && ((call.phase.Attaching? && call.phase.target.Some?) || (CountedCall(call) && call.placed.Some?) ||
           call.phase.Refused?)
    case Locks => call.job.Adding? && LockShape(call)
    case Hubs => call.job.Adding? && HubShape(call)
    case Loose => call.job.Adding? && Idle(call) && Ended(call) && call.placed.None?
  }

  predicate OwnShape(call: Call)
    requires call.job.Adding?
  {
    && call.epoch.None? && call.hub.None?
    && (call.phase.Spawning? || call.phase.SpawnCreating? || call.phase.SpawnAttaching? || Ended(call))
    && (call.phase.Spawning? || call.phase.SpawnCreating? ==> call.server.None?)
    && (call.phase.SpawnCreating? || call.phase.SpawnAttaching? || call.server.Some? ==> call.job.device.complete)
    && (call.phase.SpawnAttaching? ==> call.server == Some(call.phase.server))
    && (CountedCall(call) ==>
          call.placed == if call.server.Some? then Some(OnServer(call.server.value)) else None)
    && (CountedCall(call) ==> (call.server.Some? <==> call.job.device.complete))
  }

  predicate LockShape(call: Call) {
    && call.hub.None?
    && (call.epoch.None? ==> call.server.None? && (call.phase.Attaching? || Ended(call)))
    && (call.epoch.Some? ==>
          match call.phase
          case LockContext => call.server.None?
          case LockCreating(_) => call.server.None?
          case LockAttaching(k) => call.server == Some(k)
          case Refused => true
          case _ => CountedCall(call) && call.server.Some? && call.placed == Some(OnServer(call.server.value)))
  }

  predicate HubShape(call: Call) {
    && (call.epoch.None? ==> Idle(call) && (call.phase.HubSettled? || call.phase.Attaching? || Ended(call)))
    && (call.epoch.Some? ==> HubPath(call))
    && (call.phase.HubContext? || call.phase.HubCreating? || call.phase.HubAggregating? || call.phase.HubJoining?
        || call.phase.HubSettled? || call.phase.Attaching? || Ended(call))
  }

  // ---------- entering ----------

  lemma AddEntryShape(n: Shared, c: nat, p: string, d: Device)
    ensures var out := EnterAdd(n, c, p, d); Shape(KindOf(n, out.call.job), out.call)
  {}

  lemma EntryShape(n: Shared, c: nat, e: Event)
    requires Starts(e)
    ensures var out := Entry(n, c, e); Shape(KindOf(n, out.call.job), out.call)
  {
    if e.Add? { AddEntryShape(n, c, e.plugin, e.device); }
  }

  // ---------- moving on ----------

  lemma HubPathMoves(n: Shared, c: nat, call: Call, rp: int, rd: int)
    requires HubPath(call)
    ensures HubPath(AdvanceHub(n, c, call, rp, rd).call)
  {}

  lemma OwnMoves(n: Shared, c: nat, call: Call, rp: int, rd: int)
    requires call.job.Adding? && OwnShape(call) && Resumable(call.phase) && (call.phase.Spawning? ==> c in n.children)
    ensures var out := AdvanceAdd(n, c, call, rp, rd).call; out.job == call.job && OwnShape(out)
  {}

  lemma BridgeMoves(n: Shared, c: nat, call: Call, rp: int, rd: int)
    requires Shape(Bridges, call) && Resumable(call.phase)
    ensures Shape(Bridges, AdvanceAdd(n, c, call, rp, rd).call)
  {}

  lemma LockMoves(n: Shared, c: nat, call: Call, rp: int, rd: int)
    requires Shape(Locks, call) && Resumable(call.phase)
    ensures Shape(Locks, AdvanceAdd(n, c, call, rp, rd).call)
  {}

  lemma HubMoves(n: Shared, c: nat, call: Call, rp: int, rd: int)
    requires Shape(Hubs, call) && Resumable(call.phase)
    ensures Shape(Hubs, AdvanceAdd(n, c, call, rp, rd).call)
  {
    if call.epoch.Some? { HubPathMoves(n, c, call, rp, rd); }
  }

  lemma LooseMoves(n: Shared, c: nat, call: Call, rp: int, rd: int)
    requires Shape(Loose, call) && Resumable(call.phase)
    ensures Shape(Loose, AdvanceAdd(n, c, call, rp, rd).call)
  {}

  /** A rejection, a timeout or a handled message ends a call without creating anything. */
  lemma ShapeEnds(kind: Kind, call: Call, ph: Phase)
    requires Shape(kind, call) && Past(ph) && !kind.Unknown?
    requires call.job.Booting? ==> ph.Refused?
    requires call.job.Adding? ==> !ph.Unsetting? && !ph.UnsettingLate? && (ph.Refused? || CountedCall(call))
    ensures Shape(kind, call.(phase := ph))
  {}

  lemma MoveShape(n: Shared, call: Call, e: Event)
    requires Moves(e) && PhaseFits(call) && Shape(KindOf(n, call.job), call)
    requires e.Resume? ==> Resumable(call.phase) && (call.phase.Spawning? ==> e.call in n.children)
    requires e.Deliver? ==> Posted(call)
    requires e.Timeout? ==> call.phase.Setting? || call.phase.Unsetting?
    ensures var out := Move(n, call, e).call; out.job == call.job && Shape(KindOf(n, call.job), out)
  {
    var kind := KindOf(n, call.job);
    MoveActive(n, call, e);
    if e.Resume? && e.ok && !call.job.Removing? {
      match kind
      case Boots => HubPathMoves(n, e.call, call, e.rp, e.rd);
      case Own => OwnMoves(n, e.call, call, e.rp, e.rd);
      case Bridges => BridgeMoves(n, e.call, call, e.rp, e.rd);
      case Locks => LockMoves(n, e.call, call, e.rp, e.rd);
      case Hubs => HubMoves(n, e.call, call, e.rp, e.rd);
      case Loose => LooseMoves(n, e.call, call, e.rp, e.rd);
      case _ =>
    } else {
      MovePast(n, call, e);
      ShapeEnds(kind, call, Move(n, call, e).call.phase);
    }
  }

  // ---------- over every run ----------

  ghost predicate Shaped(s: State) {
    forall c :: 0 <= c < |s.calls| ==> Shape(KindOf(s.node, s.calls[c].job), s.calls[c])
  }

  /** Mode and platforms never change, so kinds do not. */
  lemma SameKinds(n: Shared, m: Shared, job: Job)
    requires Grows(n, m)
    ensures KindOf(m, job) == KindOf(n, job)
  {}

  lemma ShapedStart(s: State, e: Event)
    requires Shaped(s) && Enabled(s, e) && Starts(e) && LockInv(s) && PointersValid(s.node)
    ensures Shaped(Step(s, e))
  {
    var t := Step(s, e);
    EntryGrows(s, e);
    EntryShape(s.node, |s.calls|, e);
    forall c | 0 <= c < |t.calls| ensures Shape(KindOf(t.node, t.calls[c].job), t.calls[c]) {
      SameKinds(s.node, t.node, t.calls[c].job);
    }
  }

  lemma ShapedMove(start: Counters, s: State, e: Event)
    requires Reached(start, s) && PlaceInv(s) && Shaped(s) && Enabled(s, e) && Moves(e)
    ensures Shaped(Step(s, e))
  {
    var t := Step(s, e);
    var call := s.calls[e.call];
    assert CallLock(s.node, call) && CallLedger(s.node, e.call, call) && PhaseFits(call);
    MoveGrows(s.node, call, e);
    MoveShape(s.node, call, e);
    forall c | 0 <= c < |t.calls| ensures Shape(KindOf(t.node, t.calls[c].job), t.calls[c]) {
      SameKinds(s.node, t.node, t.calls[c].job);
    }
  }

  lemma ShapedStep(start: Counters, s: State, e: Event)
    requires Reached(start, s) && PlaceInv(s) && Shaped(s) && Enabled(s, e)
    ensures Shaped(Step(s, e))
  {
    if Starts(e) {
      ShapedStart(s, e);
    } else if Moves(e) {
      ShapedMove(start, s, e);
    } else {
      assert Step(s, e) == State(Manage(s.node, e), s.calls);
      forall c | 0 <= c < |s.calls| ensures Shape(KindOf(Step(s, e).node, s.calls[c].job), s.calls[c]) {
        ManageKinds(s.node, e, s.calls[c].job);
      }
    }
  }

  lemma ManageKinds(n: Shared, e: Event, job: Job)
    requires !Starts(e) && !Moves(e) && e.plugin in n.plugins
    ensures KindOf(Manage(n, e), job) == KindOf(n, job)
  {}

  /** Everything that holds of a reachable state. */
  ghost predicate Sound(start: Counters, s: State) {
    Reached(start, s) && PlaceInv(s) && Shaped(s)
  }

  lemma SoundStep(start: Counters, s: State, e: Event)
    requires Sound(start, s) && Enabled(s, e)
    ensures Sound(start, Step(s, e))
  {
    ReachedStep(start, s, e);
    PlaceInvStep(start, s, e);
    ShapedStep(start, s, e);
  }

  lemma {:induction false} SoundRun(start: Counters, s: State, es: seq<Event>)
    requires Sound(start, s) && IsRun(s, es)
    ensures Sound(start, Exec(s, es))
    decreases |es|
  {
    if es != [] {
      SoundStep(start, s, es[0]);
      SoundRun(start, Step(s, es[0]), es[1..]);
    }
  }

  lemma UntouchedSound(s: State)
    requires Untouched(s)
    ensures Sound(s.node.counters, s)
  {}

  // ---------- who created what ----------

  /** The boot of the bridge, or a call that holds its plugin's lock. */
  predicate Maker(calls: seq<Call>, c: nat)
    requires c < |calls|
  {
    calls[c].job.Booting? || (calls[c].job.Adding? && MadeUnder(calls, c, calls[c].job.plugin))
  }

  lemma ShapeMakes(kind: Kind, call: Call)
    requires Shape(kind, call)
    ensures call.hub.Some? ==> call.job.Booting? || (call.job.Adding? && call.epoch.Some?)
    ensures call.server.Some? ==> kind.Own? || call.job.Booting? || (call.job.Adding? && call.epoch.Some?)
  {}

  /** Every server node is made for a device in server mode, by the boot of a bridge, or under its plugin's lock;
      every aggregator by the boot or under a lock. */
  lemma MadeBy(s: State, es: seq<Event>)
    requires Untouched(s) && IsRun(s, es)
    ensures var t := Exec(s, es);
            forall j :: 0 <= j < |t.node.servers| ==>
              var c := t.node.servers[j].call;
              c < |t.calls| && (Maker(t.calls, c) || (t.calls[c].job.Adding? && t.calls[c].job.device.mode.Server?))
    ensures var t := Exec(s, es);
            forall j :: 0 <= j < |t.node.hubs| ==> t.node.hubs[j] < |t.calls| && Maker(t.calls, t.node.hubs[j])
  {
    UntouchedSound(s);
    SoundRun(s.node.counters, s, es);
    MakersOf(s.node.counters, Exec(s, es));
  }

  lemma MakersOf(start: Counters, t: State)
    requires Sound(start, t)
    ensures forall j :: 0 <= j < |t.node.servers| ==>
              var c := t.node.servers[j].call;
              c < |t.calls| && (Maker(t.calls, c) || (t.calls[c].job.Adding? && t.calls[c].job.device.mode.Server?))
    ensures forall j :: 0 <= j < |t.node.hubs| ==> t.node.hubs[j] < |t.calls| && Maker(t.calls, t.node.hubs[j])
  {
    forall j | 0 <= j < |t.node.servers|
      ensures var c := t.node.servers[j].call;
              c < |t.calls| && (Maker(t.calls, c) || (t.calls[c].job.Adding? && t.calls[c].job.device.mode.Server?))
    {
      MakesServer(t, t.node.servers[j].call);
    }
    forall j | 0 <= j < |t.node.hubs| ensures t.node.hubs[j] < |t.calls| && Maker(t.calls, t.node.hubs[j]) {
      MakesHub(t, t.node.hubs[j]);
    }
  }

  lemma MakesServer(t: State, c: nat)
    requires Shaped(t) && c < |t.calls| && t.calls[c].server.Some?
    ensures Maker(t.calls, c) || (t.calls[c].job.Adding? && t.calls[c].job.device.mode.Server?)
  {
    ShapeMakes(KindOf(t.node, t.calls[c].job), t.calls[c]);
  }

  lemma MakesHub(t: State, c: nat)
    requires Shaped(t) && c < |t.calls| && t.calls[c].hub.Some?
    ensures Maker(t.calls, c)
  {
    ShapeMakes(KindOf(t.node, t.calls[c].job), t.calls[c]);
  }
}
