/**
 Calls of the endpoint protocol get through (packages/core/src/matterNode.ts): what an add is refused for, how many
 awaits a call has ahead of it, and what the registry (packages/core/src/deviceManager.ts) holds after any run.
 */
module NodeProgress {
  import opened Optional
  import opened DeviceRegistry
  import opened DeviceManagers
  import opened NodeProtocol
  import opened NodeAccounting
  import opened NodePorts
  import opened NodeShapes
  import opened NodeRuns

  // ---------- entering ----------

  /** In every state: an add is refused at its entry if and only if the plugin is unknown, or the node is a bridge
      without the endpoint the device belongs under, its server node in matter mode and its aggregator otherwise; then
      nothing changes.  A device in server mode is never short of a parent. */
  lemma AddEntry(s: State, p: string, d: Device)
    requires d.plugin == p
    ensures var t, c := Step(s, Add(p, d)), |s.calls|;
            && |t.calls| == c + 1 && t.calls[..c] == s.calls && t.calls[c].job == Adding(p, d)
            && (t.calls[c].phase.Refused? <==>
                  || p !in s.node.plugins
                  || (s.node.mode.Bridge? && d.mode.Matter? && s.node.serverNode.None?)
                  || (s.node.mode.Bridge? && d.mode.Bridged? && s.node.aggregator.None?))
            && (t.calls[c].phase.Refused? ==> t.node == s.node)
  {
    var c := |s.calls|;
    var out := EnterAdd(s.node, c, p, d);
    assert Step(s, Add(p, d)) == State(out.node, s.calls + [out.call]);
    EntryJob(s.node, c, Add(p, d));
  }

  // ---------- the awaits ahead ----------

  /** How many promises a call still waits for before it has done its work on the node. */
  function Ahead(call: Call): nat {
    match call.phase
    case Spawning => if call.job.Adding? && call.job.device.complete then 4 else 2
    case SpawnCreating(_) => 3
    case SpawnAttaching(_) => 2
    case LockContext => 4
    case LockCreating(_) => 3
    case LockAttaching(_) => 2
    case HubContext => if call.job.Booting? then 4 else 7
    case HubCreating(_) => if call.job.Booting? then 3 else 6
    case HubAggregating => if call.job.Booting? then 2 else 5
    case HubJoining => if call.job.Booting? then 1 else 4
    case HubSettled => 3
    case Attaching(_) => 2
    case Constructing => 1
    case Deleting => 1
    case _ => 0
  }

  /** Its work on the node is done; an add or a removal has told the registry. */
  predicate Through(call: Call) {
    match call.job
    case Booting => call.phase.Settled?
    case Adding(_, _) => call.phase.Setting?
    case Removing(_, _, _) => call.phase.Unsetting?
  }

  lemma AheadExactly(call: Call)
    requires PhaseFits(call)
    ensures Resumable(call.phase) <==> Ahead(call) > 0
  {}

  /** A promise that resolves brings its call one step on, never to a failure. */
  lemma OneStepOn(n: Shared, c: nat, call: Call, rp: int, rd: int)
    requires PhaseFits(call) && Ahead(call) > 0 && (call.phase.Spawning? ==> c in n.children)
    ensures var call' := Advance(n, c, call, true, rp, rd).call;
            call'.job == call.job && Ahead(call') == Ahead(call) - 1 && (Ahead(call') == 0 ==> Through(call'))
  {
    if !call.job.Removing? {
      match call.phase
      case Spawning =>
      case SpawnCreating(_) =>
      case SpawnAttaching(_) =>
      case LockContext =>
      case LockCreating(_) =>
      case LockAttaching(_) =>
      case HubContext =>
      case HubCreating(_) =>
      case HubAggregating =>
      case HubJoining =>
      case HubSettled =>
      case Attaching(_) =>
      case Constructing =>
      case _ =>
    }
  }

  function Goes(c: nat, k: nat): seq<Event> {
    if k == 0 then [] else [Go(c)] + Goes(c, k - 1)
  }

  /** From every reachable state, whatever else is in flight: a call that has entered gets through if the promises it
      still waits for resolve, and it is never refused on the way. */
  lemma {:induction false} GetsThrough(start: Counters, s: State, c: nat)
    requires Sound(start, s) && c < |s.calls| && Ahead(s.calls[c]) > 0
    ensures var t := Exec(s, Goes(c, Ahead(s.calls[c])));
            && IsRun(s, Goes(c, Ahead(s.calls[c])))
            && |t.calls| == |s.calls| && t.calls[c].job == s.calls[c].job && Through(t.calls[c])
            && t.node.registry == s.node.registry
    decreases Ahead(s.calls[c])
  {
    var k, s1 := Ahead(s.calls[c]), Step(s, Go(c));
    assert PhaseFits(s.calls[c]) && CallLedger(s.node, c, s.calls[c]);
    AheadExactly(s.calls[c]);
    OneStepOn(s.node, c, s.calls[c], 0, 0);
    AdvanceFits(s.node, c, s.calls[c], true, 0, 0);
    SoundStep(start, s, Go(c));
    if k > 1 { GetsThrough(start, s1, c); }
    RunCons(s, Go(c), Goes(c, k - 1));
  }

  // ---------- the registry ----------

  /** A message waits until it is handled, also when its sender has timed out, and being late makes no difference to the
      registry. */
  lemma LateIsHandled(s: State, c: nat)
    requires c < |s.calls| && Posted(s.calls[c])
    ensures Enabled(s, Deliver(c))
    ensures Enabled(s, Timeout(c)) <==> !s.calls[c].phase.SettingLate? && !s.calls[c].phase.UnsettingLate?
    ensures Enabled(s, Timeout(c)) ==>
              var late := Step(s, Timeout(c));
              && late.node == s.node && Enabled(late, Deliver(c)) && !Enabled(late, Timeout(c))
              && Step(late, Deliver(c)).node == Step(s, Deliver(c)).node
  {}

  /** The messages the registry has handled, in order. */
  ghost function Delivered(s: State, es: seq<Event>): seq<Op>
    requires IsRun(s, es)
    decreases |es|
  {
    if es == [] then [] else Message(s, es[0]) + Delivered(Step(s, es[0]), es[1..])
  }

  function Message(s: State, e: Event): seq<Op> {
    if !e.Deliver? || e.call >= |s.calls| then []
    else
      match s.calls[e.call].job
      case Booting => []
      case Adding(_, d) => [SetOp(d)]
      case Removing(_, d, _) => [RemoveOp(d)]
  }

  lemma MessageApplied(s: State, e: Event, ops: seq<Op>)
    requires WellFormed(s) && Enabled(s, e) && s.node.registry == ApplyAll(ops)
    ensures Step(s, e).node.registry == ApplyAll(ops + Message(s, e))
  {
    var m := Message(s, e);
    if m == [] {
      assert ops + m == ops;
      if Starts(e) {
        EntryLight(s.node, |s.calls|, e);
      } else if e.Resume? {
        assert PhaseFits(s.calls[e.call]);
        AdvanceFits(s.node, e.call, s.calls[e.call], e.ok, e.rp, e.rd);
      }
    } else {
      assert (ops + m)[..|ops + m| - 1] == ops;
    }
  }

  lemma DeliveredOn(s: State, es: seq<Event>, ops: seq<Op>)
    requires IsRun(s, es) && es != []
    ensures ops + Delivered(s, es) == (ops + Message(s, es[0])) + Delivered(Step(s, es[0]), es[1..])
  {}

  lemma {:induction false} RegistryIsDelivered(s: State, es: seq<Event>, ops: seq<Op>)
    requires WellFormed(s) && IsRun(s, es) && s.node.registry == ApplyAll(ops)
    ensures Exec(s, es).node.registry == ApplyAll(ops + Delivered(s, es))
    decreases |es|
  {
    if es == [] {
      assert ops + Delivered(s, es) == ops;
    } else {
      var m := Message(s, es[0]);
      WellFormedStep(s, es[0]);
      MessageApplied(s, es[0], ops);
      RegistryIsDelivered(Step(s, es[0]), es[1..], ops + m);
      DeliveredOn(s, es, ops);
    }
  }

  /** After every run, however the calls interleave, the registry is what the delivered messages make of it: each live
      uniqueId once, with the device last set, in the order in which they were first set since their last removal. */
  lemma RegistryReflects(s: State, es: seq<Event>, ops: seq<Op>)
    requires WellFormed(s) && IsRun(s, es) && s.node.registry == ApplyAll(ops)
    ensures Reflects(Exec(s, es).node.registry, ops + Delivered(s, es))
  {
    RegistryIsDelivered(s, es, ops);
    ListReflectsRun(ops + Delivered(s, es));
  }
}
