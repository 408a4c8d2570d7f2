/**
 When a stop is known beforehand to leave nothing behind (packages/core/src/matterNode.ts): no creation in flight, no
 dependant replaced in the map, and no add or boot until it is over.
 */
module LifecycleQuiet {
  import opened Optional
  import P = NodeProtocol
  import opened NodeAccounting
  import opened NodeLifecycle
  import opened LifecycleTours
  import opened LifecycleStart
  import opened LifecycleStop
  import opened LifecycleOwn

  /** Not on the way to a server node or aggregator of the node's own. */
  predicate Calm(ph: P.Phase) {
    !ph.LockContext? && !ph.LockCreating? && !ph.HubContext? && !ph.HubCreating? && !ph.HubAggregating?
  }

  ghost predicate AllCalm(s: P.State) {
    forall c :: 0 <= c < |s.calls| ==> Calm(s.calls[c].phase)
  }

  /** No add and no boot. */
  predicate Still(e: Event) {
    e.Protocol? ==> !e.e.Add? && !e.e.Boot?
  }

  // ---------- the node's own ----------

  predicate SameOwn(n: P.Shared, m: P.Shared) {
    m.serverNode == n.serverNode && m.aggregator == n.aggregator
  }

  lemma HubCalm(n: P.Shared, c: nat, call: P.Call, rp: int, rd: int)
    requires Calm(call.phase)
    ensures var out := P.AdvanceHub(n, c, call, rp, rd); SameOwn(n, out.node) && Calm(out.call.phase)
  {}

  lemma AddCalm(n: P.Shared, c: nat, call: P.Call, rp: int, rd: int)
    requires Calm(call.phase) && call.job.Adding?
    ensures var out := P.AdvanceAdd(n, c, call, rp, rd); SameOwn(n, out.node) && Calm(out.call.phase)
  {
    match call.phase
    case Spawning =>
    case SpawnCreating(_) =>
    case SpawnAttaching(_) =>
    case LockAttaching(_) =>
    case HubSettled =>
    case Attaching(_) =>
    case Constructing =>
    case _ => HubCalm(n, c, call, rp, rd);
  }

  lemma MoveCalm(n: P.Shared, call: P.Call, e: P.Event)
    requires P.Moves(e) && Calm(call.phase)
    ensures var out := P.Move(n, call, e); SameOwn(n, out.node) && Calm(out.call.phase)
  {
    if e.Resume? && e.ok {
      match call.job
      case Booting => HubCalm(n, e.call, call, e.rp, e.rd);
      case Adding(_, _) => AddCalm(n, e.call, call, e.rp, e.rd);
      case Removing(_, _, _) =>
    }
  }

  lemma ProtocolCalm(s: P.State, e: P.Event)
    requires P.Enabled(s, e) && AllCalm(s) && !e.Add? && !e.Boot?
    ensures SameOwn(s.node, P.Step(s, e).node) && AllCalm(P.Step(s, e))
  {
    if P.Starts(e) {
      EntryLight(s.node, |s.calls|, e);
      assert P.Step(s, e).calls == s.calls + [P.Entry(s.node, |s.calls|, e).call];
    } else if P.Moves(e) {
      MoveCalm(s.node, s.calls[e.call], e);
      assert P.Step(s, e).calls == s.calls[e.call := P.Move(s.node, s.calls[e.call], e).call];
    }
  }

  /** Nothing of the node's own is there or on the way. */
  ghost predicate Bare(l: Life) {
    l.node.node.serverNode.None? && l.node.node.aggregator.None? && AllCalm(l.node)
  }

  lemma BareStep(l: Life, e: Event)
    requires Bare(l) && Enabled(l, e) && Still(e)
    ensures Bare(Step(l, e))
  {
    if e.Protocol? { ProtocolCalm(l.node, e.e); } else { NodeCalls(l, e); }
  }

  lemma {:induction false} BareRun(l: Life, es: seq<Event>)
    requires Bare(l) && IsRun(l, es) && forall i :: 0 <= i < |es| ==> Still(es[i])
    ensures Bare(Exec(l, es))
    decreases |es|
  {
    if es != [] {
      BareStep(l, es[0]);
      BareRun(Step(l, es[0]), es[1..]);
    }
  }

  /** If no creation is in flight when the own server node is closed, and nothing is added or booted afterwards, the
      node has neither server node nor aggregator in any run from there. */
  lemma CalmCloseIsFinal(l: Life, es: seq<Event>)
    requires Enabled(l, OwnCloses) && AllCalm(l.node)
    requires IsRun(Step(l, OwnCloses), es) && forall i :: 0 <= i < |es| ==> Still(es[i])
    ensures var t := Exec(Step(l, OwnCloses), es); t.node.node.serverNode.None? && t.node.node.aggregator.None?
  {
    BareRun(Step(l, OwnCloses), es);
  }

  // ---------- the whole tree ----------

  /** No dependant has been replaced: each key has had only one. */
  ghost predicate NoneReplaced(s: P.State) {
    forall a, b, id :: a in s.node.children && b in s.node.children && HasKey(s, a, id) && HasKey(s, b, id) ==> a == b
  }

  /** What holds during a stop in which nothing is added. */
  ghost predicate QuietInv(l: Life) {
    && MapInv(l.node, l.order) && StopInv(l) && NoneReplaced(l.node) && AllCalm(l.node)
    && (PastLoop(l.stop.phase) ==> |l.stop.tour.visits| == |l.order|)
    && (l.stop.phase.StoreClosing? || l.stop.phase.Stopped? ==>
          l.node.node.serverNode.None? && l.node.node.aggregator.None?)
  }

  /** Without adds, the map stays as it is. */
  lemma MapStill(l: Life, e: Event)
    requires Enabled(l, e) && Still(e)
    ensures var t := Step(l, e); t.order == l.order && JobsKept(l.node, t.node) && SameMap(l.node, t.node)
  {
    if e.Protocol? { ProtocolFrame(l.node, e.e); } else { NodeAlone(l, e); }
  }

  lemma NoneReplacedKept(s: P.State, t: P.State)
    requires NoneReplaced(s) && JobsKept(s, t) && SameMap(s, t) && forall c :: c in s.node.children ==> c < |s.calls|
    ensures NoneReplaced(t)
  {
    forall a, b, id | a in t.node.children && b in t.node.children && HasKey(t, a, id) && HasKey(t, b, id)
      ensures a == b
    {
      assert HasKey(s, a, id) && HasKey(s, b, id);
    }
  }

  lemma CalmStill(l: Life, e: Event)
    requires Enabled(l, e) && Still(e) && AllCalm(l.node)
    ensures AllCalm(Step(l, e).node)
    ensures !e.OwnCloses? ==> SameOwn(l.node.node, Step(l, e).node.node)
  {
    if e.Protocol? { ProtocolCalm(l.node, e.e); } else { NodeCalls(l, e); }
  }

  /** The loop ends only when every key has been visited. */
  lemma LoopEnds(l: Life, e: Event)
    requires Enabled(l, e) && StopInv(l) && TourInv(Step(l, e).node, Step(l, e).order, Step(l, e).stop.tour)
    requires Still(e) && (PastLoop(l.stop.phase) ==> |l.stop.tour.visits| == |l.order|)
    ensures PastLoop(Step(l, e).stop.phase) ==> |Step(l, e).stop.tour.visits| == |Step(l, e).order|
  {
    MapStill(l, e);
    if e.BeginStop? || e.PluginStops? || e.DependantFrees? { LoopEndsNow(l, e); } else { LoopUnchanged(l, e); }
  }

  lemma NextDownEnds(l: Life)
    ensures PastLoop(NextDown(l).stop.phase) ==> |NextDown(l).stop.tour.visits| >= |l.order|
  {}

  lemma LoopEndsNow(l: Life, e: Event)
    requires Enabled(l, e) && (e.BeginStop? || e.PluginStops? || e.DependantFrees?)
    ensures PastLoop(Step(l, e).stop.phase) ==> |Step(l, e).stop.tour.visits| >= |Step(l, e).order|
  {
    match e
    case BeginStop =>
      var w := Running(l);
      NextDownEnds(l.(stop := Stop(PluginsStopping(w), [], w, l.closed, NO_TOUR, 0, 0, 0)));
    case PluginStops(p, ok) =>
      var w := l.stop.phase.waiting - {p};
      NextDownEnds((if ok then ShutDown(l, p) else l).(
        stop := l.stop.(phase := PluginsStopping(w), log := l.stop.log + [PluginDown(p)])));
    case DependantFrees => NextDownEnds(l);
  }

  lemma LoopUnchanged(l: Life, e: Event)
    requires Enabled(l, e) && !e.BeginStop? && !e.PluginStops? && !e.DependantFrees?
    ensures Step(l, e).stop.tour == l.stop.tour && (PastLoop(Step(l, e).stop.phase) ==> PastLoop(l.stop.phase))
  {}

  lemma QuietStep(l: Life, e: Event)
    requires QuietInv(l) && Enabled(l, e) && Still(e)
    ensures QuietInv(Step(l, e))
  {
    EventMoves(l, e);
    StopStep(l, e);
    MapStill(l, e);
    NoneReplacedKept(l.node, Step(l, e).node);
    CalmStill(l, e);
    LoopEnds(l, e);
    if !e.OwnCloses? { LastPhases(l, e); }
  }

  lemma {:induction false} QuietRun(l: Life, es: seq<Event>)
    requires QuietInv(l) && IsRun(l, es) && forall i :: 0 <= i < |es| ==> Still(es[i])
    ensures QuietInv(Exec(l, es))
    decreases |es|
  {
    if es != [] {
      QuietStep(l, es[0]);
      QuietRun(Step(l, es[0]), es[1..]);
    }
  }

  lemma NothingLeft(l: Life, c: nat)
    requires QuietInv(l) && l.stop.phase.Stopped?
    ensures !HasServer(l, c)
  {
    if c in l.node.node.children {
      var id := l.node.calls[c].job.device.id;
      assert HasKey(l.node, c, id);
      assert id in l.order;
      var k :| 0 <= k < |l.order| && l.order[k] == id;
      assert VisitFits(l.node, id, l.stop.tour.visits[k], l.stop.tour.seen[k]);
      assert l.stop.tour.visits[k] == c;
    }
  }

  /** If a stop begins with no creation of the node's own in flight and no dependant replaced in the map, and nothing is
      added or booted until it has completed, no node in the tree has a server node or an aggregator. */
  lemma QuietStopLeavesNothing(l: Life, es: seq<Event>)
    requires MapInv(l.node, l.order) && StopInv(l) && Enabled(l, BeginStop) && AllCalm(l.node) && NoneReplaced(l.node)
    requires IsRun(Step(l, BeginStop), es) && forall i :: 0 <= i < |es| ==> Still(es[i])
    ensures var t := Exec(Step(l, BeginStop), es);
            t.stop.phase.Stopped? ==>
              && t.node.node.serverNode.None? && t.node.node.aggregator.None?
              && forall c :: !HasServer(t, c)
  {
    var l1, t := Step(l, BeginStop), Exec(Step(l, BeginStop), es);
    StopStep(l, BeginStop);
    EnteredStop(l);
    QuietRun(l1, es);
    if t.stop.phase.Stopped? {
      forall c ensures !HasServer(t, c) { NothingLeft(t, c); }
    }
  }

  lemma EnteredStop(l: Life)
    requires MapInv(l.node, l.order)
    ensures var st := EnterStop(l).stop;
            && !st.phase.StoreClosing? && !st.phase.Stopped?
            && (PastLoop(st.phase) ==> l.order == [] && st.tour == NO_TOUR)
  {}
}
