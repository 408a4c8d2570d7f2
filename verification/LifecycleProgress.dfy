/**
 `start` and `stop` of a MatterNode get through or fail for a reason that can be named
 (packages/core/src/matterNode.ts).
 */
module LifecycleProgress {
  import opened Optional
  import opened NodeLifecycle
  import opened LifecycleTours
  import opened LifecycleStart
  import opened LifecycleStop
  import opened LifecycleAsked

  // ---------- failing ----------

  /** The entry of the map whose turn is next has no server node. */
  predicate Gap(l: Life, i: nat) {
    i < |l.order| && l.order[i] in l.node.node.dependants && !HasServer(l, l.node.node.dependants[l.order[i]])
  }

  predicate LastOne(waiting: set<string>, p: string) {
    waiting - {p} == {}
  }

  /** In every state the loops can be in, an event of a start fails it if and only if: it begins on a bridge without
      server node; or the last plugin has settled and there is no server node; or the loop over the dependants is at
      one without server node, once all configures, if there are any, have settled. */
  lemma StartFailsExactly(l: Life, e: Event)
    requires MapInv(l.node, l.order) && Enabled(l, e) && !l.start.phase.StartFailed?
    ensures Step(l, e).start.phase.StartFailed? <==>
            match e
            case BeginStart => l.plugin.None? && l.node.node.serverNode.None?
            case PluginStarts(p, _) => LastOne(l.start.phase.waiting, p) && l.node.node.serverNode.None?
            case OwnStarts => (forall p :: !Live(l, p)) && Gap(l, |l.start.tour.visits|)
            case PluginConfigures(p) => LastOne(l.start.phase.waiting, p) && Gap(l, |l.start.tour.visits|)
            case DependantStarts => Gap(l, |l.start.tour.visits|)
            case _ => false
  {
    if |l.start.tour.visits| < |l.order| { assert l.order[|l.start.tour.visits|] in l.order; }
    match e
    case BeginStart => assert l.plugin.Some? ==> l.plugin.value in ToStart(l);
    case OwnStarts => NoneLive(l);
    case PluginStarts(_, _) =>
    case PluginConfigures(_) =>
    case DependantStarts =>
    case _ => StartAlone(l, e);
  }

  lemma NoneLive(l: Life)
    ensures Running(l) == {} <==> forall p :: !Live(l, p)
  {
    assert forall p :: p in Running(l) <==> Live(l, p);
  }

  /** The end of the loop of a stop: no server node to close, or an entry without one. */
  predicate DeadEnd(l: Life, i: nat) {
    if i < |l.order| then Gap(l, i) else l.node.node.serverNode.None?
  }

  /** In every state the loops can be in, an event of a stop fails it if and only if: it begins without server node; or
      the loop over the dependants, once all shutdowns, if there are any, have settled, is at one without server node,
      or at its end when the node's own is gone. */
  lemma StopFailsExactly(l: Life, e: Event)
    requires MapInv(l.node, l.order) && Enabled(l, e) && !l.stop.phase.StopFailed?
    ensures Step(l, e).stop.phase.StopFailed? <==>
            match e
            case BeginStop => l.node.node.serverNode.None? || ((forall p :: !Live(l, p)) && DeadEnd(l, 0))
            case PluginStops(p, _) => LastOne(l.stop.phase.waiting, p) && DeadEnd(l, |l.stop.tour.visits|)
            case DependantFrees => DeadEnd(l, |l.stop.tour.visits|)
            case _ => false
  {
    if |l.stop.tour.visits| < |l.order| { assert l.order[|l.stop.tour.visits|] in l.order; }
    match e
    case BeginStop => StopFailsAtOnce(l);
    case PluginStops(p, ok) => StopFailsLater(l, p, ok);
    case DependantFrees =>
    case DependantCloses =>
    case OwnCloses =>
    case StoreCloses =>
    case _ => StopAlone(l, e);
  }

  lemma StopFailsLater(l: Life, p: string, ok: bool)
    requires MapInv(l.node, l.order) && Enabled(l, PluginStops(p, ok))
    ensures PluginStopped(l, p, ok).stop.phase.StopFailed? <==>
            LastOne(l.stop.phase.waiting, p) && DeadEnd(l, |l.stop.tour.visits|)
  {
    if |l.stop.tour.visits| < |l.order| { assert l.order[|l.stop.tour.visits|] in l.order; }
  }

  lemma StopFailsAtOnce(l: Life)
    requires MapInv(l.node, l.order)
    ensures EnterStop(l).stop.phase.StopFailed? <==>
            l.node.node.serverNode.None? || ((forall p :: !Live(l, p)) && DeadEnd(l, 0))
  {
    if |l.order| > 0 { assert l.order[0] in l.order; }
    NoneLive(l);
  }

  // ---------- a start gets through ----------

  /** A barrier that is still up waits for somebody. */
  predicate Waiting(l: Life) {
    && (l.start.phase.PluginsStarting? || l.start.phase.PluginsConfiguring? ==> l.start.phase.waiting != {})
    && (l.stop.phase.PluginsStopping? ==> l.stop.phase.waiting != {})
  }

  lemma WaitingStep(l: Life, e: Event)
    requires Waiting(l) && Enabled(l, e)
    ensures Waiting(Step(l, e))
  {}

  predicate Ongoing(ph: Starting) {
    ph.PluginsStarting? || ph.ServerStarting? || ph.PluginsConfiguring? || ph.DependantStarting?
  }

  /** Every entry of the map from `i` on has its server node. */
  ghost predicate NoGap(l: Life, i: nat) {
    forall k :: i <= k < |l.order| ==> !Gap(l, k)
  }

  predicate OfStart(e: Event) {
    e.PluginStarts? || e.OwnStarts? || e.PluginConfigures? || e.DependantStarts?
  }

  /** How much of a start is left: the barriers, who they wait for, the dependants. */
  function Stage(ph: Starting): nat {
    match ph
    case PluginsStarting(_) => 4
    case ServerStarting => 3
    case PluginsConfiguring(_) => 2
    case DependantStarting => 1
    case _ => 0
  }

  function Awaited(ph: Starting): nat {
    if ph.PluginsStarting? || ph.PluginsConfiguring? then |ph.waiting| else 0
  }

  function Unvisited(order: seq<string>, t: Tour): nat {
    if |t.visits| < |order| then |order| - |t.visits| else 0
  }

  ghost predicate Closer(l: Life, t: Life) {
    || Stage(t.start.phase) < Stage(l.start.phase)
    || (t.start.phase.DependantStarting? && Stage(t.start.phase) == Stage(l.start.phase) && t.order == l.order
        && |t.start.tour.visits| == |l.start.tour.visits| + 1 <= |l.order|)
    || (Stage(t.start.phase) == Stage(l.start.phase) > 1 && Awaited(t.start.phase) < Awaited(l.start.phase))
  }

  ghost predicate Healthy(l: Life) {
    && MapInv(l.node, l.order) && Waiting(l) && Ongoing(l.start.phase)
    && l.node.node.serverNode.Some? && NoGap(l, 0)
  }

  lemma NextUpGoesOn(l: Life)
    requires MapInv(l.node, l.order) && NoGap(l, 0)
    ensures var t := NextUp(l);
            || t.start.phase.Started?
            || (t.start.phase.DependantStarting? && |t.start.tour.visits| == |l.start.tour.visits| + 1 <= |l.order|)
  {
    var i := |l.start.tour.visits|;
    if i < |l.order| { assert l.order[i] in l.order && !Gap(l, i); }
  }

  /** A start in progress has an event that is enabled and brings it closer to its end. */
  lemma StartGoesOn(l: Life) returns (e: Event)
    requires Healthy(l)
    ensures OfStart(e) && Enabled(l, e) && Closer(l, Step(l, e))
    ensures Healthy(Step(l, e)) || Step(l, e).start.phase.Started?
  {
    match l.start.phase
    case PluginsStarting(w) =>
      var p :| p in w;
      e := PluginStarts(p, true);
      StartsClose(l, e);
    case ServerStarting =>
      e := OwnStarts;
      OwnCloser(l);
    case PluginsConfiguring(w) =>
      var p :| p in w;
      e := PluginConfigures(p);
      ConfiguresClose(l, p);
    case DependantStarting =>
      e := DependantStarts;
      NextUpGoesOn(l);
      SameGaps(l, Step(l, e));
    case _ =>
  }

  lemma StartsClose(l: Life, e: Event)
    requires Healthy(l) && e.PluginStarts? && Enabled(l, e)
    ensures Healthy(Step(l, e)) && Closer(l, Step(l, e))
  {
    var w := l.start.phase.waiting;
    assert |w - {e.plugin}| < |w|;
    SameGaps(l, Step(l, e));
  }

  lemma OwnCloser(l: Life)
    requires Healthy(l) && Enabled(l, OwnStarts)
    ensures Closer(l, Step(l, OwnStarts))
    ensures Healthy(Step(l, OwnStarts)) || Step(l, OwnStarts).start.phase.Started?
  {
    var l' := l.(start := l.start.(configuring := Running(l)));
    SameGaps(l, l');
    NextUpGoesOn(l');
    SameGaps(l, Step(l, OwnStarts));
  }

  lemma ConfiguresClose(l: Life, p: string)
    requires Healthy(l) && Enabled(l, PluginConfigures(p))
    ensures Closer(l, Step(l, PluginConfigures(p)))
    ensures Healthy(Step(l, PluginConfigures(p))) || Step(l, PluginConfigures(p)).start.phase.Started?
  {
    var w := l.start.phase.waiting - {p};
    assert |w| < |l.start.phase.waiting|;
    var l' := l.(start := l.start.(phase := PluginsConfiguring(w), log := l.start.log + [PluginSet(p)]));
    SameGaps(l, l');
    NextUpGoesOn(l');
    SameGaps(l, Step(l, PluginConfigures(p)));
  }

  lemma SameGaps(l: Life, t: Life)
    requires NoGap(l, 0) && t.node == l.node && t.order == l.order && t.closed == l.closed
    ensures NoGap(t, 0)
  {
    forall k | 0 <= k < |t.order| ensures !Gap(t, k) { assert !Gap(l, k); }
  }

  ghost predicate StartsUp(l: Life, es: seq<Event>) {
    && (forall i :: 0 <= i < |es| ==> OfStart(es[i]))
    && IsRun(l, es) && Exec(l, es).start.phase.Started?
  }

  lemma StartsFirst(l: Life, e: Event, es: seq<Event>)
    requires Enabled(l, e) && OfStart(e) && StartsUp(Step(l, e), es)
    ensures StartsUp(l, [e] + es)
  {
    RunFirst(l, e, Step(l, e), es, Exec(Step(l, e), es));
  }

  /** From every state in which a start is in progress, the node has its server node and every dependant in the map has
      one: the events of the start alone lead to its end. */
  lemma {:induction false} StartGetsThrough(l: Life)
    requires Healthy(l)
    ensures exists es :: StartsUp(l, es)
    decreases Stage(l.start.phase), Awaited(l.start.phase), Unvisited(l.order, l.start.tour)
  {
    var e := StartGoesOn(l);
    var t := Step(l, e);
    var es := [];
    if !t.start.phase.Started? {
      StartGetsThrough(t);
      es :| StartsUp(t, es);
    } else {
      assert StartsUp(t, es);
    }
    StartsFirst(l, e, es);
  }

  // ---------- a stop gets through ----------

  predicate OngoingStop(ph: Stopping) {
    ph.PluginsStopping? || ph.DependantClosing? || ph.DependantFreeing? || ph.ServerClosing? || ph.StoreClosing?
  }

  predicate OfStop(e: Event) {
    e.PluginStops? || e.DependantCloses? || e.DependantFrees? || e.OwnCloses? || e.StoreCloses?
  }

  function DownStage(ph: Stopping): nat {
    match ph
    case PluginsStopping(_) => 4
    case DependantClosing(_) => 3
    case DependantFreeing(_) => 3
    case ServerClosing => 2
    case StoreClosing => 1
    case _ => 0
  }

  function DownAwaited(ph: Stopping): nat {
    if ph.PluginsStopping? then |ph.waiting| else if ph.DependantClosing? then 1 else 0
  }

  ghost predicate Winding(l: Life) {
    && MapInv(l.node, l.order) && StopInv(l) && Waiting(l) && OngoingStop(l.stop.phase)
    && (DownStage(l.stop.phase) >= 3 ==> l.node.node.serverNode.Some? && NoGap(l, |l.stop.tour.visits|))
  }

  ghost predicate Lower(l: Life, t: Life) {
    || DownStage(t.stop.phase) < DownStage(l.stop.phase)
    || (DownStage(t.stop.phase) == DownStage(l.stop.phase)
        && (|| Unvisited(t.order, t.stop.tour) < Unvisited(l.order, l.stop.tour)
            || (Unvisited(t.order, t.stop.tour) == Unvisited(l.order, l.stop.tour)
                && DownAwaited(t.stop.phase) < DownAwaited(l.stop.phase))))
  }

  /** The next entry, or the own server node. */
  lemma NextDownGoesOn(l: Life)
    requires MapInv(l.node, l.order) && l.node.node.serverNode.Some? && NoGap(l, |l.stop.tour.visits|)
    ensures var t := NextDown(l);
            && NoGap(t, |t.stop.tour.visits|)
            && (|| t.stop.phase.ServerClosing?
                || (&& t.stop.phase.DependantClosing?
                    && Unvisited(t.order, t.stop.tour) < Unvisited(l.order, l.stop.tour)))
  {
    var i, t := |l.stop.tour.visits|, NextDown(l);
    if i < |l.order| { assert l.order[i] in l.order && !Gap(l, i); }
    forall k | |t.stop.tour.visits| <= k < |t.order| ensures !Gap(t, k) { assert !Gap(l, k); }
  }

  lemma ShutsDownLower(l: Life, p: string)
    requires Winding(l) && Enabled(l, PluginStops(p, true))
    ensures Lower(l, Step(l, PluginStops(p, true))) && Winding(Step(l, PluginStops(p, true)))
  {
    var e := PluginStops(p, true);
    var w := l.stop.phase.waiting - {p};
    assert |w| < |l.stop.phase.waiting|;
    var l' := ShutDown(l, p).(stop := l.stop.(phase := PluginsStopping(w), log := l.stop.log + [PluginDown(p)]));
    forall k | 0 <= k < |l.order| ensures !Gap(l', k) { assert !Gap(l, k); }
    SameNodeMoves(l, l');
    EventMoves(l, e);
    StopStep(l, e);
    WaitingStep(l, e);
    if w == {} { NextDownGoesOn(l'); }
  }

  /** Closing a visited entry opens no gap further on: every other key has another dependant. */
  lemma OthersOpen(l: Life, c: nat)
    requires MapInv(l.node, l.order) && TourInv(l.node, l.order, l.stop.tour)
    requires c in l.stop.tour.visits && NoGap(l, |l.stop.tour.visits|)
    ensures NoGap(l.(closed := l.closed + {c}), |l.stop.tour.visits|)
  {
    var t := l.(closed := l.closed + {c});
    forall k | |l.stop.tour.visits| <= k < |l.order| ensures !Gap(t, k) {
      assert !Gap(l, k) && l.order[k] in l.order;
      assert HasKey(l.node, l.node.node.dependants[l.order[k]], l.order[k]);
      var j :| 0 <= j < |l.stop.tour.visits| && l.stop.tour.visits[j] == c;
      assert VisitFits(l.node, l.order[j], c, l.stop.tour.seen[j]);
    }
  }

  lemma ClosesLower(l: Life)
    requires Winding(l) && Enabled(l, DependantCloses)
    ensures Lower(l, Step(l, DependantCloses)) && Winding(Step(l, DependantCloses))
  {
    var c, t := l.stop.phase.node, Step(l, DependantCloses);
    OthersOpen(l, c);
    var m := l.(closed := l.closed + {c});
    forall k | |l.stop.tour.visits| <= k < |l.order| ensures !Gap(t, k) { assert !Gap(m, k); }
    StopStep(l, DependantCloses);
  }

  lemma FreesLower(l: Life)
    requires Winding(l) && Enabled(l, DependantFrees)
    ensures Lower(l, Step(l, DependantFrees)) && Winding(Step(l, DependantFrees))
  {
    NextDownGoesOn(l);
    StopStep(l, DependantFrees);
  }

  lemma EndsLower(l: Life, e: Event)
    requires Winding(l) && Enabled(l, e) && (e.OwnCloses? || e.StoreCloses?)
    ensures Lower(l, Step(l, e)) && (Winding(Step(l, e)) || Step(l, e).stop.phase.Stopped?)
  {
    EventMoves(l, e);
    StopStep(l, e);
  }

  /** A stop in progress has an event that is enabled and brings it closer to its end. */
  lemma StopGoesOn(l: Life) returns (e: Event)
    requires Winding(l)
    ensures OfStop(e) && Enabled(l, e) && Lower(l, Step(l, e))
    ensures Winding(Step(l, e)) || Step(l, e).stop.phase.Stopped?
  {
    match l.stop.phase
    case PluginsStopping(w) =>
      var p :| p in w;
      e := PluginStops(p, true);
      ShutsDownLower(l, p);
    case DependantClosing(_) =>
      e := DependantCloses;
      ClosesLower(l);
    case DependantFreeing(_) =>
      e := DependantFrees;
      FreesLower(l);
    case ServerClosing =>
      e := OwnCloses;
      EndsLower(l, e);
    case StoreClosing =>
      e := StoreCloses;
      EndsLower(l, e);
    case _ =>
  }

  ghost predicate WindsDown(l: Life, es: seq<Event>) {
    && (forall i :: 0 <= i < |es| ==> OfStop(es[i]))
    && IsRun(l, es) && Exec(l, es).stop.phase.Stopped?
  }

  lemma WindsFirst(l: Life, e: Event, es: seq<Event>)
    requires Enabled(l, e) && OfStop(e) && WindsDown(Step(l, e), es)
    ensures WindsDown(l, [e] + es)
  {
    RunFirst(l, e, Step(l, e), es, Exec(Step(l, e), es));
  }

  /** From every state in which a stop is in progress and, unless its loop is over, the node has its server node and
      every dependant yet to visit has one: the events of the stop alone lead to its end. */
  lemma {:induction false} StopGetsThrough(l: Life)
    requires Winding(l)
    ensures exists es :: WindsDown(l, es)
    decreases DownStage(l.stop.phase), Unvisited(l.order, l.stop.tour), DownAwaited(l.stop.phase)
  {
    var e := StopGoesOn(l);
    var t := Step(l, e);
    var es := [];
    if !t.stop.phase.Stopped? {
      StopGetsThrough(t);
      es :| WindsDown(t, es);
    } else {
      assert WindsDown(t, es);
    }
    WindsFirst(l, e, es);
  }
}
