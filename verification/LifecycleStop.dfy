/**
 What holds of `stop` in every run (packages/core/src/matterNode.ts): its barrier, its order, the dependants it closes,
 and exactly which server nodes and aggregators are there after it.
 */
module LifecycleStop {
  import opened Optional
  import opened Sequences
  import opened NodeLifecycle
  import opened LifecycleTours
  import opened LifecycleStart

  // ---------- the invariant of stop ----------

  function DownLevel(ph: Stopping): nat {
    match ph
    case DependantClosing(_) => 1
    case DependantFreeing(_) => 1
    case ServerClosing => 1
    case StoreClosing => 2
    case Stopped => 3
    case StopFailed => 3
    case _ => 0
  }

  ghost predicate AllDown(st: Stop) {
    forall p :: p in st.asked ==> PluginDown(p) in st.log
  }

  predicate PastLoop(ph: Stopping) {
    ph.ServerClosing? || ph.StoreClosing? || ph.Stopped?
  }

  /** What is in the log, and what the phase says of it. */
  ghost predicate DownBarriers(st: Stop) {
    && (forall p :: PluginDown(p) in st.log ==> p in st.asked)
    && (st.phase.PluginsStopping? ==> forall p :: p in st.asked ==> (PluginDown(p) in st.log <==>
        p !in st.phase.waiting))
    && (st.phase.DependantClosing? || st.phase.DependantFreeing? || PastLoop(st.phase) || st.tour.visits != [] ==>
          AllDown(st))
    && (OwnClosed in st.log <==> st.phase.StoreClosing? || st.phase.Stopped?)
    && (StoreClosed in st.log <==> st.phase.Stopped?)
  }

  /** The visited dependants are closed, except the one being closed now, and no others. */
  ghost predicate Closing(st: Stop, closed: set<nat>) {
    && (forall c :: DependantClosed(c) in st.log <==> c in st.tour.visits && st.phase != DependantClosing(c))
    && (forall c :: c in closed <==> c in st.before || DependantClosed(c) in st.log)
    && (forall c :: c in st.tour.visits ==> c !in st.before)
    && (st.phase.DependantClosing? || st.phase.DependantFreeing? ==> st.phase.node in st.tour.visits)
  }

  ghost predicate DownInv(st: Stop, closed: set<nat>) {
    && Logged(st.log, DownLevel(st.phase))
    && DownBarriers(st) && Closing(st, closed)
    && (st.phase.PluginsStopping? ==> st.phase.waiting <= st.asked && st.tour == NO_TOUR)
  }

  ghost predicate StopInv(l: Life) {
    && DownInv(l.stop, l.closed)
    && TourInv(l.node, l.order, l.stop.tour)
    && (PastLoop(l.stop.phase) ==> TourEnded(l.node, l.order, l.stop.tour, l.stop.ended))
  }

  lemma StopKept(l: Life, t: Life)
    requires MapInv(l.node, l.order) && StopInv(l) && Moved(l, t) && t.stop == l.stop && t.closed == l.closed
    ensures StopInv(t)
  {
    TourKept(l.node, l.order, t.node, t.order, l.stop.tour);
    if PastLoop(l.stop.phase) { EndedKept(l.node, l.order, t.node, t.order, l.stop.tour, l.stop.ended); }
  }

  // ---------- its steps ----------

  /** What a log needs before the next dependant. */
  ghost predicate ReadyDown(st: Stop, closed: set<nat>) {
    && Logged(st.log, 1) && AllDown(st) && (forall p :: PluginDown(p) in st.log ==> p in st.asked)
    && OwnClosed !in st.log && StoreClosed !in st.log
    && (forall c :: DependantClosed(c) in st.log <==> c in st.tour.visits)
    && (forall c :: c in closed <==> c in st.before || DependantClosed(c) in st.log)
    && (forall c :: c in st.tour.visits ==> c !in st.before)
  }

  lemma VisitDown(st: Stop, closed: set<nat>, c: nat, calls: nat)
    requires ReadyDown(st, closed) && c !in st.tour.visits && c !in closed
    ensures DownInv(st.(phase := DependantClosing(c), tour := Visit(st.tour, c, calls)), closed)
  {
    var tour := Visit(st.tour, c, calls);
    assert forall a :: a in tour.visits <==> a in st.tour.visits || a == c;
  }

  lemma EndDown(st: Stop, closed: set<nat>, ph: Stopping, ended: nat)
    requires ReadyDown(st, closed) && (ph.ServerClosing? || ph.StopFailed?)
    ensures DownInv(st.(phase := ph, ended := ended), closed)
  {}

  lemma NextDownInv(l: Life)
    requires MapInv(l.node, l.order) && TourInv(l.node, l.order, l.stop.tour) && ReadyDown(l.stop, l.closed)
    ensures StopInv(NextDown(l))
  {
    var st, i := l.stop, |l.stop.tour.visits|;
    if i >= |l.order| {
      EndNow(l.node, l.order, st.tour);
      EndDown(st, l.closed, if l.node.node.serverNode.None? then StopFailed else ServerClosing, |l.node.calls|);
    } else {
      VisitNext(l.node, l.order, st.tour);
      var c := l.node.node.dependants[l.order[i]];
      if HasServer(l, c) {
        VisitDown(st, l.closed, c, |l.node.calls|);
      } else {
        EndDown(st, l.closed, StopFailed, st.ended);
      }
    }
  }

  lemma EnterStopInv(l: Life)
    requires MapInv(l.node, l.order)
    ensures StopInv(EnterStop(l))
  {
    var w := Running(l);
    var l' := l.(stop := Stop(PluginsStopping(w), [], w, l.closed, NO_TOUR, 0, 0, 0));
    assert DownInv(l'.stop, l.closed);
    if l.node.node.serverNode.Some? && w == {} { NextDownInv(l'); }
  }

  lemma DownLog(st: Stop, closed: set<nat>, p: string)
    requires DownInv(st, closed) && st.phase.PluginsStopping? && p in st.phase.waiting
    ensures DownInv(st.(phase := PluginsStopping(st.phase.waiting - {p}), log := st.log + [PluginDown(p)]), closed)
  {
    LogNext(st.log, PluginDown(p), 0);
    LoggedMembers(st.log, PluginDown(p));
  }

  lemma PluginStoppedInv(l: Life, p: string, ok: bool)
    requires MapInv(l.node, l.order) && StopInv(l) && l.stop.phase.PluginsStopping? && p in l.stop.phase.waiting
    ensures StopInv(PluginStopped(l, p, ok))
  {
    var w := l.stop.phase.waiting - {p};
    var l' := (if ok then ShutDown(l, p) else l).(
      stop := l.stop.(phase := PluginsStopping(w), log := l.stop.log + [PluginDown(p)]));
    DownLog(l.stop, l.closed, p);
    SameNodeMoves(l, l');
    TourKept(l.node, l.order, l'.node, l'.order, l.stop.tour);
    if w == {} { NextDownInv(l'); }
  }

  lemma ClosedLog(st: Stop, closed: set<nat>, c: nat)
    requires DownInv(st, closed) && st.phase == DependantClosing(c)
    ensures DownInv(st.(phase := DependantFreeing(c), log := st.log + [DependantClosed(c)]), closed + {c})
  {
    LogNext(st.log, DependantClosed(c), 1);
    LoggedMembers(st.log, DependantClosed(c));
  }

  lemma OwnLog(st: Stop, closed: set<nat>, servers: nat, hubs: nat)
    requires DownInv(st, closed) && st.phase.ServerClosing?
    ensures DownInv(st.(phase := StoreClosing, log := st.log + [OwnClosed], servers := servers, hubs := hubs), closed)
  {
    LogNext(st.log, OwnClosed, 1);
    LoggedMembers(st.log, OwnClosed);
  }

  lemma StoreLog(st: Stop, closed: set<nat>)
    requires DownInv(st, closed) && st.phase.StoreClosing?
    ensures DownInv(st.(phase := Stopped, log := st.log + [StoreClosed]), closed)
  {
    LogNext(st.log, StoreClosed, 2);
    LoggedMembers(st.log, StoreClosed);
  }

  lemma CloseOwnInv(l: Life)
    requires MapInv(l.node, l.order) && StopInv(l) && l.stop.phase.ServerClosing?
    ensures StopInv(CloseOwn(l))
  {
    var t := CloseOwn(l);
    OwnLog(l.stop, l.closed, |l.node.node.servers|, |l.node.node.hubs|);
    SameNodeMoves(l, t);
    TourKept(l.node, l.order, t.node, t.order, l.stop.tour);
    EndedKept(l.node, l.order, t.node, t.order, l.stop.tour, l.stop.ended);
  }

  lemma StopStep(l: Life, e: Event)
    requires MapInv(l.node, l.order) && StopInv(l) && Enabled(l, e)
    ensures StopInv(Step(l, e))
  {
    match e
    case BeginStop => EnterStopInv(l);
    case PluginStops(p, ok) => PluginStoppedInv(l, p, ok);
    case DependantCloses => ClosedLog(l.stop, l.closed, l.stop.phase.node);
    case DependantFrees => NextDownInv(l);
    case OwnCloses => CloseOwnInv(l);
    case StoreCloses => StoreLog(l.stop, l.closed);
    case _ =>
      EventMoves(l, e);
      StopAlone(l, e);
      StopKept(l, Step(l, e));
  }

  lemma StopAlone(l: Life, e: Event)
    requires Enabled(l, e) && !e.BeginStop? && !e.PluginStops?
    requires !e.DependantCloses? && !e.DependantFrees? && !e.OwnCloses? && !e.StoreCloses?
    ensures Step(l, e).stop == l.stop && Step(l, e).closed == l.closed
  {}

  lemma {:induction false} StopRun(l: Life, es: seq<Event>)
    requires MapInv(l.node, l.order) && StopInv(l) && IsRun(l, es)
    ensures MapInv(Exec(l, es).node, Exec(l, es).order) && StopInv(Exec(l, es))
    decreases |es|
  {
    if es != [] {
      EventMoves(l, es[0]);
      StopStep(l, es[0]);
      StopRun(Step(l, es[0]), es[1..]);
    }
  }

  // ---------- order, and what is closed ----------

  /** Nothing is stopping, and the map is as the protocol leaves it. */
  ghost predicate Unstopped(l: Life) {
    MapInv(l.node, l.order) && l.stop == Stop(NotStopping, [], {}, l.closed, NO_TOUR, 0, 0, 0)
  }

  /** In every run, whatever comes in between: dependants are closed only once every plugin shutdown asked for has
      settled, the own server node after them, its storage last; nothing is closed twice. */
  lemma StopInOrder(l: Life, es: seq<Event>)
    requires Unstopped(l) && IsRun(l, es)
    ensures var st := Exec(l, es).stop;
            && InOrder(st.log) && Distinct(st.log)
            && (forall p :: PluginDown(p) in st.log ==> p in st.asked)
            && (forall c :: DependantClosed(c) in st.log ==> AllDown(st))
            && (OwnClosed in st.log ==> AllDown(st))
            && (StoreClosed in st.log ==> OwnClosed in st.log)
            && (st.phase.Stopped? ==> StoreClosed in st.log)
  {
    StopRun(l, es);
  }

  /** After a completed stop, in every run: the dependants that still have a server node are exactly those that got one,
      were not closed by an earlier stop, and were either registered after their key's turn or replaced in the map
      before it. */
  lemma StopLeavesDependants(l: Life, es: seq<Event>, k: nat, c: nat)
    requires Unstopped(l) && IsRun(l, es)
    requires var t := Exec(l, es);
             t.stop.phase.Stopped? && k < |t.order| && c in t.node.node.children && HasKey(t.node, c, t.order[k])
    ensures var t := Exec(l, es);
            && |t.stop.tour.seen| == |t.stop.tour.visits|
            && (HasServer(t, c) <==>
                  && t.node.node.children[c].server.Some? && c !in t.stop.before
                  && (Late(t.order, t.stop.tour, t.stop.ended, k, c) || Replaced(t.stop.tour, k, c)))
  {
    StopRun(l, es);
    var t := Exec(l, es);
    VisitedExactly(t.node, t.order, t.stop.tour, t.stop.ended, k, c);
  }

  lemma RunFirst(l: Life, e: Event, m: Life, es: seq<Event>, t: Life)
    requires Enabled(l, e) && Step(l, e) == m && IsRun(m, es) && Exec(m, es) == t
    ensures IsRun(l, [e] + es) && Exec(l, [e] + es) == t
  {
    assert ([e] + es)[1..] == es;
  }

  /** It does happen: where a second add of the same id has replaced a dependant in the map, a stop completes, closes
      the new one and leaves the old one with its server node. */
  lemma ReplacedDependantSurvives(l: Life, id: string, c: nat)
    requires Unstopped(l) && Running(l) == {} && l.node.node.serverNode.Some?
    requires l.order == [id] && HasServer(l, l.node.node.dependants[id])
    requires c != l.node.node.dependants[id] && HasServer(l, c)
    ensures var es := [BeginStop, DependantCloses, DependantFrees, OwnCloses, StoreCloses];
            && IsRun(l, es)
            && var t := Exec(l, es);
            t.stop.phase.Stopped? && HasServer(t, c) && !HasServer(t, l.node.node.dependants[id])
  {
    var t := StopsOnly(l, id);
  }

  /** A stop of a node with one dependant. */
  lemma StopsOnly(l: Life, id: string) returns (t: Life)
    requires Unstopped(l) && Running(l) == {} && l.node.node.serverNode.Some?
    requires l.order == [id] && HasServer(l, l.node.node.dependants[id])
    ensures var es := [BeginStop, DependantCloses, DependantFrees, OwnCloses, StoreCloses];
            IsRun(l, es) && Exec(l, es) == t
    ensures t.stop.phase.Stopped? && t.closed == l.closed + {l.node.node.dependants[id]}
    ensures t.node.node.children == l.node.node.children
  {
    var l1 := EnterStop(l);
    VisitsOnly(l, id);
    var l2 := CloseDependant(l1);
    var l3 := NextDown(l2);
    t := ClosesOwn(l3);
    RunFirst(l2, DependantFrees, l3, [OwnCloses, StoreCloses], t);
    assert [DependantFrees] + [OwnCloses, StoreCloses] == [DependantFrees, OwnCloses, StoreCloses];
    TwoMore(l, l1, l2, t);
  }

  lemma VisitsOnly(l: Life, id: string)
    requires MapInv(l.node, l.order) && l.order == [id] && Running(l) == {} && l.node.node.serverNode.Some?
    requires HasServer(l, l.node.node.dependants[id])
    ensures EnterStop(l).stop.phase == DependantClosing(l.node.node.dependants[id])
    ensures |EnterStop(l).stop.tour.visits| == 1
    ensures NextDown(CloseDependant(EnterStop(l))).stop.phase.ServerClosing?
  {}

  lemma ClosesOwn(l: Life) returns (t: Life)
    requires l.stop.phase.ServerClosing?
    ensures IsRun(l, [OwnCloses, StoreCloses]) && Exec(l, [OwnCloses, StoreCloses]) == t
    ensures t.stop.phase.Stopped? && t.closed == l.closed && t.order == l.order
    ensures t.node == l.node.(node := l.node.node.(serverNode := None, aggregator := None))
  {
    RunTwo(l, OwnCloses, StoreCloses);
    t := Exec(l, [OwnCloses, StoreCloses]);
  }

  lemma TwoMore(l: Life, l1: Life, l2: Life, t: Life)
    requires Enabled(l, BeginStop) && EnterStop(l) == l1 && Enabled(l1, DependantCloses) && CloseDependant(l1) == l2
    requires IsRun(l2, [DependantFrees, OwnCloses, StoreCloses]) &&
             Exec(l2, [DependantFrees, OwnCloses, StoreCloses]) == t
    ensures var es := [BeginStop, DependantCloses, DependantFrees, OwnCloses, StoreCloses];
            IsRun(l, es) && Exec(l, es) == t
  {
    RunFirst(l1, DependantCloses, l2, [DependantFrees, OwnCloses, StoreCloses], t);
    RunFirst(l, BeginStop, l1, [DependantCloses, DependantFrees, OwnCloses, StoreCloses], t);
    assert [DependantCloses] + [DependantFrees, OwnCloses, StoreCloses]
        == [DependantCloses, DependantFrees, OwnCloses, StoreCloses];
    assert [BeginStop] + [DependantCloses, DependantFrees, OwnCloses, StoreCloses]
        == [BeginStop, DependantCloses, DependantFrees, OwnCloses, StoreCloses];
  }
}
