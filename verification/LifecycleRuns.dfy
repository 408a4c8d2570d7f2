/**
 Runs from a fresh node in which start or stop does not do what one would expect of them
 (packages/core/src/matterNode.ts).
 */
module LifecycleRuns {
  import opened Optional
  import opened Sequences
  import opened DeviceRegistry
  import P = NodeProtocol
  import A = NodeAccounting
  import R = NodeRuns
  import opened NodeLifecycle
  import opened LifecycleTours
  import opened LifecycleStart
  import opened LifecycleStop

  // ---------- runs of the protocol as runs of the node ----------

  function Lift(es: seq<P.Event>): seq<Event> {
    if es == [] then [] else [Protocol(es[0])] + Lift(es[1..])
  }

  /** All but the protocol's part and the keys of the map is untouched. */
  predicate OnlyNode(l: Life, t: Life) {
    t == l.(node := t.node, order := t.order)
  }

  lemma {:induction false} LiftRun(l: Life, es: seq<P.Event>, n: P.State)
    requires MapInv(l.node, l.order) && A.Leads(l.node, es, n)
    ensures IsRun(l, Lift(es))
    ensures var t := Exec(l, Lift(es)); t.node == n && OnlyNode(l, t) && MapInv(t.node, t.order)
    decreases |es|
  {
    if es != [] {
      var l1 := Interleave(l, es[0]);
      EventMoves(l, Protocol(es[0]));
      LiftRun(l1, es[1..], n);
      RunFirst(l, Protocol(es[0]), l1, Lift(es[1..]), Exec(l1, Lift(es[1..])));
    }
  }

  /** `es` is a run from `l` that ends in `t`. */
  ghost predicate Reaches(l: Life, es: seq<Event>, t: Life) {
    IsRun(l, es) && Exec(l, es) == t
  }

  lemma {:induction false} ReachesJoin(l: Life, a: seq<Event>, m: Life, b: seq<Event>, t: Life)
    requires Reaches(l, a, m) && Reaches(m, b, t)
    ensures Reaches(l, a + b, t)
    decreases |a|
  {
    if a == [] {
      assert a + b == b;
    } else {
      ReachesJoin(Step(l, a[0]), a[1..], m, b, t);
      RunFirst(l, a[0], Step(l, a[0]), a[1..] + b, t);
      assert [a[0]] + (a[1..] + b) == a + b;
    }
  }

  lemma RunJoin(l: Life, a: seq<Event>, b: seq<Event>)
    requires IsRun(l, a) && IsRun(Exec(l, a), b)
    ensures IsRun(l, a + b) && Exec(l, a + b) == Exec(Exec(l, a), b)
  {
    ReachesJoin(l, a, Exec(l, a), b, Exec(Exec(l, a), b));
  }

  /** A map with one key lists it. */
  lemma OneKey(s: P.State, order: seq<string>, id: string)
    requires MapInv(s, order) && s.node.dependants.Keys == {id}
    ensures order == [id]
  {
    Singleton(order, id);
  }

  /** A new node: no call, no dependant, nothing starting or stopping. */
  ghost predicate New(l: Life) {
    && l.node.calls == [] && l.node.node.serverNode.None?
    && l.node.node.dependants == map[] && l.node.node.children == map[]
    && l.order == [] && l.closed == {}
    && l.start == Start(NotStarting, [], {}, {}, NO_TOUR, 0)
    && l.stop == Stop(NotStopping, [], {}, {}, NO_TOUR, 0, 0, 0)
  }

  /** A bridge whose plugins are switched off, so that nothing waits for them. */
  ghost predicate NewBridge(l: Life, p: string) {
    && New(l) && l.plugin.None? && p in l.node.node.plugins
    && forall q :: q in l.status ==> !l.status[q].enabled
  }

  // ---------- a dependant without server node fails a start ----------

  /** From a new bridge: boot, an add in server mode whose creation has not come far, and a start; it fails. */
  lemma StartFailsFromNew(l: Life, p: string, d: Device)
    requires NewBridge(l, p) && d.plugin == p && d.mode.Server?
    ensures var es := Lift(R.BOOT + [P.Add(p, d)]) + [BeginStart, OwnStarts];
            IsRun(l, es) && Exec(l, es).start.phase.StartFailed? && OwnUp in Exec(l, es).start.log
  {
    FreshMap(l.node);
    var n1 := R.BootsOwn(l.node);
    var n2 := R.Registers(n1, p, d);
    R.LeadsJoin(l.node, R.BOOT, n1, [P.Add(p, d)], n2);
    LiftRun(l, R.BOOT + [P.Add(p, d)], n2);
    var t := Exec(l, Lift(R.BOOT + [P.Add(p, d)]));
    OneKey(t.node, t.order, d.id);
    PendingDependantFailsStart(t, d.id);
    RunJoin(l, Lift(R.BOOT + [P.Add(p, d)]), [BeginStart, OwnStarts]);
  }

  // ---------- a replaced dependant survives a stop ----------

  const STOP := [BeginStop, DependantCloses, DependantFrees, OwnCloses, StoreCloses]

  /** From a new bridge: boot, two adds in server mode with the same id, both created, and a stop; it completes, and the
      first dependant still has its server node. */
  lemma StopLeavesFromNew(l: Life, p: string, d: Device, d': Device)
    requires NewBridge(l, p) && d.plugin == p && d.mode.Server? && d.complete
    requires d'.plugin == p && d'.mode.Server? && d'.complete && d'.id == d.id
    ensures var es := Lift(R.BOOT + R.AddSteps(p, d, 1) + R.AddSteps(p, d', 2)) + STOP;
            IsRun(l, es) && Exec(l, es).stop.phase.Stopped? && HasServer(Exec(l, es), 1) && !HasServer(Exec(l, es), 2)
  {
    var es := R.BOOT + R.AddSteps(p, d, 1) + R.AddSteps(p, d', 2);
    FreshMap(l.node);
    var n := R.SpawnsTwice(l.node, p, d, d');
    LiftRun(l, es, n);
    var t := Exec(l, Lift(es));
    OneKey(t.node, t.order, d.id);
    ReplacedDependantSurvives(t, d.id, 1);
    RunJoin(l, Lift(es), STOP);
  }

  // ---------- the own server node comes back ----------

  function StopPlugin(p: string): seq<Event> {
    [BeginStop, PluginStops(p, true), OwnCloses, StoreCloses]
  }

  /** A stop of a plugin's node without dependants: the plugin is shut down and its lock freed. */
  lemma StopsPlugin(l: Life, p: string) returns (t: Life)
    requires l.plugin == Some(p) && l.order == [] && l.stop.phase.NotStopping? && l.node.node.serverNode.Some?
    requires p in l.node.node.plugins
    ensures IsRun(l, StopPlugin(p)) && Exec(l, StopPlugin(p)) == t
    ensures t.stop.phase.Stopped? && t.node.node.serverNode.None? && t.order == []
    ensures t.node.calls == l.node.calls && t.node.node.mode == l.node.node.mode
    ensures t.node.node.dependants == l.node.node.dependants && t.node.node.children == l.node.node.children
    ensures p in t.node.node.plugins && !t.node.node.plugins[p].locked
    ensures t.node.node.plugins[p].platform == l.node.node.plugins[p].platform
  {
    var l1 := EnterStop(l);
    AsksPlugin(l, p);
    var l2 := PluginStopped(l1, p, true);
    ShutsDown(l1, p);
    t := ClosesOwn(l2);
    StopsSo(l, p, l1, l2, t);
  }

  lemma AsksPlugin(l: Life, p: string)
    requires l.plugin == Some(p) && l.node.node.serverNode.Some?
    ensures EnterStop(l).stop.phase == PluginsStopping({p}) && EnterStop(l).stop.tour == NO_TOUR
  {}

  lemma StopsSo(l: Life, p: string, l1: Life, l2: Life, t: Life)
    requires Enabled(l, BeginStop) && EnterStop(l) == l1
    requires l1.stop.phase == PluginsStopping({p}) && PluginStopped(l1, p, true) == l2
    requires IsRun(l2, [OwnCloses, StoreCloses]) && Exec(l2, [OwnCloses, StoreCloses]) == t
    ensures IsRun(l, StopPlugin(p)) && Exec(l, StopPlugin(p)) == t
  {
    RunFirst(l1, PluginStops(p, true), l2, [OwnCloses, StoreCloses], t);
    RunFirst(l, BeginStop, l1, [PluginStops(p, true)] + [OwnCloses, StoreCloses], t);
    assert [BeginStop] + ([PluginStops(p, true)] + [OwnCloses, StoreCloses]) == StopPlugin(p);
  }

  lemma ShutsDown(l: Life, p: string)
    requires l.stop.phase == PluginsStopping({p}) && l.stop.tour == NO_TOUR && l.order == []
    requires l.node.node.serverNode.Some? && p in l.node.node.plugins
    ensures var t := PluginStopped(l, p, true);
            && t.stop.phase.ServerClosing?
            && p in t.node.node.plugins && !t.node.node.plugins[p].locked
            && t.node.node.plugins[p].platform == l.node.node.plugins[p].platform
  {
    assert {p} - {p} == {};
  }

  /** From a new node of a dynamic platform: an add that creates the server node, a stop that completes, and an add that
      comes late; the stopped node has a server node again. */
  lemma OwnReturnsFromNew(l: Life, p: string, d: Device, d': Device)
    requires New(l) && l.plugin == Some(p) && l.node.node.mode.ChildBridge?
    requires p in l.node.node.plugins && l.node.node.plugins[p].platform.Dynamic? && !l.node.node.plugins[p].locked
    requires d.plugin == p && !d.mode.Server? && d'.plugin == p && !d'.mode.Server?
    ensures exists c: nat ::
              var es := Lift(R.AddSteps(p, d, 0)) + StopPlugin(p) + Lift(R.AddSteps(p, d', c));
              IsRun(l, es) && Exec(l, es).stop.phase.Stopped? && Exec(l, es).node.node.serverNode.Some?
  {
    FreshMap(l.node);
    var n1 := R.CreatesOwn(l.node, p, d);
    LiftRun(l, R.AddSteps(p, d, 0), n1);
    var l1 := Exec(l, Lift(R.AddSteps(p, d, 0)));
    if l1.order != [] { SomeKey(l1.node, l1.order); }
    var l2 := StopsPlugin(l1, p);
    RunJoin(l, Lift(R.AddSteps(p, d, 0)), StopPlugin(p));
    ReopensLate(l2, p, d');
    RunJoin(l, Lift(R.AddSteps(p, d, 0)) + StopPlugin(p), Lift(R.AddSteps(p, d', |l2.node.calls|)));
  }

  lemma SomeKey(s: P.State, order: seq<string>)
    requires MapInv(s, order) && order != []
    ensures s.node.dependants != map[]
  {
    assert order[0] in order;
    assert order[0] in s.node.dependants;
  }

  lemma ReopensLate(l: Life, p: string, d: Device)
    requires l.node.node.dependants == map[] && l.node.node.children == map[] && l.order == []
    requires l.node.node.mode.ChildBridge? && l.node.node.serverNode.None? && d.plugin == p && !d.mode.Server?
    requires p in l.node.node.plugins && l.node.node.plugins[p].platform.Dynamic? && !l.node.node.plugins[p].locked
    ensures var es := Lift(R.AddSteps(p, d, |l.node.calls|));
            IsRun(l, es) && Exec(l, es).stop == l.stop && Exec(l, es).node.node.serverNode.Some?
  {
    FreshMap(l.node);
    var n := R.CreatesOwn(l.node, p, d);
    LiftRun(l, R.AddSteps(p, d, |l.node.calls|), n);
  }
}
