/**
 What holds of `start` in every run (packages/core/src/matterNode.ts): its barriers, its order, and the dependants it
 starts.
 */
module LifecycleStart {
  import opened Sequences
  import P = NodeProtocol
  import opened NodeLifecycle
  import opened LifecycleTours

  // ---------- logs in order ----------

  /** The phase of `start` or `stop` an action belongs to. */
  function Rank(a: Action): nat {
    match a
    case PluginUp(_) => 0
    case OwnUp => 1
    case PluginSet(_) => 2
    case DependantUp(_) => 3
    case PluginDown(_) => 0
    case DependantClosed(_) => 1
    case OwnClosed => 2
    case StoreClosed => 3
  }

  ghost predicate InOrder(log: seq<Action>) {
    forall i, j :: 0 <= i < j < |log| ==> Rank(log[i]) <= Rank(log[j])
  }

  /** In order, nothing twice, nothing beyond a phase. */
  ghost predicate Logged(log: seq<Action>, level: nat) {
    InOrder(log) && Distinct(log) && forall a :: a in log ==> Rank(a) <= level
  }

  lemma LogNext(log: seq<Action>, a: Action, level: nat)
    requires Logged(log, level) && a !in log && level <= Rank(a)
    ensures Logged(log + [a], Rank(a))
  {
    var log' := log + [a];
    forall i, j | 0 <= i < j < |log'| ensures Rank(log'[i]) <= Rank(log'[j]) && log'[i] != log'[j] {
      if j == |log| { assert log[i] in log; }
    }
  }

  // ---------- every event keeps the map and the loops ----------

  ghost predicate Moved(l: Life, t: Life) {
    Onward(l.node, l.order, t.node, t.order) && MapInv(t.node, t.order)
  }

  lemma InterleaveMoves(l: Life, e: P.Event)
    requires MapInv(l.node, l.order) && P.Enabled(l.node, e)
    ensures Moved(l, Interleave(l, e))
  {
    var t := P.Step(l.node, e);
    ProtocolFrame(l.node, e);
    if SameMap(l.node, t) { MapKept(l.node, t, l.order); } else { MapRegisters(l.node, e.device, t, l.order); }
  }

  lemma SameNodeMoves(l: Life, t: Life)
    requires MapInv(l.node, l.order) && t.order == l.order && JobsKept(l.node, t.node) && SameMap(l.node, t.node)
    ensures Moved(l, t)
  {
    MapKept(l.node, t.node, l.order);
  }

  /** Only events of the protocol, a plugin's shutdown and the own close touch the node at all. */
  lemma NodeAlone(l: Life, e: Event)
    requires Enabled(l, e) && !e.Protocol?
    ensures var t := Step(l, e); t.order == l.order && JobsKept(l.node, t.node) && SameMap(l.node, t.node)
  {}

  lemma EventMoves(l: Life, e: Event)
    requires MapInv(l.node, l.order) && Enabled(l, e)
    ensures Moved(l, Step(l, e))
  {
    if e.Protocol? {
      InterleaveMoves(l, e.e);
    } else {
      NodeAlone(l, e);
      SameNodeMoves(l, Step(l, e));
    }
  }

  // ---------- the invariant of start ----------

  function Level(ph: Starting): nat {
    match ph
    case ServerStarting => 1
    case PluginsConfiguring(_) => 2
    case DependantStarting => 3
    case Started => 3
    case StartFailed => 3
    case _ => 0
  }

  ghost predicate AllUp(st: Start) {
    forall p :: p in st.asked ==> PluginUp(p) in st.log
  }

  ghost predicate AllSet(st: Start) {
    forall p :: p in st.configuring ==> PluginSet(p) in st.log
  }

  /** Which plugins have settled, and which dependants have been started. */
  ghost predicate Settling(st: Start) {
    && (forall p :: PluginUp(p) in st.log ==> p in st.asked)
    && (forall p :: PluginSet(p) in st.log ==> p in st.configuring)
    && (forall c :: DependantUp(c) in st.log <==> c in st.tour.visits)
  }

  /** The barriers. */
  ghost predicate Barriers(st: Start) {
    && (st.phase.PluginsStarting? ==>
          OwnUp !in st.log && forall p :: p in st.asked ==> (PluginUp(p) in st.log <==> p !in st.phase.waiting))
    && (OwnUp in st.log ==> AllUp(st))
    && (forall p :: PluginSet(p) in st.log ==> OwnUp in st.log)
    && (st.phase.ServerStarting? || st.phase.PluginsConfiguring? || st.phase.DependantStarting? || st.phase.Started? ==>
          OwnUp in st.log)
    && (st.phase.ServerStarting? ==> forall p :: PluginSet(p) !in st.log)
    && (st.phase.PluginsConfiguring? ==> forall p :: p in st.configuring ==> (PluginSet(p) in st.log <==>
        p !in st.phase.waiting))
    && (st.phase.DependantStarting? || st.phase.Started? || st.tour.visits != [] ==> AllSet(st) && OwnUp in st.log)
  }

  ghost predicate LogInv(st: Start) {
    && Logged(st.log, Level(st.phase))
    && Settling(st) && Barriers(st)
    && (st.phase.PluginsStarting? ==> st.phase.waiting <= st.asked)
    && (st.phase.PluginsConfiguring? ==> st.phase.waiting <= st.configuring)
    && (Level(st.phase) < 3 ==> st.tour == NO_TOUR)
  }

  ghost predicate StartInv(l: Life) {
    && LogInv(l.start)
    && TourInv(l.node, l.order, l.start.tour)
    && (l.start.phase.Started? ==> TourEnded(l.node, l.order, l.start.tour, l.start.ended))
  }

  lemma StartKept(l: Life, t: Life)
    requires MapInv(l.node, l.order) && StartInv(l) && Moved(l, t) && t.start == l.start
    ensures StartInv(t)
  {
    TourKept(l.node, l.order, t.node, t.order, l.start.tour);
    if l.start.phase.Started? { EndedKept(l.node, l.order, t.node, t.order, l.start.tour, l.start.ended); }
  }

  // ---------- its steps ----------

  /** What a log needs before the next dependant. */
  ghost predicate ReadyLog(st: Start) {
    Logged(st.log, 3) && Settling(st) && OwnUp in st.log && AllUp(st) && AllSet(st)
  }

  lemma VisitLog(st: Start, c: nat, calls: nat)
    requires ReadyLog(st) && c !in st.tour.visits
    ensures LogInv(st.(phase := DependantStarting, log := st.log + [DependantUp(c)], tour := Visit(st.tour, c, calls)))
  {
    var tour := Visit(st.tour, c, calls);
    LogNext(st.log, DependantUp(c), 3);
    LoggedMembers(st.log, DependantUp(c));
    assert forall a :: a in tour.visits <==> a in st.tour.visits || a == c;
  }

  lemma EndLog(st: Start, ph: Starting, ended: nat)
    requires ReadyLog(st) && (ph.Started? || ph.StartFailed?)
    ensures LogInv(st.(phase := ph, ended := ended))
  {}

  /** Ready for the next dependant. */
  ghost predicate ReadyUp(l: Life) {
    MapInv(l.node, l.order) && TourInv(l.node, l.order, l.start.tour) && ReadyLog(l.start)
  }

  lemma NextUpInv(l: Life)
    requires ReadyUp(l)
    ensures StartInv(NextUp(l))
  {
    var st, i := l.start, |l.start.tour.visits|;
    if i >= |l.order| {
      EndNow(l.node, l.order, st.tour);
      EndLog(st, Started, |l.node.calls|);
    } else {
      VisitNext(l.node, l.order, st.tour);
      var c := l.node.node.dependants[l.order[i]];
      if HasServer(l, c) { VisitLog(st, c, |l.node.calls|); } else { EndLog(st, StartFailed, st.ended); }
    }
  }

  lemma LoggedMembers(log: seq<Action>, a: Action)
    ensures forall b :: b in log + [a] <==> b in log || b == a
  {}

  lemma StartOwnInv(l: Life)
    requires MapInv(l.node, l.order) && LogInv(l.start) && l.start.phase == PluginsStarting({})
    ensures StartInv(StartOwn(l))
  {
    var st := l.start;
    if l.node.node.serverNode.Some? {
      LogNext(st.log, OwnUp, 0);
      LoggedMembers(st.log, OwnUp);
    }
  }

  lemma ConfigureInv(l: Life)
    requires MapInv(l.node, l.order) && LogInv(l.start) && l.start.phase.ServerStarting?
    ensures StartInv(Configure(l))
  {
    var w := Running(l);
    var l' := l.(start := l.start.(configuring := w));
    if w == {} { NextUpInv(l'); }
  }

  lemma PluginStartedInv(l: Life, p: string, ok: bool)
    requires MapInv(l.node, l.order) && LogInv(l.start) && l.start.phase.PluginsStarting? && p in l.start.phase.waiting
    ensures StartInv(PluginStarted(l, p, ok))
  {
    var st, w := l.start, l.start.phase.waiting - {p};
    LogNext(st.log, PluginUp(p), 0);
    LoggedMembers(st.log, PluginUp(p));
    var l' := l.(
      status := if ok && p in l.status then l.status[p := l.status[p].(started := true)] else l.status,
      start := st.(phase := PluginsStarting(w), log := st.log + [PluginUp(p)]));
    assert LogInv(l'.start);
    if w == {} { StartOwnInv(l'); }
  }

  lemma PluginConfiguredInv(l: Life, p: string)
    requires MapInv(l.node, l.order) && LogInv(l.start) && l.start.phase.PluginsConfiguring? &&
             p in l.start.phase.waiting
    ensures StartInv(PluginConfigured(l, p))
  {
    var st, w := l.start, l.start.phase.waiting - {p};
    LogNext(st.log, PluginSet(p), 2);
    LoggedMembers(st.log, PluginSet(p));
    var l' := l.(start := st.(phase := PluginsConfiguring(w), log := st.log + [PluginSet(p)]));
    assert LogInv(l'.start);
    if w == {} { NextUpInv(l'); }
  }

  lemma EnterStartInv(l: Life)
    requires MapInv(l.node, l.order)
    ensures StartInv(EnterStart(l))
  {
    var w := ToStart(l);
    var l' := l.(start := Start(PluginsStarting(w), [], w, {}, NO_TOUR, 0));
    assert LogInv(l'.start);
    if w == {} { StartOwnInv(l'); }
  }

  lemma StartStep(l: Life, e: Event)
    requires MapInv(l.node, l.order) && StartInv(l) && Enabled(l, e)
    ensures StartInv(Step(l, e))
  {
    match e
    case BeginStart => EnterStartInv(l);
    case PluginStarts(p, ok) => PluginStartedInv(l, p, ok);
    case OwnStarts => ConfigureInv(l);
    case PluginConfigures(p) => PluginConfiguredInv(l, p);
    case DependantStarts => NextUpInv(l);
    case _ =>
      EventMoves(l, e);
      StartAlone(l, e);
      StartKept(l, Step(l, e));
  }

  lemma StartAlone(l: Life, e: Event)
    requires Enabled(l, e)
    requires !e.BeginStart? && !e.PluginStarts? && !e.OwnStarts? && !e.PluginConfigures? && !e.DependantStarts?
    ensures Step(l, e).start == l.start
  {}

  lemma {:induction false} StartRun(l: Life, es: seq<Event>)
    requires MapInv(l.node, l.order) && StartInv(l) && IsRun(l, es)
    ensures MapInv(Exec(l, es).node, Exec(l, es).order) && StartInv(Exec(l, es))
    decreases |es|
  {
    if es != [] {
      EventMoves(l, es[0]);
      StartStep(l, es[0]);
      StartRun(Step(l, es[0]), es[1..]);
    }
  }

  // ---------- the theorems ----------

  /** Nothing is starting, and the map is as the protocol leaves it. */
  ghost predicate Unstarted(l: Life) {
    MapInv(l.node, l.order) && l.start == Start(NotStarting, [], {}, {}, NO_TOUR, 0)
  }

  /** In every run, whatever is added, created, removed, reloaded or stopped in between: the own server node is started
      only once every plugin start asked for has settled; plugins are configured only after that attempt, and all of
      them before any dependant is started; nothing is done twice. */
  lemma StartInOrder(l: Life, es: seq<Event>)
    requires Unstarted(l) && IsRun(l, es)
    ensures var st := Exec(l, es).start;
            && InOrder(st.log) && Distinct(st.log)
            && (OwnUp in st.log ==> AllUp(st))
            && (forall p :: PluginSet(p) in st.log ==> OwnUp in st.log)
            && (forall c :: DependantUp(c) in st.log ==> OwnUp in st.log && AllSet(st))
            && (st.phase.Started? ==> OwnUp in st.log && AllSet(st))
  {
    StartRun(l, es);
  }

  /** After a completed start, in every run: a dependant has been started, and then once, if and only if it was in the
      map when its key's turn came, that is neither registered after it nor replaced before it. */
  lemma StartsEachOnce(l: Life, es: seq<Event>, k: nat, c: nat)
    requires Unstarted(l) && IsRun(l, es)
    requires var t := Exec(l, es);
             t.start.phase.Started? && k < |t.order| && c in t.node.node.children && HasKey(t.node, c, t.order[k])
    ensures var t := Exec(l, es);
            && Distinct(t.start.log)
            && |t.start.tour.seen| == |t.start.tour.visits|
            && (DependantUp(c) in t.start.log <==>
                  !Late(t.order, t.start.tour, t.start.ended, k, c) && !Replaced(t.start.tour, k, c))
  {
    StartRun(l, es);
    var t := Exec(l, es);
    VisitedExactly(t.node, t.order, t.start.tour, t.start.ended, k, c);
  }

  lemma RunTwo(l: Life, a: Event, b: Event)
    requires Enabled(l, a) && Enabled(Step(l, a), b)
    ensures IsRun(l, [a, b]) && Exec(l, [a, b]) == Step(Step(l, a), b)
  {
    var m := Step(l, a);
    assert [a, b][1..] == [b] && [b][1..] == [];
    assert IsRun(Step(m, b), []) && Exec(Step(m, b), []) == Step(m, b);
    assert IsRun(m, [b]) && Exec(m, [b]) == Step(m, b);
  }

  /** A dependant that is still being created when its turn comes, or whose creation has failed, ends a start: on a
      bridge whose only dependant has no server node, the start fails although the own server node is up. */
  lemma PendingDependantFailsStart(l: Life, id: string)
    requires Unstarted(l) && l.plugin.None? && ToStart(l) == {} && Running(l) == {} && l.node.node.serverNode.Some?
    requires l.order == [id] && !HasServer(l, l.node.node.dependants[id])
    ensures var es := [BeginStart, OwnStarts];
            IsRun(l, es) && Exec(l, es).start.phase.StartFailed? && OwnUp in Exec(l, es).start.log
  {
    var l1 := Step(l, BeginStart);
    assert l1.start.phase.ServerStarting? && l1.start.log == [OwnUp];
    assert Running(l1) == {};
    RunTwo(l, BeginStart, OwnStarts);
  }
}
