/**
 `start` and `stop` of a MatterNode (packages/core/src/matterNode.ts) as calls cut at their awaits, on top of the
 endpoint protocol: plugin promises settle one by one, dependants are visited through the live map, and every event of
 the protocol (adds, spawns, creations, removes) may come in between.
 */
module NodeLifecycle {
  import opened Optional
  import P = NodeProtocol

  // ---------- state ----------

  datatype Status = Status(enabled: bool, loaded: bool, started: bool)

  datatype Action =
    | PluginUp(plugin: string)        // a plugin's start has settled
    | OwnUp                           // starting the own server node
    | PluginSet(plugin: string)       // a plugin's configure has settled
    | DependantUp(node: nat)          // starting a dependant
    | PluginDown(plugin: string)      // a plugin's shutdown has settled
    | DependantClosed(node: nat)      // a dependant's server node is closed
    | OwnClosed                       // the own server node is closed
    | StoreClosed

  /** The dependants a loop has visited, and how many calls there had been at each visit. */
  datatype Tour = Tour(visits: seq<nat>, seen: seq<nat>)

  datatype Starting =
    | NotStarting
    | PluginsStarting(waiting: set<string>)      // Promise.all of the starts
    | ServerStarting
    | PluginsConfiguring(waiting: set<string>)   // Promise.all of the configures
    | DependantStarting
    | Started
    | StartFailed

  datatype Stopping =
    | NotStopping
    | PluginsStopping(waiting: set<string>)      // Promise.all of the shutdowns
    | DependantClosing(node: nat)
    | DependantFreeing(node: nat)                // its storage and environment
    | ServerClosing
    | StoreClosing
    | Stopped
    | StopFailed

  /** A call of `start`: the plugins it started and configured, its loop, and how many calls there were at its end. */
  datatype Start = Start(
    phase: Starting, log: seq<Action>, asked: set<string>, configuring: set<string>, tour: Tour, ended: nat)

  /** A call of `stop`: also the dependants closed before it, and how many server nodes and aggregators had been created
      when it closed its own. */
  datatype Stop = Stop(
    phase: Stopping, log: seq<Action>, asked: set<string>, before: set<nat>, tour: Tour, ended: nat,
    servers: nat, hubs: nat)

  /** A node with its plugins.  Dependants go by the number of the call that spawned them; `order` lists the keys of
      their map in insertion order, `closed` those whose server node has been closed. */
  datatype Life = Life(
    node: P.State,
    plugin: Option<string>,
    status: map<string, Status>,
    order: seq<string>,
    closed: set<nat>,
    start: Start,
    stop: Stop)

  datatype Event =
    | Protocol(e: P.Event)
    | Reload(plugin: string, status: Status)     // whatever else changes a plugin
    | BeginStart
    | PluginStarts(plugin: string, ok: bool)
    | OwnStarts                                  // or fails to, or times out
    | PluginConfigures(plugin: string)
    | DependantStarts
    | BeginStop
    | PluginStops(plugin: string, ok: bool)
    | DependantCloses
    | DependantFrees
    | OwnCloses
    | StoreCloses

  /** The dependant has a server node now. */
  predicate HasServer(l: Life, c: nat) {
    c in l.node.node.children && l.node.node.children[c].server.Some? && c !in l.closed
  }

  function ToStart(l: Life): set<string> {
    match l.plugin
    case Some(q) => {q}
    case None => set p | p in l.status && l.status[p].enabled && l.status[p].loaded
  }

  /** To configure, or to shut down. */
  function Running(l: Life): set<string> {
    match l.plugin
    case Some(q) => {q}
    case None => set p | p in l.status && l.status[p].enabled && l.status[p].started
  }

  const NO_TOUR := Tour([], [])

  function Visit(t: Tour, c: nat, calls: nat): Tour {
    Tour(t.visits + [c], t.seen + [calls])
  }

  // ---------- start ----------

  /** The loop over the dependants, from the entry after those visited: the next one, or the end, or a dependant
      without server node, which throws. */
  function NextUp(l: Life): (r: Life)
    ensures r.node == l.node && r.order == l.order && r.closed == l.closed && r.stop == l.stop
  {
    var st, i, calls := l.start, |l.start.tour.visits|, |l.node.calls|;
    if i >= |l.order| then l.(start := st.(phase := Started, ended := calls))
    else if l.order[i] in l.node.node.dependants && HasServer(l, l.node.node.dependants[l.order[i]]) then
      var c := l.node.node.dependants[l.order[i]];
      l.(start := st.(phase := DependantStarting, log := st.log + [DependantUp(c)], tour := Visit(st.tour, c, calls)))
    else l.(start := st.(phase := StartFailed))
  }

  /** All plugin starts have settled. */
  function StartOwn(l: Life): (r: Life)
    ensures r.node == l.node && r.order == l.order && r.closed == l.closed && r.stop == l.stop
  {
    if l.node.node.serverNode.None? then l.(start := l.start.(phase := StartFailed))
    else l.(start := l.start.(phase := ServerStarting, log := l.start.log + [OwnUp]))
  }

  function Configure(l: Life): (r: Life)
    ensures r.node == l.node && r.order == l.order && r.closed == l.closed && r.stop == l.stop
  {
    var w := Running(l);
    var l' := l.(start := l.start.(configuring := w));
    if w == {} then NextUp(l') else l'.(start := l'.start.(phase := PluginsConfiguring(w)))
  }

  function EnterStart(l: Life): (r: Life)
    ensures r.node == l.node && r.order == l.order && r.closed == l.closed && r.stop == l.stop
  {
    var w := ToStart(l);
    var l' := l.(start := Start(PluginsStarting(w), [], w, {}, NO_TOUR, 0));
    if l.plugin.None? && l.node.node.serverNode.None? then l'.(start := l'.start.(phase := StartFailed))
    else if w == {} then StartOwn(l') else l'
  }

  function PluginStarted(l: Life, p: string, ok: bool): (r: Life)
    requires l.start.phase.PluginsStarting?
    ensures r.node == l.node && r.order == l.order && r.closed == l.closed && r.stop == l.stop
  {
    var w := l.start.phase.waiting - {p};
    var l' := l.(
      status := if ok && p in l.status then l.status[p := l.status[p].(started := true)] else l.status,
      start := l.start.(phase := PluginsStarting(w), log := l.start.log + [PluginUp(p)]));
    if w == {} then StartOwn(l') else l'
  }

  function PluginConfigured(l: Life, p: string): (r: Life)
    requires l.start.phase.PluginsConfiguring?
    ensures r.node == l.node && r.order == l.order && r.closed == l.closed && r.stop == l.stop
  {
    var w := l.start.phase.waiting - {p};
    var l' := l.(start := l.start.(phase := PluginsConfiguring(w), log := l.start.log + [PluginSet(p)]));
    if w == {} then NextUp(l') else l'
  }

  // ---------- stop ----------

  /** The loop over the dependants, and what follows it. */
  function NextDown(l: Life): (r: Life)
    ensures r.node == l.node && r.order == l.order && r.closed == l.closed && r.start == l.start
  {
    var st, i, calls := l.stop, |l.stop.tour.visits|, |l.node.calls|;
    if i >= |l.order| then
      l.(stop := st.(phase := if l.node.node.serverNode.None? then StopFailed else ServerClosing, ended := calls))
    else if l.order[i] in l.node.node.dependants && HasServer(l, l.node.node.dependants[l.order[i]]) then
      var c := l.node.node.dependants[l.order[i]];
      l.(stop := st.(phase := DependantClosing(c), tour := Visit(st.tour, c, calls)))
    else l.(stop := st.(phase := StopFailed))
  }

  function EnterStop(l: Life): (r: Life)
    ensures r.node == l.node && r.order == l.order && r.closed == l.closed && r.start == l.start
  {
    var w := Running(l);
    var l' := l.(stop := Stop(PluginsStopping(w), [], w, l.closed, NO_TOUR, 0, 0, 0));
    if l.node.node.serverNode.None? then l'.(stop := l'.stop.(phase := StopFailed))
    else if w == {} then NextDown(l') else l'
  }

  /** A plugin's shutdown clears its lock, its counter and its status. */
  ghost function ShutDown(l: Life, p: string): (r: Life)
    ensures r.order == l.order && r.closed == l.closed && r.start == l.start && r.stop == l.stop
    ensures r.node == l.node.(node := l.node.node.(plugins := r.node.node.plugins))
  {
    l.(node := if p in l.node.node.plugins then P.Step(P.Step(l.node, P.Unlock(p)), P.Uncount(p)) else l.node,
       status := if p in l.status then l.status[p := l.status[p].(loaded := false, started := false)] else l.status)
  }

  ghost function PluginStopped(l: Life, p: string, ok: bool): (r: Life)
    requires l.stop.phase.PluginsStopping?
    ensures r.order == l.order && r.closed == l.closed && r.start == l.start
    ensures r.node == l.node.(node := l.node.node.(plugins := r.node.node.plugins))
  {
    var w := l.stop.phase.waiting - {p};
    var l' := (if ok then ShutDown(l, p) else l).(
      stop := l.stop.(phase := PluginsStopping(w), log := l.stop.log + [PluginDown(p)]));
    if w == {} then NextDown(l') else l'
  }

  function CloseDependant(l: Life): Life
    requires l.stop.phase.DependantClosing?
  {
    var c := l.stop.phase.node;
    l.(closed := l.closed + {c},
       stop := l.stop.(phase := DependantFreeing(c), log := l.stop.log + [DependantClosed(c)]))
  }

  function CloseOwn(l: Life): Life {
    l.(node := l.node.(node := l.node.node.(serverNode := None, aggregator := None)),
       stop := l.stop.(phase := StoreClosing, log := l.stop.log + [OwnClosed],
                       servers := |l.node.node.servers|, hubs := |l.node.node.hubs|))
  }

  // ---------- one event ----------

  ghost predicate Enabled(l: Life, e: Event) {
    match e
    case Protocol(e) => P.Enabled(l.node, e)
    case Reload(_, _) => true
    case BeginStart => l.start.phase.NotStarting? || l.start.phase.Started? || l.start.phase.StartFailed?
    case PluginStarts(p, _) => l.start.phase.PluginsStarting? && p in l.start.phase.waiting
    case OwnStarts => l.start.phase.ServerStarting?
    case PluginConfigures(p) => l.start.phase.PluginsConfiguring? && p in l.start.phase.waiting
    case DependantStarts => l.start.phase.DependantStarting?
    case BeginStop => l.stop.phase.NotStopping? || l.stop.phase.Stopped? || l.stop.phase.StopFailed?
    case PluginStops(p, _) => l.stop.phase.PluginsStopping? && p in l.stop.phase.waiting
    case DependantCloses => l.stop.phase.DependantClosing?
    case DependantFrees => l.stop.phase.DependantFreeing?
    case OwnCloses => l.stop.phase.ServerClosing?
    case StoreCloses => l.stop.phase.StoreClosing?
  }

  /** An event of the protocol; a new key goes to the end of the map. */
  ghost function Interleave(l: Life, e: P.Event): Life
    requires P.Enabled(l.node, e)
  {
    var t := P.Step(l.node, e);
    l.(node := t,
       order := if e.Add? && e.device.id in t.node.dependants && e.device.id !in l.node.node.dependants
                then l.order + [e.device.id] else l.order)
  }

  ghost function Step(l: Life, e: Event): Life
    requires Enabled(l, e)
  {
    match e
    case Protocol(e) => Interleave(l, e)
    case Reload(p, st) => l.(status := l.status[p := st])
    case BeginStart => EnterStart(l)
    case PluginStarts(p, ok) => PluginStarted(l, p, ok)
    case OwnStarts => Configure(l)
    case PluginConfigures(p) => PluginConfigured(l, p)
    case DependantStarts => NextUp(l)
    case BeginStop => EnterStop(l)
    case PluginStops(p, ok) => PluginStopped(l, p, ok)
    case DependantCloses => CloseDependant(l)
    case DependantFrees => NextDown(l)
    case OwnCloses => CloseOwn(l)
    case StoreCloses => l.(stop := l.stop.(phase := Stopped, log := l.stop.log + [StoreClosed]))
  }

  ghost predicate IsRun(l: Life, es: seq<Event>)
    decreases |es|
  {
    es == [] || (Enabled(l, es[0]) && IsRun(Step(l, es[0]), es[1..]))
  }

  ghost function Exec(l: Life, es: seq<Event>): Life
    decreases |es|
  {
    if es == [] || !Enabled(l, es[0]) then l else Exec(Step(l, es[0]), es[1..])
  }
}
