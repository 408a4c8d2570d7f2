/**
 Which plugins `start` and `stop` ask (packages/core/src/matterNode.ts), read off the plugins' status at the moment they
 are asked, and what that status is after any run (packages/core/src/pluginManager.ts).
 */
module LifecycleAsked {
  import opened Optional
  import A = NodeAccounting
  import M = NodeManagement
  import opened NodeLifecycle
  import opened LifecycleStart
  import opened LifecycleStop

  // ---------- who is to be asked ----------

  /** A node for one plugin asks that plugin, the bridge every plugin that is enabled and loaded. */
  predicate Startable(l: Life, p: string) {
    if l.plugin.Some? then l.plugin.value == p
    else p in l.status && l.status[p].enabled && l.status[p].loaded
  }

  /** A node for one plugin asks that plugin, the bridge every plugin that is enabled and started. */
  predicate Live(l: Life, p: string) {
    if l.plugin.Some? then l.plugin.value == p
    else p in l.status && l.status[p].enabled && l.status[p].started
  }

  lemma AskedAtStart(l: Life, p: string)
    requires Enabled(l, BeginStart)
    ensures p in Step(l, BeginStart).start.asked <==> Startable(l, p)
  {}

  lemma AskedAtConfigure(l: Life, p: string)
    requires Enabled(l, OwnStarts)
    ensures p in Step(l, OwnStarts).start.configuring <==> Live(l, p)
  {}

  lemma AskedAtStop(l: Life, p: string)
    requires Enabled(l, BeginStop)
    ensures p in Step(l, BeginStop).stop.asked <==> Live(l, p)
  {}

  lemma {:induction false} StartAskedKept(l: Life, es: seq<Event>)
    requires IsRun(l, es) && BeginStart !in es
    ensures Exec(l, es).start.asked == l.start.asked
    decreases |es|
  {
    if es != [] {
      StartAskedStep(l, es[0]);
      StartAskedKept(Step(l, es[0]), es[1..]);
    }
  }

  lemma StartAskedStep(l: Life, e: Event)
    requires Enabled(l, e) && e != BeginStart
    ensures Step(l, e).start.asked == l.start.asked
    ensures e != OwnStarts ==> Step(l, e).start.configuring == l.start.configuring
  {}

  lemma {:induction false} ConfiguringKept(l: Life, es: seq<Event>)
    requires IsRun(l, es) && BeginStart !in es && OwnStarts !in es
    ensures Exec(l, es).start.configuring == l.start.configuring
    decreases |es|
  {
    if es != [] {
      StartAskedStep(l, es[0]);
      ConfiguringKept(Step(l, es[0]), es[1..]);
    }
  }

  lemma {:induction false} StopAskedKept(l: Life, es: seq<Event>)
    requires IsRun(l, es) && BeginStop !in es
    ensures Exec(l, es).stop.asked == l.stop.asked
    decreases |es|
  {
    if es != [] {
      StopAskedStep(l, es[0]);
      StopAskedKept(Step(l, es[0]), es[1..]);
    }
  }

  lemma StopAskedStep(l: Life, e: Event)
    requires Enabled(l, e) && e != BeginStop
    ensures Step(l, e).stop.asked == l.stop.asked
  {}

  /** Event `i` of a run, and the rest. */
  lemma SplitAt(l: Life, es: seq<Event>, i: nat)
    requires IsRun(l, es) && i < |es|
    ensures var u := Exec(l, es[..i]);
            && IsRun(l, es[..i]) && Enabled(u, es[i]) && IsRun(Step(u, es[i]), es[i + 1..])
            && Exec(l, es) == Exec(Step(u, es[i]), es[i + 1..])
    decreases |es|
  {
    if i == 0 {
      assert es[..0] == [];
    } else {
      var head := es[..i];
      assert head[0] == es[0] && head[1..] == es[1..][..i - 1] && es[1..][i..] == es[i + 1..];
      SplitAt(Step(l, es[0]), es[1..], i - 1);
    }
  }

  // ---------- over every run ----------

  /** In every run, with a start begun last at event `i`: only plugins that were enabled and loaded then (or the node's
      own plugin) are started, and when the own server node is started, as it is in every completed start, all of them
      have settled. */
  lemma StartsTheLoaded(l: Life, es: seq<Event>, i: nat)
    requires Unstarted(l) && IsRun(l, es) && i < |es| && es[i] == BeginStart && BeginStart !in es[i + 1..]
    ensures var u, st := Exec(l, es[..i]), Exec(l, es).start;
            && (forall p :: PluginUp(p) in st.log ==> Startable(u, p))
            && (st.phase.Started? ==> OwnUp in st.log)
            && (OwnUp in st.log ==> forall p :: Startable(u, p) ==> PluginUp(p) in st.log)
  {
    var u := Exec(l, es[..i]);
    StartRun(l, es);
    SplitAt(l, es, i);
    StartAskedKept(Step(u, BeginStart), es[i + 1..]);
    forall p ensures p in Exec(l, es).start.asked <==> Startable(u, p) { AskedAtStart(u, p); }
  }

  /** In every run, with the own server node's start settled last at event `i`: only plugins that were enabled and
      started then are configured, and in a completed start, and before any dependant, all of them are. */
  lemma ConfiguresTheStarted(l: Life, es: seq<Event>, i: nat)
    requires Unstarted(l) && IsRun(l, es) && i < |es| && es[i] == OwnStarts
    requires OwnStarts !in es[i + 1..] && BeginStart !in es[i + 1..]
    ensures var u, st := Exec(l, es[..i]), Exec(l, es).start;
            && (forall p :: PluginSet(p) in st.log ==> Live(u, p))
            && (st.phase.Started? || (exists c :: DependantUp(c) in st.log) ==>
                  forall p :: Live(u, p) ==> PluginSet(p) in st.log)
  {
    var u := Exec(l, es[..i]);
    StartRun(l, es);
    SplitAt(l, es, i);
    ConfiguringKept(Step(u, OwnStarts), es[i + 1..]);
    forall p ensures p in Exec(l, es).start.configuring <==> Live(u, p) { AskedAtConfigure(u, p); }
  }

  lemma StopAsks(l: Life, es: seq<Event>, i: nat, p: string)
    requires IsRun(l, es) && i < |es| && es[i] == BeginStop && BeginStop !in es[i + 1..]
    ensures p in Exec(l, es).stop.asked <==> Live(Exec(l, es[..i]), p)
  {
    var u := Exec(l, es[..i]);
    SplitAt(l, es, i);
    StopAskedKept(Step(u, BeginStop), es[i + 1..]);
    AskedAtStop(u, p);
  }

  /** In every run, with a stop begun last at event `i`: only plugins that were enabled and started then are shut down,
      and when anything is closed, as all is in a completed stop, all of them have settled. */
  lemma StopsTheStarted(l: Life, es: seq<Event>, i: nat)
    requires Unstopped(l) && IsRun(l, es) && i < |es| && es[i] == BeginStop && BeginStop !in es[i + 1..]
    ensures var u, st := Exec(l, es[..i]), Exec(l, es).stop;
            && (forall p :: PluginDown(p) in st.log ==> Live(u, p))
            && (st.phase.Stopped? ==> OwnClosed in st.log)
            && (OwnClosed in st.log || (exists c :: DependantClosed(c) in st.log) ==>
                  forall p :: Live(u, p) ==> PluginDown(p) in st.log)
  {
    StopInOrder(l, es);
    forall p ensures p in Exec(l, es).stop.asked <==> Live(Exec(l, es[..i]), p) { StopAsks(l, es, i, p); }
  }

  // ---------- the status itself ----------

  /** The event says what becomes of the status of `p`. */
  predicate Speaks(e: Event, p: string) {
    (e.Reload? && e.plugin == p) || ((e.PluginStarts? || e.PluginStops?) && e.plugin == p && e.ok)
  }

  predicate IsStarted(l: Life, p: string) {
    p in l.status && l.status[p].started
  }

  lemma StatusUntouched(l: Life, e: Event, p: string)
    requires Enabled(l, e) && !Speaks(e, p)
    ensures p in Step(l, e).status <==> p in l.status
    ensures p in l.status ==> Step(l, e).status[p] == l.status[p]
  {}

  lemma StatusSpoken(l: Life, e: Event, p: string)
    requires Enabled(l, e) && Speaks(e, p) && p in l.status
    ensures p in Step(l, e).status
    ensures Step(l, e).status[p].started <==> e.PluginStarts? || (e.Reload? && e.status.started)
    ensures Step(l, e).status[p].loaded <==>
              (e.PluginStarts? && l.status[p].loaded) || (e.Reload? && e.status.loaded)
    ensures !e.Reload? ==> Step(l, e).status[p].enabled == l.status[p].enabled
  {}

  lemma {:induction false} StatusKept(l: Life, es: seq<Event>, p: string)
    requires IsRun(l, es) && forall i :: 0 <= i < |es| ==> !Speaks(es[i], p)
    ensures p in Exec(l, es).status <==> p in l.status
    ensures p in l.status ==> Exec(l, es).status[p] == l.status[p]
    decreases |es|
  {
    if es != [] {
      StatusUntouched(l, es[0], p);
      StatusKept(Step(l, es[0]), es[1..], p);
    }
  }

  lemma {:induction false} StatusStays(l: Life, es: seq<Event>, p: string)
    requires IsRun(l, es) && p in l.status
    ensures p in Exec(l, es).status
    decreases |es|
  {
    if es != [] { StatusStays(Step(l, es[0]), es[1..], p); }
  }

  /** In every run, a known plugin counts as started if and only if the last event that says so was its start settling,
      or a reload as started, and not its shutdown settling. */
  lemma StartedIsHistory(l: Life, es: seq<Event>, i: nat, p: string)
    requires IsRun(l, es) && p in l.status && i < |es| && Speaks(es[i], p)
    requires forall j :: i < j < |es| ==> !Speaks(es[j], p)
    ensures IsStarted(Exec(l, es), p) <==> es[i].PluginStarts? || (es[i].Reload? && es[i].status.started)
  {
    var u := Exec(l, es[..i]);
    SplitAt(l, es, i);
    StatusStays(l, es[..i], p);
    StatusSpoken(u, es[i], p);
    StatusKept(Step(u, es[i]), es[i + 1..], p);
  }

  // ---------- a shutdown ----------

  /** A shutdown that settles well frees the plugin's lock and drops its counter, and touches no other plugin and
      nothing else of the node. */
  lemma ShutdownFrees(l: Life, p: string, q: string)
    requires Enabled(l, PluginStops(p, true))
    ensures var n, m := l.node.node, Step(l, PluginStops(p, true)).node.node;
            && m == n.(plugins := m.plugins) && m.plugins.Keys == n.plugins.Keys
            && !M.Locked(m, p) && !A.Counted(m, p)
            && (q in n.plugins && q != p ==> m.plugins[q] == n.plugins[q])
            && (p in n.plugins ==> m.plugins[p].platform == n.plugins[p].platform)
  {}
}
