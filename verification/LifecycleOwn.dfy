/**
 The node's own server node and aggregator after a completed stop: there exactly if a creation in flight has assigned
 them since (packages/core/src/matterNode.ts).
 */
module LifecycleOwn {
  import opened Optional
  import P = NodeProtocol
  import opened NodePointers
  import opened NodeLifecycle
  import opened LifecycleTours

  // ---------- after the close ----------

  /** Assigned since the close, and only then. */
  ghost predicate SinceClose(s: P.State, servers: nat, hubs: nat) {
    && servers <= |s.node.servers| && hubs <= |s.node.hubs|
    && (s.node.serverNode.Some? <==> exists j :: servers <= j < |s.node.servers| && OwnMade(s, j))
    && (s.node.aggregator.Some? <==> |s.node.hubs| > hubs)
  }

  ghost predicate OwnInv(l: Life) {
    && Recorded(l.node)
    && (l.stop.phase.StoreClosing? || l.stop.phase.Stopped? ==> SinceClose(l.node, l.stop.servers, l.stop.hubs))
  }

  lemma SinceKept(s: P.State, e: P.Event, servers: nat, hubs: nat)
    requires Recorded(s) && P.Enabled(s, e) && SinceClose(s, servers, hubs)
    ensures SinceClose(P.Step(s, e), servers, hubs)
  {
    ProtocolOwn(s, e);
    ProtocolFrame(s, e);
    if P.Moves(e) {
      SinceAfter(s, e.call, s.calls[e.call].job, P.Step(s, e), servers, hubs);
    } else {
      OwnUntouched(s, e);
      SinceSame(s, P.Step(s, e), servers, hubs);
    }
  }

  lemma SinceSame(s: P.State, t: P.State, servers: nat, hubs: nat)
    requires Recorded(s) && JobsKept(s, t) && SinceClose(s, servers, hubs)
    requires t.node.servers == s.node.servers && t.node.serverNode == s.node.serverNode
    requires t.node.hubs == s.node.hubs && t.node.aggregator == s.node.aggregator
    ensures SinceClose(t, servers, hubs)
  {
    assert forall j: nat :: OwnMade(t, j) <==> OwnMade(s, j);
  }

  lemma SinceAfter(s: P.State, c: nat, job: P.Job, t: P.State, servers: nat, hubs: nat)
    requires Recorded(s) && JobsKept(s, t) && SinceClose(s, servers, hubs)
    requires c < |s.calls| && s.calls[c].job == job && OwnEffect(s.node, c, job, t.node)
    ensures SinceClose(t, servers, hubs)
  {
    forall j | 0 <= j < |s.node.servers| ensures OwnMade(t, j) <==> OwnMade(s, j) {
      assert t.node.servers[j] == t.node.servers[..|s.node.servers|][j] == s.node.servers[j];
    }
    var n := |s.node.servers|;
    if |t.node.servers| > n { assert OwnMade(t, n) <==> !ForDevice(job); }
    if s.node.serverNode.Some? {
      var j :| servers <= j < n && OwnMade(s, j);
      assert OwnMade(t, j);
    }
  }

  lemma MakersAlone(l: Life, e: Event)
    requires Recorded(l.node) && Enabled(l, e) && !e.Protocol?
    ensures Recorded(Step(l, e).node)
  {
    NodeCalls(l, e);
  }

  lemma NodeCalls(l: Life, e: Event)
    requires Enabled(l, e) && !e.Protocol?
    ensures Step(l, e).node.calls == l.node.calls && Step(l, e).node.node.servers == l.node.node.servers
    ensures Step(l, e).node.node.hubs == l.node.node.hubs
    ensures !e.OwnCloses? ==>
              Step(l, e).node.node.serverNode == l.node.node.serverNode &&
                  Step(l, e).node.node.aggregator == l.node.node.aggregator
  {}

  /** Only the own close leads to the last two phases. */
  lemma LastPhases(l: Life, e: Event)
    requires Enabled(l, e) && !e.OwnCloses?
    ensures var st := Step(l, e).stop;
            st.phase.StoreClosing? || st.phase.Stopped? ==>
              (l.stop.phase.StoreClosing? || l.stop.phase.Stopped?) && st.servers == l.stop.servers &&
                  st.hubs == l.stop.hubs
  {}

  lemma OwnStep(l: Life, e: Event)
    requires OwnInv(l) && Enabled(l, e)
    ensures OwnInv(Step(l, e))
  {
    var t := Step(l, e);
    if e.Protocol? {
      ProtocolOwn(l.node, e.e);
      if l.stop.phase.StoreClosing? || l.stop.phase.Stopped? { SinceKept(l.node, e.e, l.stop.servers, l.stop.hubs); }
    } else {
      MakersAlone(l, e);
      NodeCalls(l, e);
      if !e.OwnCloses? {
        LastPhases(l, e);
        if t.stop.phase.StoreClosing? || t.stop.phase.Stopped? {
          SinceSame(l.node, t.node, l.stop.servers, l.stop.hubs);
        }
      }
    }
  }

  /** After a completed stop, in every run: the node has a server node of its own if and only if a creation has made one
      since the close, and an aggregator if and only if one has been made since. */
  lemma {:induction false} StopLeavesOwn(l: Life, es: seq<Event>)
    requires OwnInv(l) && IsRun(l, es)
    ensures OwnInv(Exec(l, es))
    ensures var t := Exec(l, es);
            t.stop.phase.Stopped? ==>
              && (t.node.node.serverNode.Some? <==>
                   exists j :: t.stop.servers <= j < |t.node.node.servers| && OwnMade(t.node, j))
              && (t.node.node.aggregator.Some? <==> |t.node.node.hubs| > t.stop.hubs)
    decreases |es|
  {
    if es != [] {
      OwnStep(l, es[0]);
      StopLeavesOwn(Step(l, es[0]), es[1..]);
    }
  }
}
