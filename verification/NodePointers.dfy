/**
 What `serverNode` and `aggregatorNode` of the node point to (packages/core/src/matterNode.ts): the server node and the
 aggregator created last for the node itself, never one created for a device in server mode.
 */
module NodePointers {
  import opened Optional
  import opened DeviceRegistry
  import opened NodeProtocol
  import opened NodeAccounting

  // ---------- who makes which server node ----------

  predicate ForDevice(job: Job) {
    job.Adding? && job.device.mode.Server?
  }

  /** Dependants are created for devices in server mode, the node's own server node for all others. */
  predicate CallMode(call: Call) {
    && (call.phase.Spawning? || call.phase.SpawnCreating? ==> ForDevice(call.job))
    && (call.phase.LockContext? || call.phase.LockCreating? || call.phase.HubContext? || call.phase.HubCreating? ==>
          !ForDevice(call.job))
  }

  ghost predicate Recorded(s: State) {
    && (forall c :: 0 <= c < |s.calls| ==> CallMode(s.calls[c]))
    && (forall j :: 0 <= j < |s.node.servers| ==> s.node.servers[j].call < |s.calls|)
  }

  /** Server node `j` is, or was, this node's own. */
  predicate OwnMade(s: State, j: nat) {
    j < |s.node.servers| && s.node.servers[j].call < |s.calls| && !ForDevice(s.calls[s.node.servers[j].call].job)
  }

  /** A step makes at most one server node and one aggregator; its own, if it makes it, is assigned. */
  predicate OwnEffect(n: Shared, c: nat, job: Job, m: Shared) {
    && (|| (m.servers == n.servers && m.serverNode == n.serverNode)
        || (&& |m.servers| == |n.servers| + 1 && m.servers[..|n.servers|] == n.servers
            && m.servers[|n.servers|].call == c
            && m.serverNode == if ForDevice(job) then n.serverNode else Some(|n.servers|)))
    && (|| (m.hubs == n.hubs && m.aggregator == n.aggregator)
        || (m.hubs == n.hubs + [c] && m.aggregator == Some(|n.hubs|)))
  }

  lemma HubOwn(n: Shared, c: nat, call: Call, rp: int, rd: int)
    requires CallMode(call)
    ensures var out := AdvanceHub(n, c, call, rp, rd); OwnEffect(n, c, call.job, out.node) && CallMode(out.call)
  {}

  lemma AddOwn(n: Shared, c: nat, call: Call, rp: int, rd: int)
    requires CallMode(call) && call.job.Adding?
    ensures var out := AdvanceAdd(n, c, call, rp, rd); OwnEffect(n, c, call.job, out.node) && CallMode(out.call)
  {
    HubOwn(n, c, call, rp, rd);
  }

  lemma MoveOwn(n: Shared, call: Call, e: Event)
    requires Moves(e) && CallMode(call)
    ensures var out := Move(n, call, e); OwnEffect(n, e.call, call.job, out.node) && CallMode(out.call)
  {
    if e.Resume? && e.ok {
      match call.job
      case Booting => HubOwn(n, e.call, call, e.rp, e.rd);
      case Adding(_, _) => AddOwn(n, e.call, call, e.rp, e.rd);
      case Removing(_, _, _) =>
    }
  }

  lemma EntryOwn(n: Shared, c: nat, e: Event)
    requires Starts(e)
    ensures var out := Entry(n, c, e);
            && out.node.servers == n.servers && out.node.serverNode == n.serverNode
            && out.node.hubs == n.hubs && out.node.aggregator == n.aggregator
            && CallMode(out.call)
  {
    EntryLight(n, c, e);
    EntryJob(n, c, e);
    if e.Add? && e.device.mode.Server? { ServerEntry(n, c, e.plugin, e.device); }
  }

  lemma ServerEntry(n: Shared, c: nat, p: string, d: Device)
    requires d.mode.Server?
    ensures var ph := EnterAdd(n, c, p, d).call.phase; ph.Spawning? || ph.Refused?
  {}

  lemma ProtocolOwn(s: State, e: Event)
    requires Recorded(s) && Enabled(s, e)
    ensures Recorded(Step(s, e))
    ensures var c := if Moves(e) then e.call else 0; var job := if Moves(e) then s.calls[c].job else Booting;
            OwnEffect(s.node, c, job, Step(s, e).node)
  {
    var t := Step(s, e);
    if Starts(e) {
      var out := Entry(s.node, |s.calls|, e);
      EntryOwn(s.node, |s.calls|, e);
      assert t == State(out.node, s.calls + [out.call]);
    } else if Moves(e) {
      var out := Move(s.node, s.calls[e.call], e);
      assert CallMode(s.calls[e.call]);
      MoveOwn(s.node, s.calls[e.call], e);
      assert t == State(out.node, s.calls[e.call := out.call]);
      RecordedMove(s, e.call, s.calls[e.call].job, t);
    } else {
      assert t == State(Manage(s.node, e), s.calls);
    }
  }

  lemma RecordedMove(s: State, c: nat, job: Job, t: State)
    requires Recorded(s) && c < |s.calls| && OwnEffect(s.node, c, job, t.node)
    requires |t.calls| == |s.calls| && CallMode(t.calls[c])
    requires forall a :: 0 <= a < |s.calls| && a != c ==> t.calls[a] == s.calls[a]
    ensures Recorded(t)
  {
    forall j | 0 <= j < |t.node.servers| ensures t.node.servers[j].call < |t.calls| {
      if j < |s.node.servers| { assert t.node.servers[j] == t.node.servers[..|s.node.servers|][j]; }
    }
  }

  // ---------- what the pointers say ----------

  /** The node's server node is its own made last, and there is none exactly if it has made none. */
  ghost predicate LastOwn(s: State) {
    match s.node.serverNode
    case None => forall j :: 0 <= j < |s.node.servers| ==> !OwnMade(s, j)
    case Some(k) => OwnMade(s, k) && forall j :: k < j < |s.node.servers| ==> !OwnMade(s, j)
  }

  ghost predicate LastHub(n: Shared) {
    n.aggregator == if n.hubs == [] then None else Some(|n.hubs| - 1)
  }

  ghost predicate Pointing(s: State) {
    Recorded(s) && LastOwn(s) && LastHub(s.node)
  }

  lemma LastOwnAfter(s: State, c: nat, t: State)
    requires Pointing(s) && Recorded(t) && |s.calls| <= |t.calls|
    requires forall a :: 0 <= a < |s.calls| ==> t.calls[a].job == s.calls[a].job
    requires c < |s.calls| && OwnEffect(s.node, c, s.calls[c].job, t.node)
    ensures LastOwn(t) && LastHub(t.node)
  {
    var n := |s.node.servers|;
    forall j | 0 <= j < n ensures OwnMade(t, j) <==> OwnMade(s, j) {
      assert t.node.servers[j] == t.node.servers[..n][j] == s.node.servers[j];
    }
    if |t.node.servers| > n { assert OwnMade(t, n) <==> !ForDevice(s.calls[c].job); }
  }

  lemma LastOwnSame(s: State, t: State)
    requires Pointing(s) && |s.calls| <= |t.calls|
    requires forall a :: 0 <= a < |s.calls| ==> t.calls[a].job == s.calls[a].job
    requires t.node.servers == s.node.servers && t.node.serverNode == s.node.serverNode
    requires t.node.hubs == s.node.hubs && t.node.aggregator == s.node.aggregator
    ensures LastOwn(t) && LastHub(t.node)
  {
    assert forall j: nat :: OwnMade(t, j) <==> OwnMade(s, j);
  }

  lemma OwnUntouched(s: State, e: Event)
    requires Enabled(s, e) && !Moves(e)
    ensures var m := Step(s, e).node;
            m.servers == s.node.servers && m.serverNode == s.node.serverNode
            && m.hubs == s.node.hubs && m.aggregator == s.node.aggregator
  {
    if Starts(e) { EntryOwn(s.node, |s.calls|, e); }
  }

  lemma PointingStep(s: State, e: Event)
    requires Pointing(s) && Enabled(s, e)
    ensures Pointing(Step(s, e))
  {
    ProtocolOwn(s, e);
    JobsStay(s, e);
    if Moves(e) {
      LastOwnAfter(s, e.call, Step(s, e));
    } else {
      OwnUntouched(s, e);
      LastOwnSame(s, Step(s, e));
    }
  }

  /** In every run the node's server node is the one created last by a boot or for a device not in server mode, its
      aggregator the one created last, and each is there exactly if one has been created. */
  lemma {:induction false} PointersAreLast(s: State, es: seq<Event>)
    requires Pointing(s) && IsRun(s, es)
    ensures Pointing(Exec(s, es))
    decreases |es|
  {
    if es != [] {
      PointingStep(s, es[0]);
      PointersAreLast(Step(s, es[0]), es[1..]);
    }
  }
}
