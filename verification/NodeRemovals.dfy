/**
 What `removeBridgedEndpoint` and a round of `removeAllBridgedEndpoints` do to the endpoint tree over whole runs
 (packages/core/src/matterNode.ts).
 */
module NodeRemovals {
  import opened Optional
  import opened DeviceRegistry
  import opened NodeProtocol
  import opened NodeAccounting
  import opened NodeParts

  // ---------- entering ----------

  /** A device of a known plugin that hangs in the node's own tree: it has no server node of its own, and the node is a
      bridge, or a childbridge for an accessory or dynamic platform. */
  predicate InTree(n: Shared, p: string, d: Device) {
    && p in n.plugins && !d.ownServer
    && (n.mode.Bridge? || (n.mode.ChildBridge? && (n.plugins[p].platform.Accessory? || n.plugins[p].platform.Dynamic?)))
  }

  /** The endpoint it would be deleted from is not there: the server node for an accessory, else the aggregator. */
  predicate Bereft(n: Shared, p: string, d: Device) {
    && InTree(n, p, d)
    && if n.mode.ChildBridge? && n.plugins[p].platform.Accessory? then n.serverNode.None? else n.aggregator.None?
  }

  /** In every state: a removal is refused at its entry if and only if the plugin is unknown or the endpoint to delete
      from is missing, and then nothing changes.  It waits for the delete, having changed nothing, if and only if the
      device hangs in the node's tree; any other device is counted down at once, and nothing else changes. */
  lemma RemoveEntry(s: State, p: string, d: Device)
    requires d.plugin == p
    ensures var t, c := Step(s, Remove(p, d)), |s.calls|;
            && |t.calls| == c + 1 && t.calls[..c] == s.calls && t.calls[c].job == Job.Removing(p, d, d)
            && (t.calls[c].phase.Refused? <==> p !in s.node.plugins || Bereft(s.node, p, d))
            && (t.calls[c].phase.Deleting? <==> InTree(s.node, p, d) && !Bereft(s.node, p, d))
            && (t.calls[c].phase.Refused? || t.calls[c].phase.Deleting? ==> t.node == s.node)
            && (p in s.node.plugins && !InTree(s.node, p, d) ==>
                  && t.calls[c].phase.Unsetting? && t.node.(plugins := s.node.plugins) == s.node
                  && Counter(t.node, p) == Counter(s.node, p) - if Counted(s.node, p) then 1 else 0)
  {}

  /** In every state: a round of a purge is refused if and only if the plugin is unknown or no endpoint was found, and
      otherwise it waits for the delete of the one found; it changes nothing yet. */
  lemma PurgeEntry(s: State, p: string, d: Device, found: Option<Device>)
    requires Enabled(s, Purge(p, d, found))
    ensures var t, c := Step(s, Purge(p, d, found)), |s.calls|;
            && t.node == s.node && |t.calls| == c + 1 && t.calls[..c] == s.calls
            && (t.calls[c].phase.Refused? <==> p !in s.node.plugins || found.None?)
            && (!t.calls[c].phase.Refused? ==>
                  t.calls[c].phase.Deleting? && t.calls[c].job == Job.Removing(p, d, found.value))
  {}

  /** In every state a lookup has an answer: it is under the current aggregator if that has an endpoint with the id,
      else under the current server node if that has one, and else there is none. */
  lemma LookupExactly(n: Shared, id: string)
    ensures exists found :: Finds(n, id, found)
    ensures forall found :: Finds(n, id, found) ==>
              if exists y :: UnderHub(n, y, id) then found.Some? && UnderHub(n, found.value, id)
              else if exists y :: UnderServer(n, y, id) then found.Some? && UnderServer(n, found.value, id)
              else found.None?
    ensures forall x :: UnderHub(n, x, id) ==>
              x.id == id && x in n.parts && n.aggregator.Some? && n.parts[x] == OnAggregator(n.aggregator.value)
    ensures forall x :: UnderServer(n, x, id) ==>
              x.id == id && x in n.parts && n.serverNode.Some? && n.parts[x] == OnServer(n.serverNode.value)
  {
    if y :| UnderHub(n, y, id) {
      assert Finds(n, id, Some(y));
    } else if y :| UnderServer(n, y, id) {
      assert Finds(n, id, Some(y));
    } else {
      assert Finds(n, id, None);
    }
  }

  // ---------- over every run ----------

  predicate CountedDown(call: Call) {
    call.job.Removing?
    && (call.phase.Unsetting? || call.phase.UnsettingLate? || call.phase.Settled? || call.phase.Dropped?)
  }

  /** Event `j` of the run completes the delete of `x` that call `c` waits for, and `x` is out of the tree. */
  ghost predicate DeletedAt(s: State, es: seq<Event>, j: nat, c: nat, x: Device) {
    && j < |es| && es[j].Resume? && es[j].call == c && TouchedAt(s, es, j, x)
    && x !in Exec(s, es[..j + 1]).node.parts
  }

  lemma DeletedLater(s: State, es: seq<Event>, j: nat, c: nat, x: Device)
    requires es != [] && Enabled(s, es[0]) && DeletedAt(Step(s, es[0]), es[1..], j, c, x)
    ensures DeletedAt(s, es, j + 1, c, x)
  {
    var next, later := es[..j + 1], es[..j + 2];
    assert next[0] == es[0] && next[1..] == es[1..][..j];
    assert later[0] == es[0] && later[1..] == es[1..][..j + 1];
  }

  /** Only a completed delete counts a waiting removal down. */
  lemma DeletesNow(s: State, es: seq<Event>, c: nat)
    requires WellFormed(s) && es != [] && Enabled(s, es[0]) && c < |s.calls|
    requires s.calls[c].job.Removing? && !CountedDown(s.calls[c]) && CountedDown(Step(s, es[0]).calls[c])
    ensures DeletedAt(s, es, 0, c, s.calls[c].job.endpoint)
  {
    assert PhaseFits(s.calls[c]);
    assert es[..0] == [] && es[..1] == [es[0]] && [es[0]][1..] == [];
    assert Exec(s, es[..1]) == Step(s, es[0]);
    TouchStep(s, es[0], s.calls[c].job.endpoint);
  }

  lemma {:induction false} DeletionExists(s: State, es: seq<Event>, c: nat)
    requires WellFormed(s) && IsRun(s, es) && c < |s.calls| && c < |Exec(s, es).calls|
    requires s.calls[c].job.Removing? && !CountedDown(s.calls[c]) && CountedDown(Exec(s, es).calls[c])
    ensures exists j: nat :: DeletedAt(s, es, j, c, s.calls[c].job.endpoint)
    decreases |es|
  {
    var s1 := Step(s, es[0]);
    JobsStay(s, es[0]);
    if CountedDown(s1.calls[c]) {
      DeletesNow(s, es, c);
    } else {
      WellFormedStep(s, es[0]);
      DeletionExists(s1, es[1..], c);
      var j: nat :| DeletedAt(s1, es[1..], j, c, s.calls[c].job.endpoint);
      DeletedLater(s, es, j, c, s.calls[c].job.endpoint);
    }
  }

  /** Event `i` of the run is where the removal `job`, call `c`, enters. */
  ghost predicate RemovalAt(s: State, es: seq<Event>, i: nat, c: nat, job: Job) {
    && job.Removing? && i < |es| && |Exec(s, es[..i]).calls| == c
    && (es[i] == Remove(job.plugin, job.device) || es[i] == Purge(job.plugin, job.device, Some(job.endpoint)))
    && (es[i].Remove? ==> job.endpoint == job.device)
  }

  /** The removal has to delete: it is a round of a purge, or the device hangs in the node's tree. */
  predicate MustDelete(n: Shared, e: Event) {
    e.Purge? || (e.Remove? && InTree(n, e.plugin, e.device))
  }

  ghost predicate DeletedAfter(s: State, es: seq<Event>, i: nat, c: nat, x: Device) {
    exists j: nat :: i < j && DeletedAt(s, es, j, c, x)
  }

  ghost predicate DeletesAsDue(s: State, es: seq<Event>, i: nat, c: nat, job: Job) {
    && RemovalAt(s, es, i, c, job)
    && (MustDelete(Exec(s, es[..i]).node, es[i]) ==> DeletedAfter(s, es, i, c, job.endpoint))
  }

  lemma EntersDue(n: Shared, c: nat, e: Event)
    requires Starts(e) && Entry(n, c, e).call.job.Removing? && !Entry(n, c, e).call.phase.Refused?
    ensures var job := Entry(n, c, e).call.job;
            && (e == Remove(job.plugin, job.device) || e == Purge(job.plugin, job.device, Some(job.endpoint)))
            && (e.Remove? ==> job.endpoint == job.device)
    ensures MustDelete(n, e) ==> !CountedDown(Entry(n, c, e).call)
  {}

  lemma EntersNow(s: State, es: seq<Event>, c: nat)
    requires WellFormed(s) && IsRun(s, es) && es != [] && c == |s.calls| < |Step(s, es[0]).calls|
    requires c < |Exec(s, es).calls| && CountedDown(Exec(s, es).calls[c])
    ensures DeletesAsDue(s, es, 0, c, Exec(s, es).calls[c].job)
  {
    var s1, job := Step(s, es[0]), Exec(s, es).calls[c].job;
    JobStays(s1, es[1..], c);
    if s1.calls[c].phase.Refused? { RefusedRun(s1, es[1..], c); }
    assert s1.calls[c] == Entry(s.node, c, es[0]).call;
    EntersDue(s.node, c, es[0]);
    assert es[..0] == [];
    WellFormedStep(s, es[0]);
    if MustDelete(s.node, es[0]) {
      DeletionExists(s1, es[1..], c);
      var j: nat :| DeletedAt(s1, es[1..], j, c, job.endpoint);
      DeletedLater(s, es, j, c, job.endpoint);
    }
  }

  /** In every run, a removal that has been counted down, and had to delete, has deleted its endpoint from the tree
      after it entered. */
  lemma {:induction false} RemovalsDelete(s: State, es: seq<Event>, c: nat)
    requires WellFormed(s) && IsRun(s, es) && |s.calls| <= c < |Exec(s, es).calls|
    requires CountedDown(Exec(s, es).calls[c])
    ensures exists i: nat :: DeletesAsDue(s, es, i, c, Exec(s, es).calls[c].job)
    decreases |es|
  {
    var s1, job := Step(s, es[0]), Exec(s, es).calls[c].job;
    if c < |s1.calls| {
      EntersNow(s, es, c);
    } else {
      WellFormedStep(s, es[0]);
      RemovalsDelete(s1, es[1..], c);
      var i: nat :| DeletesAsDue(s1, es[1..], i, c, job);
      DueLater(s, es, i, c, job);
    }
  }

  lemma DueLater(s: State, es: seq<Event>, i: nat, c: nat, job: Job)
    requires es != [] && Enabled(s, es[0]) && DeletesAsDue(Step(s, es[0]), es[1..], i, c, job)
    ensures DeletesAsDue(s, es, i + 1, c, job)
  {
    var head := es[..i + 1];
    assert head[0] == es[0] && head[1..] == es[1..][..i];
    if MustDelete(Exec(s, head).node, es[i + 1]) {
      var j: nat :| i < j && DeletedAt(Step(s, es[0]), es[1..], j, c, job.endpoint);
      DeletedLater(s, es, j, c, job.endpoint);
    }
  }

  // ---------- and it stays away ----------

  ghost predicate AttachedAt(s: State, es: seq<Event>, k: nat, x: Device) {
    TouchedAt(s, es, k, x) && Exec(s, es[..k]).calls[es[k].call].job.Adding?
  }

  lemma {:induction false} LastOneExists(s: State, es: seq<Event>, j: nat, x: Device)
    requires TouchedAt(s, es, j, x)
    ensures exists k: nat :: j <= k && LastTouch(s, es, k, x)
    decreases |es| - j
  {
    if k: nat :| j < k < |es| && TouchedAt(s, es, k, x) {
      LastOneExists(s, es, k, x);
    } else {
      assert LastTouch(s, es, j, x);
    }
  }

  /** A deleted endpoint is absent at the end of the run unless an add has attached it again since. */
  lemma GoneUnlessAttached(s: State, es: seq<Event>, j: nat, c: nat, x: Device)
    requires WellFormed(s) && IsRun(s, es) && DeletedAt(s, es, j, c, x) && x in Exec(s, es).node.parts
    ensures exists k: nat :: j < k && AttachedAt(s, es, k, x)
  {
    LastOneExists(s, es, j, x);
    var k: nat :| j <= k && LastTouch(s, es, k, x);
    TreeIsLastTouch(s, es, x);
    assert AttachedAt(s, es, k, x);
    if k == j { DeletedLeaves(s, es, j, c, x); }
  }

  lemma DeletedLeaves(s: State, es: seq<Event>, j: nat, c: nat, x: Device)
    requires WellFormed(s) && IsRun(s, es) && DeletedAt(s, es, j, c, x)
    ensures !AttachedAt(s, es, j, x)
  {
    var upto := es[..j + 1];
    RunSplit(s, es, j + 1);
    RunLast(s, upto);
    assert upto[..j] == es[..j];
    LastEvent(s, upto, x);
  }
}
