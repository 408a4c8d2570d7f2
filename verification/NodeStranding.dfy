/**
 A creation that fails under the lock: the lock stays taken, nothing is created, and devices are counted without a
 parent until the plugin is shut down (packages/core/src/matterNode.ts).
 */
module NodeStranding {
  import opened Optional
  import opened DeviceRegistry
  import opened NodeProtocol
  import opened NodeAccounting
  import opened NodeLocks
  import opened NodePlacement
  import opened NodeShapes
  import opened NodeOrphans

  predicate HubPlugin(n: Shared, p: string) {
    n.mode.ChildBridge? && p in n.plugins && n.plugins[p].platform.Dynamic?
  }

  /** The lock of `p` is taken, nothing has been created and nobody is creating anything. */
  ghost predicate Stranded(s: State, p: string) {
    && HubPlugin(s.node, p) && s.node.plugins[p].locked
    && s.node.serverNode.None? && s.node.aggregator.None?
    && forall c :: 0 <= c < |s.calls| ==> Quiet(s.calls[c].phase)
  }

  predicate Quiet(ph: Phase) {
    !Unassigned(ph) && !ph.HubAggregating? && !ph.LockAttaching? && !ph.HubJoining?
  }

  /** Events of a one-plugin childbridge node between two shutdowns of the plugin. */
  predicate Within(e: Event, p: string) {
    !e.Boot? && (e.Add? ==> e.plugin == p) && e != Unlock(p)
  }

  lemma StrandedEntry(n: Shared, c: nat, e: Event, p: string)
    requires Starts(e) && Within(e, p) && HubPlugin(n, p) && n.plugins[p].locked && n.serverNode.None? &&
             n.aggregator.None?
    ensures var out := Entry(n, c, e);
            && HubPlugin(out.node, p) && out.node.plugins[p].locked && out.node.serverNode.None? &&
               out.node.aggregator.None?
            && Quiet(out.call.phase)
  {}

  /** A call that creates nothing leaves pointers alone and at most counts its device. */
  lemma QuietAdds(n: Shared, c: nat, call: Call, rp: int, rd: int)
    requires call.job.Adding? && Quiet(call.phase)
    ensures var out := AdvanceAdd(n, c, call, rp, rd);
            && out.node.mode == n.mode && out.node.serverNode == n.serverNode && out.node.aggregator == n.aggregator
            && (out.node.plugins == n.plugins || out.node.plugins == Tally(n.plugins, call.job.plugin, 1))
            && Quiet(out.call.phase)
  {
    match call.phase
    case Spawning =>
    case SpawnCreating(_) =>
    case SpawnAttaching(_) =>
    case HubSettled =>
    case Attaching(_) =>
    case Constructing =>
    case _ =>
  }

  lemma QuietMoves(n: Shared, call: Call, e: Event)
    requires Moves(e) && Quiet(call.phase) && PhaseFits(call)
    requires e.Deliver? ==> Posted(call)
    ensures var out := Move(n, call, e);
            && out.node.mode == n.mode && out.node.serverNode == n.serverNode && out.node.aggregator == n.aggregator
            && SameLocks(n.plugins, out.node.plugins)
            && Quiet(out.call.phase)
  {
    if e.Resume? && e.ok && call.job.Adding? {
      QuietAdds(n, e.call, call, e.rp, e.rd);
      TallyLocks(n.plugins, call.job.plugin, 1);
    } else if !call.job.Booting? {
      MovePast(n, call, e);
      if call.job.Removing? { TallyLocks(n.plugins, call.job.plugin, -1); }
    }
  }

  lemma StrandedStep(s: State, e: Event, p: string)
    requires WellFormed(s) && Stranded(s, p) && Enabled(s, e) && Within(e, p)
    ensures Stranded(Step(s, e), p)
  {
    if Starts(e) {
      StrandedEntry(s.node, |s.calls|, e, p);
    } else if Moves(e) {
      QuietMoves(s.node, s.calls[e.call], e);
    }
  }

  lemma {:induction false} StrandedForGood(s: State, es: seq<Event>, p: string)
    requires WellFormed(s) && Stranded(s, p) && IsRun(s, es)
    requires forall i :: 0 <= i < |es| ==> Within(es[i], p)
    ensures Stranded(Exec(s, es), p)
    decreases |es|
  {
    if es != [] {
      assert Within(es[0], p);
      WellFormedStep(s, es[0]);
      StrandedStep(s, es[0], p);
      StrandedForGood(Step(s, es[0]), es[1..], p);
    }
  }

  /** Until the plugin is shut down, no device added to a stranded node ever gets a parent, though it may be counted. */
  lemma StrandedDevicesAreOrphans(start: Counters, s: State, es: seq<Event>, p: string, c: nat)
    requires Sound(start, s) && Stranded(s, p) && IsRun(s, es)
    requires forall i :: 0 <= i < |es| ==> Within(es[i], p)
    requires |s.calls| <= c < |Exec(s, es).calls|
    requires var call := Exec(s, es).calls[c]; CountedCall(call) && IsHub(Exec(s, es).node, call)
    ensures Exec(s, es).calls[c].placed.None?
  {
    PickExists(start, s, es, c);
    var call := Exec(s, es).calls[c];
    var i :| PickedAt(s, es, i, c, call.job.device, call.placed);
    StrandedPick(s, es, p, i, c, call.job.device, call.placed);
  }

  lemma StrandedPick(s: State, es: seq<Event>, p: string, i: nat, c: nat, d: Device, parent: Option<Parent>)
    requires WellFormed(s) && Stranded(s, p) && IsRun(s, es) && PickedAt(s, es, i, c, d, parent)
    requires forall k :: 0 <= k < |es| ==> Within(es[k], p)
    ensures parent.None?
  {
    RunSplit(s, es, i);
    StrandedForGood(s, es[..i], p);
  }

  /** Two events strand a fresh node: the first add takes the lock and its creation fails. */
  lemma FailedCreationStrands(s: State, p: string, d: Device)
    requires Untouched(s) && HubPlugin(s.node, p) && d.plugin == p && !d.mode.Server?
    ensures var es := [Add(p, d), Resume(0, false, 0, 0)]; IsRun(s, es) && Stranded(Exec(s, es), p)
  {
    var es := [Add(p, d), Resume(0, false, 0, 0)];
    var s1 := Step(s, es[0]);
    assert EnterAdd(s.node, 0, p, d) == EnterDynamic(s.node, p, d);
    assert s1.calls[0].phase == HubContext;
    var s2 := Step(s1, es[1]);
    assert es[1..] == [es[1]] && es[1..][1..] == [];
    assert Exec(s1, [es[1]]) == Exec(s2, []);
  }
}
