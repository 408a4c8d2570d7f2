/**
 The endpoint tree of the node, and its map of dependants, after any run (packages/core/src/matterNode.ts).
 */
module NodeParts {
  import opened Optional
  import opened DeviceRegistry
  import opened NodeProtocol
  import opened NodeAccounting
  import opened NodeLocks
  import opened NodePlacement

  function Lookup(parts: map<Device, Parent>, d: Device): Option<Parent> {
    if d in parts then Some(parts[d]) else None
  }

  /** Where the `add` a call is waiting for puts its device. */
  function Landing(ph: Phase): Option<Parent> {
    match ph
    case SpawnAttaching(k) => Some(OnServer(k))
    case LockAttaching(k) => Some(OnServer(k))
    case Attaching(target) => target
    case _ => None
  }

  /** The event completes an attach or a delete of `d`. */
  predicate Touches(s: State, e: Event, d: Device) {
    && e.Resume? && e.ok && e.call < |s.calls|
    && var call := s.calls[e.call];
    || (call.job.Adding? && call.job.device == d && Landing(call.phase).Some?)
    || (call.job.Removing? && call.job.endpoint == d)
  }

  /** What it leaves: the parent, or nothing. */
  function Left(s: State, e: Event, d: Device): Option<Parent>
    requires Touches(s, e, d)
  {
    if s.calls[e.call].job.Adding? then Landing(s.calls[e.call].phase) else None
  }

  lemma AddTouches(n: Shared, c: nat, call: Call, rp: int, rd: int)
    requires call.job.Adding?
    ensures var out := AdvanceAdd(n, c, call, rp, rd); var to := Landing(call.phase);
            && out.node.parts == (if to.Some? then n.parts[call.job.device := to.value] else n.parts)
            && (to.Some? ==> CountedCall(out.call) && out.call.placed == to)
  {
    match call.phase
    case SpawnAttaching(_) =>
    case LockAttaching(_) =>
    case Attaching(_) =>
    case _ => NothingLands(n, c, call, rp, rd);
  }

  lemma NothingLands(n: Shared, c: nat, call: Call, rp: int, rd: int)
    requires call.job.Adding? && !call.phase.SpawnAttaching? && !call.phase.LockAttaching? && !call.phase.Attaching?
    ensures AdvanceAdd(n, c, call, rp, rd).node.parts == n.parts
  {
    match call.phase
    case Spawning =>
    case SpawnCreating(_) =>
    case LockContext =>
    case LockCreating(_) =>
    case HubSettled =>
    case Constructing =>
    case _ =>
  }

  lemma EntryTouches(n: Shared, c: nat, e: Event)
    requires Starts(e)
    ensures Entry(n, c, e).node.parts == n.parts
  {}

  /** One event changes the tree at most for one device, and an attach is recorded in its call. */
  lemma TouchStep(s: State, e: Event, d: Device)
    requires WellFormed(s) && Enabled(s, e)
    ensures Lookup(Step(s, e).node.parts, d) == if Touches(s, e, d) then Left(s, e, d) else Lookup(s.node.parts, d)
    ensures Touches(s, e, d) && s.calls[e.call].job.Adding? ==>
              CountedCall(Step(s, e).calls[e.call]) && Step(s, e).calls[e.call].placed == Left(s, e, d)
  {
    if Starts(e) {
      EntryTouches(s.node, |s.calls|, e);
    } else if e.Resume? && e.ok {
      assert PhaseFits(s.calls[e.call]);
      if s.calls[e.call].job.Adding? { AddTouches(s.node, e.call, s.calls[e.call], e.rp, e.rd); }
    }
  }

  ghost predicate TouchedAt(s: State, es: seq<Event>, i: nat, d: Device) {
    i < |es| && Touches(Exec(s, es[..i]), es[i], d)
  }

  /** The last event of the run that touches `d` is number `i`. */
  ghost predicate LastTouch(s: State, es: seq<Event>, i: nat, d: Device) {
    TouchedAt(s, es, i, d) && forall j: nat :: i < j < |es| ==> !TouchedAt(s, es, j, d)
  }

  /** For every run and every device, however often it is added and removed: its place in the tree is what the last
      completed attach or delete left, or what it was if there was none. */
  lemma {:induction false} TreeIsLastTouch(s: State, es: seq<Event>, d: Device)
    requires WellFormed(s) && IsRun(s, es)
    ensures forall i: nat :: LastTouch(s, es, i, d) ==>
              Lookup(Exec(s, es).node.parts, d) == Left(Exec(s, es[..i]), es[i], d)
    ensures (forall i: nat :: !TouchedAt(s, es, i, d)) ==> Lookup(Exec(s, es).node.parts, d) == Lookup(s.node.parts, d)
    decreases |es|
  {
    if es != [] {
      var n := |es| - 1;
      var before := es[..n];
      RunLast(s, es);
      TreeIsLastTouch(s, before, d);
      LastEvent(s, es, d);
      forall i: nat | LastTouch(s, es, i, d)
        ensures Lookup(Exec(s, es).node.parts, d) == Left(Exec(s, es[..i]), es[i], d)
      {
        if i < n { LastTouchShorter(s, es, i, d); }
      }
      if forall i: nat :: !TouchedAt(s, es, i, d) {
        forall i: nat ensures !TouchedAt(s, before, i, d) { if i < n { TouchPrefix(s, es, i, d); } }
      }
    }
  }

  lemma LastEvent(s: State, es: seq<Event>, d: Device)
    requires WellFormed(s) && IsRun(s, es) && es != []
    ensures var n := |es| - 1; var u := Exec(s, es[..n]);
            Lookup(Exec(s, es).node.parts, d) == if TouchedAt(s, es, n, d) then Left(u, es[n], d)
                else Lookup(u.node.parts, d)
  {
    RunLast(s, es);
    TouchStep(Exec(s, es[..|es| - 1]), es[|es| - 1], d);
  }

  lemma LastTouchShorter(s: State, es: seq<Event>, i: nat, d: Device)
    requires i < |es| - 1 && LastTouch(s, es, i, d)
    ensures LastTouch(s, es[..|es| - 1], i, d) && !TouchedAt(s, es, |es| - 1, d)
    ensures es[..|es| - 1][..i] == es[..i] && es[..|es| - 1][i] == es[i]
  {
    var before := es[..|es| - 1];
    TouchPrefix(s, es, i, d);
    forall j: nat | i < j < |before| ensures !TouchedAt(s, before, j, d) { TouchPrefix(s, es, j, d); }
  }

  lemma TouchPrefix(s: State, es: seq<Event>, i: nat, d: Device)
    requires i < |es| - 1
    ensures TouchedAt(s, es, i, d) <==> TouchedAt(s, es[..|es| - 1], i, d)
  {
    assert es[..|es| - 1][..i] == es[..i];
  }

  // ---------- dependants ----------

  /** A call has a dependant exactly if it spawned one, and the dependant's server node is the call's. */
  predicate ChildFits(n: Shared, c: nat, call: Call) {
    c in n.children ==> call.job.Adding? && call.job.device.mode.Server? && n.children[c].server == call.server
  }

  ghost predicate DependantsInv(s: State) {
    && (forall c :: 0 <= c < |s.calls| ==> ChildFits(s.node, c, s.calls[c]))
    && (forall c :: c in s.node.children ==> c < |s.calls|)
    && (forall id :: id in s.node.dependants ==> DependantFits(s, id))
  }

  predicate DependantFits(s: State, id: string)
    requires id in s.node.dependants
  {
    var c := s.node.dependants[id];
    c in s.node.children && c < |s.calls| && s.calls[c].job.Adding? && s.calls[c].job.device.id == id
  }

  /** A step of call `c` touches no other dependant, and no entry of the map except by spawning. */
  predicate ChildStep(n: Shared, c: nat, call: Call, m: Shared, call': Call) {
    && call'.job == call.job
    && m.dependants == n.dependants
    && m.children.Keys == n.children.Keys
    && (forall a :: a in n.children && a != c ==> m.children[a] == n.children[a])
    && ChildFits(m, c, call')
  }

  lemma HubChild(n: Shared, c: nat, call: Call, rp: int, rd: int)
    requires ChildFits(n, c, call) && CallPlace(n, c, call) && PhaseFits(call)
    ensures var out := AdvanceHub(n, c, call, rp, rd); ChildStep(n, c, call, out.node, out.call)
  {}

  lemma AddChild(n: Shared, c: nat, call: Call, rp: int, rd: int)
    requires ChildFits(n, c, call) && CallPlace(n, c, call) && PhaseFits(call) && call.job.Adding?
    ensures var out := AdvanceAdd(n, c, call, rp, rd); ChildStep(n, c, call, out.node, out.call)
  {
    if call.phase.HubContext? || call.phase.HubCreating? || call.phase.HubAggregating? || call.phase.HubJoining? {
      HubChild(n, c, call, rp, rd);
    }
  }

  lemma MoveChild(n: Shared, call: Call, e: Event)
    requires Moves(e) && ChildFits(n, e.call, call) && CallPlace(n, e.call, call) && PhaseFits(call)
    ensures var out := Move(n, call, e); ChildStep(n, e.call, call, out.node, out.call)
  {
    if e.Resume? && e.ok {
      match call.job
      case Booting => HubChild(n, e.call, call, e.rp, e.rd);
      case Adding(_, _) => AddChild(n, e.call, call, e.rp, e.rd);
      case Removing(_, _, _) =>
    }
  }

  lemma EntryChild(n: Shared, c: nat, e: Event)
    requires Starts(e)
    ensures var out := Entry(n, c, e);
            || (out.node.children == n.children && out.node.dependants == n.dependants)
            || (&& e.Add? && e.device.mode.Server? && out.call.job == Adding(e.plugin, e.device) &&
                   out.call.server.None?
                && out.node.children == n.children[c := Dependant(TakeAll(n.counters), None)]
                && out.node.dependants == n.dependants[e.device.id := c])
  {}

  lemma DependantsStep(s: State, e: Event)
    requires WellFormed(s) && PlaceInv(s) && DependantsInv(s) && Enabled(s, e)
    ensures DependantsInv(Step(s, e))
    ensures forall id :: id in s.node.dependants ==> id in Step(s, e).node.dependants
    ensures forall id :: id in s.node.dependants && !(e.Add? && e.device.id == id) ==>
              Step(s, e).node.dependants[id] == s.node.dependants[id]
  {
    var t := Step(s, e);
    if Starts(e) {
      EntryChild(s.node, |s.calls|, e);
    } else if Moves(e) {
      assert CallPlace(s.node, e.call, s.calls[e.call]) && PhaseFits(s.calls[e.call]);
      assert ChildFits(s.node, e.call, s.calls[e.call]);
      MoveChild(s.node, s.calls[e.call], e);
    }
    forall id | id in t.node.dependants ensures DependantFits(t, id) {
      if id in s.node.dependants { assert DependantFits(s, id); }
    }
    forall c | 0 <= c < |t.calls| ensures ChildFits(t.node, c, t.calls[c]) {
      if c < |s.calls| { assert ChildFits(s.node, c, s.calls[c]); }
    }
  }

  lemma {:induction false} DependantsRun(start: Counters, s: State, es: seq<Event>)
    requires Reached(start, s) && PlaceInv(s) && DependantsInv(s) && IsRun(s, es)
    ensures DependantsInv(Exec(s, es))
    ensures forall id :: id in s.node.dependants ==> id in Exec(s, es).node.dependants
    decreases |es|
  {
    if es != [] {
      DependantsStep(s, es[0]);
      ReachedStep(start, s, es[0]);
      PlaceInvStep(start, s, es[0]);
      DependantsRun(start, Step(s, es[0]), es[1..]);
    }
  }

  /** Once registered, a dependant stays in the map whatever becomes of its call; it has a server node
      if and only if the call that registered it got one, so a failed one stays without. */
  lemma FailedDependantStays(s: State, es: seq<Event>, id: string)
    requires Untouched(s) && s.node.children == map[] && s.node.dependants == map[] && IsRun(s, es)
    requires id in Exec(s, es).node.dependants
    ensures var t := Exec(s, es); var c := t.node.dependants[id];
            && c < |t.calls| && t.calls[c].job.Adding? && t.calls[c].job.device.id == id
            && c in t.node.children && t.node.children[c].server == t.calls[c].server
    ensures forall es' :: IsRun(Exec(s, es), es') ==> id in Exec(Exec(s, es), es').node.dependants
  {
    var start, t := s.node.counters, Exec(s, es);
    PlaceRun(start, s, es);
    DependantsRun(start, s, es);
    assert DependantFits(t, id);
    assert ChildFits(t.node, t.node.dependants[id], t.calls[t.node.dependants[id]]);
    forall es' | IsRun(t, es') ensures id in Exec(t, es').node.dependants { DependantsRun(start, t, es'); }
  }

  /** A dependant without server node does occur: on any untouched node, a complete device in server mode whose creation
      rejects leaves one in the map for good, and no call in flight. */
  lemma DependantWithoutServer(s: State, p: string, d: Device)
    requires Untouched(s) && p in s.node.plugins && d.plugin == p && d.mode.Server? && d.complete
    ensures var es := [Add(p, d), Resume(0, false, 0, 0)];
            var t := Exec(s, es);
            && IsRun(s, es) && Quiescent(t)
            && d.id in t.node.dependants && t.node.dependants[d.id] == 0
            && 0 in t.node.children && t.node.children[0].server.None?
  {
    var fail := Resume(0, false, 0, 0);
    var s1 := Step(s, Add(p, d));
    assert s1.calls[0].phase == Spawning;
    var t := Step(s1, fail);
    LeadsFirst(s1, fail, t, [], t);
    LeadsFirst(s, Add(p, d), s1, [fail] + [], t);
    assert [Add(p, d)] + ([fail] + []) == [Add(p, d), fail];
  }
}
