/**
 Whose server node or aggregator a counted device sits on (packages/core/src/matterNode.ts): in every run the one the
 node had for itself when the device got its parent, made by a boot or under a plugin's lock.
 */
module NodeParents {
  import opened Optional
  import opened DeviceRegistry
  import opened NodeProtocol
  import opened NodeAccounting
  import opened NodeLocks
  import opened NodePlacement
  import opened NodeShapes
  import opened NodePointers
  import opened NodeOrphans

  /** `parent` is the node's own in `u`: its server node, the last one created for the node itself by a boot or under
      a lock, never for a device in server mode; or its aggregator, the last one created, by a boot or under a lock. */
  ghost predicate NodesOwn(u: State, parent: Parent) {
    match parent
    case OnServer(k) =>
      && u.node.serverNode == Some(k) && OwnMade(u, k) && Maker(u.calls, u.node.servers[k].call)
      && forall j :: k < j < |u.node.servers| ==> !OwnMade(u, j)
    case OnAggregator(k) =>
      && u.node.aggregator == Some(k) && k + 1 == |u.node.hubs|
      && u.node.hubs[k] < |u.calls| && Maker(u.calls, u.node.hubs[k])
  }

  ghost predicate OwnAt(s: State, es: seq<Event>, i: nat, parent: Parent) {
    i <= |es| && NodesOwn(Exec(s, es[..i]), parent)
  }

  lemma PointsOwn(start: Counters, u: State)
    requires Sound(start, u) && Pointing(u)
    ensures u.node.serverNode.Some? ==> NodesOwn(u, OnServer(u.node.serverNode.value))
    ensures u.node.aggregator.Some? ==> NodesOwn(u, OnAggregator(u.node.aggregator.value))
  {
    MakersOf(start, u);
  }

  lemma OwnThen(s: State, es: seq<Event>, i: nat)
    requires Untouched(s) && IsRun(s, es) && i <= |es|
    ensures var u := Exec(s, es[..i]);
            && (u.node.serverNode.Some? ==> OwnAt(s, es, i, OnServer(u.node.serverNode.value)))
            && (u.node.aggregator.Some? ==> OwnAt(s, es, i, OnAggregator(u.node.aggregator.value)))
  {
    RunSplit(s, es, i);
    UntouchedSound(s);
    SoundRun(s.node.counters, s, es[..i]);
    PointersAreLast(s, es[..i]);
    PointsOwn(s.node.counters, Exec(s, es[..i]));
  }

  // ---------- an accessory's own creation ----------

  /** A call of an accessory platform creates at most one server node, and it is then the node's own. */
  lemma LockServer(n: Shared, call: Call, e: Event)
    requires Moves(e) && Shape(Locks, call)
    requires e.Resume? ==> Resumable(call.phase)
    ensures var out := Move(n, call, e);
            out.call.server == call.server || (call.server.None? && out.node.serverNode == out.call.server)
  {}

  ghost predicate MadeAt(s: State, es: seq<Event>, i: nat, k: nat) {
    i <= |es| && Exec(s, es[..i]).node.serverNode == Some(k)
  }

  lemma MadeLater(s: State, es: seq<Event>, i: nat, k: nat)
    requires es != [] && Enabled(s, es[0]) && MadeAt(Step(s, es[0]), es[1..], i, k)
    ensures MadeAt(s, es, i + 1, k)
  {
    ExecShift(s, es, i);
  }

  /** The server node an accessory's call has created was the node's own at some moment of the run. */
  lemma {:induction false} MadeItself(start: Counters, s: State, es: seq<Event>, c: nat)
    requires Sound(start, s) && IsRun(s, es) && c < |Exec(s, es).calls|
    requires c < |s.calls| ==> s.calls[c].server.None?
    requires Exec(s, es).calls[c].server.Some? && KindOf(Exec(s, es).node, Exec(s, es).calls[c].job).Locks?
    ensures exists i: nat :: MadeAt(s, es, i, Exec(s, es).calls[c].server.value)
    decreases |es|
  {
    var s1, rest, k := Step(s, es[0]), es[1..], Exec(s, es).calls[c].server.value;
    SoundStep(start, s, es[0]);
    if c < |s1.calls| && s1.calls[c].server.Some? {
      JobPersists(start, s1, rest, c);
      KindsPersist(start, s1, rest, s1.calls[c].job);
      ServerStays(start, s1, rest, c);
      MakesNow(start, s, es[0], c);
      assert Exec(s1, rest[..0]) == s1;
      assert MadeAt(s1, rest, 0, k);
      MadeLater(s, es, 0, k);
    } else {
      MadeItself(start, s1, rest, c);
      var i: nat :| MadeAt(s1, rest, i, k);
      MadeLater(s, es, i, k);
    }
  }

  lemma MakesNow(start: Counters, s: State, e: Event, c: nat)
    requires Sound(start, s) && Enabled(s, e) && c < |Step(s, e).calls| && (c < |s.calls| ==> s.calls[c].server.None?)
    requires KindOf(Step(s, e).node, Step(s, e).calls[c].job).Locks? && Step(s, e).calls[c].server.Some?
    ensures Step(s, e).node.serverNode == Step(s, e).calls[c].server
  {
    StepGrows(start, s, e);
    SameKinds(s.node, Step(s, e).node, Step(s, e).calls[c].job);
    if c < |s.calls| {
      StepKind(start, s, e, c);
      if Moves(e) && e.call == c {
        assert Shape(Locks, s.calls[c]);
        LockServer(s.node, s.calls[c], e);
      }
    } else {
      EntryBare(s.node, c, e);
    }
  }

  lemma EntryBare(n: Shared, c: nat, e: Event)
    requires Starts(e)
    ensures Entry(n, c, e).call.server.None?
  {}

  lemma {:induction false} ServerStays(start: Counters, s: State, es: seq<Event>, c: nat)
    requires Sound(start, s) && IsRun(s, es) && c < |s.calls| && s.calls[c].server.Some?
    requires KindOf(s.node, s.calls[c].job).Locks?
    ensures c < |Exec(s, es).calls| && Exec(s, es).calls[c].server == s.calls[c].server
    decreases |es|
  {
    if es != [] {
      SoundStep(start, s, es[0]);
      StepKind(start, s, es[0], c);
      if Moves(es[0]) && es[0].call == c {
        assert Shape(Locks, s.calls[c]);
        LockServer(s.node, s.calls[c], es[0]);
      }
      ServerStays(start, Step(s, es[0]), es[1..], c);
    }
  }

  // ---------- every counted device ----------

  /** The parent settled when the add entered at event `i` was the node's own: then, or when its call had made it. */
  lemma SettledOwnAt(s: State, es: seq<Event>, i: nat, c: nat)
    requires Untouched(s) && IsRun(s, es) && i <= |es| && c < |Exec(s, es).calls|
    requires var call := Exec(s, es).calls[c];
             CountedCall(call) && call.placed.Some? && EntrySettles(s, es, i, call)
    requires var job := Exec(s, es).calls[c].job; KindOf(Exec(s, es).node, job) == KindOf(Exec(s, es[..i]).node, job)
    ensures exists k: nat :: OwnAt(s, es, k, Exec(s, es).calls[c].placed.value)
  {
    var call, n := Exec(s, es).calls[c], Exec(s, es[..i]).node;
    OwnThen(s, es, i);
    match call.placed.value
    case OnServer(k) =>
      if n.serverNode == Some(k) {
        assert OwnAt(s, es, i, OnServer(k));
      } else {
        UntouchedSound(s);
        MadeItself(s.node.counters, s, es, c);
        var j: nat :| MadeAt(s, es, j, k);
        OwnThen(s, es, j);
      }
    case OnAggregator(k) => assert OwnAt(s, es, i, OnAggregator(k));
  }

  lemma EntryOwnAt(s: State, es: seq<Event>, c: nat)
    requires Untouched(s) && IsRun(s, es) && c < |Exec(s, es).calls|
    requires var call := Exec(s, es).calls[c]; CountedCall(call) && call.placed.Some?
    requires var kind := KindOf(Exec(s, es).node, Exec(s, es).calls[c].job); kind.Locks? || kind.Bridges?
    ensures var call := Exec(s, es).calls[c];
            && (exists i: nat :: OwnAt(s, es, i, call.placed.value))
            && (call.placed.value.OnAggregator? <==>
                  !call.job.device.mode.Matter? && !KindOf(Exec(s, es).node, call.job).Locks?)
  {
    var start, call := s.node.counters, Exec(s, es).calls[c];
    UntouchedSound(s);
    EntryParents(start, s, es, c);
    var i: nat :| EntersAt(s, es, i, c, call) && EntrySettles(s, es, i, call);
    EntryKindKept(s, es, i, call.job);
    SettledOwnAt(s, es, i, c);
  }

  lemma EntryKindKept(s: State, es: seq<Event>, i: nat, job: Job)
    requires Untouched(s) && IsRun(s, es) && i <= |es|
    ensures KindOf(Exec(s, es).node, job) == KindOf(Exec(s, es[..i]).node, job)
  {
    UntouchedSound(s);
    RunSplit(s, es, i);
    SoundRun(s.node.counters, s, es[..i]);
    KindsPersist(s.node.counters, Exec(s, es[..i]), es[i..], job);
  }

  lemma PickOwnAt(s: State, es: seq<Event>, c: nat)
    requires Untouched(s) && IsRun(s, es) && c < |Exec(s, es).calls|
    requires var call := Exec(s, es).calls[c]; CountedCall(call) && call.placed.Some? && IsHub(Exec(s, es).node, call)
    ensures var call := Exec(s, es).calls[c];
            && (exists i: nat :: OwnAt(s, es, i, call.placed.value))
            && (call.placed.value.OnAggregator? <==> !call.job.device.mode.Matter?)
  {
    var call := Exec(s, es).calls[c];
    OrphansOnlyInWindow(s, es, c);
    var i :| PickedAt(s, es, i, c, call.job.device, call.placed);
    OwnThen(s, es, i);
  }

  /** In every run, a counted device that is not in server mode and has a parent sits on what the node had for itself
      at some moment of the run: on its server node, made by a boot or under a plugin's lock and never for a device in
      server mode, or on its aggregator.  It is the aggregator exactly if the device is not in matter mode and its
      plugin is not an accessory platform of a childbridge. */
  lemma ParentsAreOwn(s: State, es: seq<Event>, c: nat)
    requires Untouched(s) && IsRun(s, es) && c < |Exec(s, es).calls|
    requires var call := Exec(s, es).calls[c];
             CountedCall(call) && call.placed.Some? && !call.job.device.mode.Server?
    ensures var call := Exec(s, es).calls[c];
            && (exists i: nat :: OwnAt(s, es, i, call.placed.value))
            && (call.placed.value.OnAggregator? <==>
                  !call.job.device.mode.Matter? && !KindOf(Exec(s, es).node, call.job).Locks?)
  {
    ParentByKind(s, es, c);
    if IsHub(Exec(s, es).node, Exec(s, es).calls[c]) {
      PickOwnAt(s, es, c);
    } else {
      EntryOwnAt(s, es, c);
    }
  }
}
