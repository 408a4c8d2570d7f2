/**
 Short runs of the endpoint protocol that create something, each from any state that allows it
 (packages/core/src/matterNode.ts).
 */
module NodeRuns {
  import opened Optional
  import opened DeviceRegistry
  import opened NodeProtocol
  import opened NodeAccounting

  lemma {:induction false} LeadsJoin(s: State, a: seq<Event>, t: State, b: seq<Event>, u: State)
    requires Leads(s, a, t) && Leads(t, b, u)
    ensures Leads(s, a + b, u)
    decreases |a|
  {
    if a == [] {
      assert a + b == b;
    } else {
      LeadsJoin(Step(s, a[0]), a[1..], t, b, u);
      LeadsFirst(s, a[0], Step(s, a[0]), a[1..] + b, u);
      assert [a[0]] + (a[1..] + b) == a + b;
    }
  }

  function Go(c: nat): Event {
    Resume(c, true, 0, 0)
  }

  /** An entry and two resumed promises. */
  lemma ThreeSteps(s: State, e: Event, c: nat, s1: State, s2: State, t: State)
    requires Enabled(s, e) && Step(s, e) == s1
    requires Enabled(s1, Go(c)) && Step(s1, Go(c)) == s2
    requires Enabled(s2, Go(c)) && Step(s2, Go(c)) == t
    ensures Leads(s, [e, Go(c), Go(c)], t)
  {
    LeadsFirst(s2, Go(c), t, [], t);
    LeadsFirst(s1, Go(c), s2, [Go(c)] + [], t);
    LeadsFirst(s, e, s1, [Go(c)] + ([Go(c)] + []), t);
    assert [e] + ([Go(c)] + ([Go(c)] + [])) == [e, Go(c), Go(c)];
  }

  /** A call suspended on its storage context gets its server node in two steps. */
  lemma HubSteps(s: State, c: nat) returns (s2: State, t: State)
    requires c < |s.calls| && s.calls[c].phase.HubContext? && !s.calls[c].job.Removing?
    ensures Enabled(s, Go(c)) && s2 == Step(s, Go(c)) && Enabled(s2, Go(c)) && t == Step(s2, Go(c))
    ensures t.node.serverNode.Some? && |t.calls| == |s.calls|
    ensures t.node.dependants == s.node.dependants && t.node.children == s.node.children
    ensures t.node.plugins == s.node.plugins && t.node.mode == s.node.mode
  {
    s2 := Step(s, Go(c));
    assert s2.calls[c].phase == HubCreating(TakeAll(s.node.counters));
    t := Step(s2, Go(c));
  }

  /** The boot of a bridge, up to its server node. */
  lemma BootsOwn(s: State) returns (t: State)
    requires s.calls == []
    ensures Leads(s, [Boot, Go(0), Go(0)], t)
    ensures t.node.serverNode.Some? && |t.calls| == 1
    ensures t.node.dependants == s.node.dependants && t.node.children == s.node.children
    ensures t.node.plugins == s.node.plugins
  {
    var s1 := Step(s, Boot);
    var s2: State;
    s2, t := HubSteps(s1, 0);
    ThreeSteps(s, Boot, 0, s1, s2, t);
  }

  /** An add of a dynamic platform that finds the lock free and no server node, up to the server node. */
  lemma CreatesOwn(s: State, p: string, d: Device) returns (t: State)
    requires s.node.mode.ChildBridge? && s.node.serverNode.None? && d.plugin == p && !d.mode.Server?
    requires p in s.node.plugins && s.node.plugins[p].platform.Dynamic? && !s.node.plugins[p].locked
    ensures Leads(s, [Add(p, d), Go(|s.calls|), Go(|s.calls|)], t)
    ensures t.node.serverNode.Some?
    ensures t.node.dependants == s.node.dependants && t.node.children == s.node.children
    ensures t.node.mode.ChildBridge? && p in t.node.plugins && t.node.plugins[p].platform.Dynamic?
  {
    var c, s1 := |s.calls|, Step(s, Add(p, d));
    assert EnterAdd(s.node, c, p, d) == EnterDynamic(s.node, p, d);
    var s2: State;
    s2, t := HubSteps(s1, c);
    ThreeSteps(s, Add(p, d), c, s1, s2, t);
  }

  /** A call with its dependant registered gets the dependant's server node in two steps. */
  lemma SpawnSteps(s: State, c: nat) returns (s2: State, t: State)
    requires c < |s.calls| && s.calls[c].phase.Spawning? && s.calls[c].job.Adding? && s.calls[c].job.device.complete
    requires c in s.node.children
    ensures Enabled(s, Go(c)) && s2 == Step(s, Go(c)) && Enabled(s2, Go(c)) && t == Step(s2, Go(c))
    ensures |t.calls| == |s.calls| && t.node.dependants == s.node.dependants && t.node.plugins == s.node.plugins
    ensures t.node.serverNode == s.node.serverNode
    ensures c in t.node.children && t.node.children[c].server.Some?
    ensures forall a :: a in s.node.children && a != c ==>
              a in t.node.children && t.node.children[a] == s.node.children[a]
  {
    s2 := Step(s, Go(c));
    assert s2.calls[c].phase == SpawnCreating(TakeAll(s.node.children[c].counters));
    t := Step(s2, Go(c));
  }

  /** An add of a device in server mode, up to the server node of its dependant. */
  lemma Spawns(s: State, p: string, d: Device) returns (t: State)
    requires p in s.node.plugins && d.plugin == p && d.mode.Server? && d.complete
    ensures Leads(s, [Add(p, d), Go(|s.calls|), Go(|s.calls|)], t)
    ensures |t.calls| == |s.calls| + 1 && t.node.plugins == s.node.plugins && t.node.serverNode == s.node.serverNode
    ensures t.node.dependants == s.node.dependants[d.id := |s.calls|]
    ensures |s.calls| in t.node.children && t.node.children[|s.calls|].server.Some?
    ensures forall a :: a in s.node.children && a != |s.calls| ==>
              a in t.node.children && t.node.children[a] == s.node.children[a]
  {
    var c, s1 := |s.calls|, Step(s, Add(p, d));
    assert s1.calls[c].phase == Spawning && s1.calls[c].job == Adding(p, d);
    var s2: State;
    s2, t := SpawnSteps(s1, c);
    ThreeSteps(s, Add(p, d), c, s1, s2, t);
  }

  /** The same add, as far as registering the dependant. */
  lemma Registers(s: State, p: string, d: Device) returns (t: State)
    requires p in s.node.plugins && d.plugin == p && d.mode.Server?
    ensures Leads(s, [Add(p, d)], t)
    ensures t.node.serverNode == s.node.serverNode && t.node.dependants == s.node.dependants[d.id := |s.calls|]
    ensures |s.calls| in t.node.children && t.node.children[|s.calls|].server.None?
  {
    t := Step(s, Add(p, d));
    LeadsFirst(s, Add(p, d), t, [], t);
    assert [Add(p, d)] + [] == [Add(p, d)];
  }

  const BOOT := [Boot, Go(0), Go(0)]

  function AddSteps(p: string, d: Device, c: nat): seq<Event> {
    [Add(p, d), Go(c), Go(c)]
  }

  /** A boot and two adds in server mode with the same id: two dependants with server nodes, one of them in the map. */
  lemma SpawnsTwice(s: State, p: string, d: Device, d': Device) returns (t: State)
    requires s.calls == [] && s.node.dependants == map[] && p in s.node.plugins
    requires d.plugin == p && d.mode.Server? && d.complete
    requires d'.plugin == p && d'.mode.Server? && d'.complete && d'.id == d.id
    ensures Leads(s, BOOT + AddSteps(p, d, 1) + AddSteps(p, d', 2), t)
    ensures t.node.serverNode.Some? && t.node.dependants == map[d.id := 2]
    ensures 1 in t.node.children && t.node.children[1].server.Some?
    ensures 2 in t.node.children && t.node.children[2].server.Some?
  {
    var s2 := SpawnsOnce(s, p, d);
    t := Spawns(s2, p, d');
    LeadsJoin(s, BOOT + AddSteps(p, d, 1), s2, AddSteps(p, d', 2), t);
  }

  lemma SpawnsOnce(s: State, p: string, d: Device) returns (t: State)
    requires s.calls == [] && s.node.dependants == map[] && p in s.node.plugins
    requires d.plugin == p && d.mode.Server? && d.complete
    ensures Leads(s, BOOT + AddSteps(p, d, 1), t)
    ensures t.node.serverNode.Some? && t.node.dependants == map[d.id := 1] && |t.calls| == 2
    ensures t.node.plugins == s.node.plugins
    ensures 1 in t.node.children && t.node.children[1].server.Some?
  {
    var s1 := BootsOwn(s);
    t := Spawns(s1, p, d);
    LeadsJoin(s, BOOT, s1, AddSteps(p, d, 1), t);
  }
}
