/**
 The loops of `start` and `stop` over the live map of dependants: which dependants they visit while adds keep
 registering and replacing entries, and which server nodes a completed stop leaves behind
 (packages/core/src/matterNode.ts).
 */
module LifecycleTours {
  import opened Sequences
  import opened DeviceRegistry
  import P = NodeProtocol
  import opened NodeLifecycle

  // ---------- what an event of the protocol does to the map ----------

  lemma HubKeeps(n: P.Shared, c: nat, call: P.Call, rp: int, rd: int)
    ensures var out := P.AdvanceHub(n, c, call, rp, rd);
            out.call.job == call.job && out.node.dependants == n.dependants && out.node.children == n.children
  {}

  lemma AddKeeps(n: P.Shared, c: nat, call: P.Call, rp: int, rd: int)
    requires call.job.Adding?
    ensures var out := P.AdvanceAdd(n, c, call, rp, rd);
            out.call.job == call.job && out.node.dependants == n.dependants && out.node.children.Keys == n.children.Keys
  {
    HubKeeps(n, c, call, rp, rd);
  }

  lemma MoveKeeps(n: P.Shared, call: P.Call, e: P.Event)
    requires P.Moves(e)
    ensures var out := P.Move(n, call, e);
            out.call.job == call.job && out.node.dependants == n.dependants && out.node.children.Keys == n.children.Keys
  {
    if e.Resume? && e.ok {
      match call.job
      case Booting => HubKeeps(n, e.call, call, e.rp, e.rd);
      case Adding(_, _) => AddKeeps(n, e.call, call, e.rp, e.rd);
      case Removing(_, _, _) =>
    }
  }

  /** Calls stay and keep their jobs. */
  ghost predicate JobsKept(s: P.State, t: P.State) {
    |s.calls| <= |t.calls| && forall c :: 0 <= c < |s.calls| ==> t.calls[c].job == s.calls[c].job
  }

  ghost predicate SameMap(s: P.State, t: P.State) {
    t.node.dependants == s.node.dependants && t.node.children.Keys == s.node.children.Keys
  }

  /** A new call has registered a dependant under the id of its device. */
  ghost predicate Registers(s: P.State, d: Device, t: P.State) {
    && |t.calls| == |s.calls| + 1
    && t.calls[|s.calls|].job.Adding? && t.calls[|s.calls|].job.device == d
    && t.node.children.Keys == s.node.children.Keys + {|s.calls|}
    && t.node.dependants == s.node.dependants[d.id := |s.calls|]
  }

  lemma EntryKeeps(n: P.Shared, c: nat, e: P.Event)
    requires P.Starts(e)
    ensures var out := P.Entry(n, c, e);
            || (out.node.dependants == n.dependants && out.node.children.Keys == n.children.Keys)
            || (&& e.Add? && out.call.job == P.Adding(e.plugin, e.device)
                && out.node.children.Keys == n.children.Keys + {c}
                && out.node.dependants == n.dependants[e.device.id := c])
  {}

  lemma ProtocolFrame(s: P.State, e: P.Event)
    requires P.Enabled(s, e)
    ensures var t := P.Step(s, e);
            JobsKept(s, t) && (SameMap(s, t) || (e.Add? && Registers(s, e.device, t)))
  {
    if P.Starts(e) {
      EntryKeeps(s.node, |s.calls|, e);
    } else if P.Moves(e) {
      MoveKeeps(s.node, s.calls[e.call], e);
    }
  }

  // ---------- the map ----------

  /** Call `c` is an add of a device with this id. */
  predicate HasKey(s: P.State, c: nat, id: string) {
    c < |s.calls| && s.calls[c].job.Adding? && s.calls[c].job.device.id == id
  }

  /** `order` lists the keys; under each key is the dependant registered last for it. */
  ghost predicate MapInv(s: P.State, order: seq<string>) {
    && Distinct(order)
    && (forall id :: id in order <==> id in s.node.dependants)
    && (forall id :: id in s.node.dependants ==>
          s.node.dependants[id] in s.node.children && HasKey(s, s.node.dependants[id], id))
    && (forall c :: c in s.node.children ==> c < |s.calls| && s.calls[c].job.Adding?)
    && (forall c, id :: c in s.node.children && HasKey(s, c, id) ==>
          id in s.node.dependants && c <= s.node.dependants[id])
  }

  lemma FreshMap(s: P.State)
    requires s.node.dependants == map[] && s.node.children == map[]
    ensures MapInv(s, [])
  {}

  lemma MapKept(s: P.State, t: P.State, order: seq<string>)
    requires MapInv(s, order) && JobsKept(s, t) && SameMap(s, t)
    ensures MapInv(t, order)
  {
    forall c, id | c in t.node.children && HasKey(t, c, id)
      ensures id in t.node.dependants && c <= t.node.dependants[id]
    {
      assert HasKey(s, c, id);
    }
    forall id | id in t.node.dependants ensures HasKey(t, t.node.dependants[id], id) {
      assert HasKey(s, s.node.dependants[id], id);
    }
  }

  lemma MapRegisters(s: P.State, d: Device, t: P.State, order: seq<string>)
    requires MapInv(s, order) && JobsKept(s, t) && Registers(s, d, t)
    ensures MapInv(t, if d.id in s.node.dependants then order else order + [d.id])
  {
    forall c, id | c in t.node.children && HasKey(t, c, id)
      ensures id in t.node.dependants && c <= t.node.dependants[id]
    {
      if c < |s.calls| { assert HasKey(s, c, id); }
    }
    forall id | id in t.node.dependants ensures HasKey(t, t.node.dependants[id], id) {
      if id != d.id { assert HasKey(s, s.node.dependants[id], id); }
    }
  }

  // ---------- a loop over it ----------

  /** The `k`-th visit was to the entry of the `k`-th key, and that was the one registered last by then. */
  ghost predicate VisitFits(s: P.State, id: string, c: nat, seen: nat) {
    && c in s.node.children && HasKey(s, c, id) && c < seen <= |s.calls|
    && forall a :: a in s.node.children && HasKey(s, a, id) && a < seen ==> a <= c
  }

  ghost predicate TourInv(s: P.State, order: seq<string>, t: Tour) {
    && |t.seen| == |t.visits| <= |order|
    && forall k :: 0 <= k < |t.visits| ==> VisitFits(s, order[k], t.visits[k], t.seen[k])
  }

  /** After the loop: whatever has a key the loop did not reach was registered after its end. */
  ghost predicate TourEnded(s: P.State, order: seq<string>, t: Tour, ended: nat) {
    && ended <= |s.calls|
    && forall c, k :: |t.visits| <= k < |order| && c in s.node.children && HasKey(s, c, order[k]) ==> c >= ended
  }

  lemma VisitKept(s: P.State, t: P.State, id: string, c: nat, seen: nat)
    requires VisitFits(s, id, c, seen) && JobsKept(s, t) && s.node.children.Keys <= t.node.children.Keys
    requires forall a :: a in t.node.children && a !in s.node.children ==> a >= |s.calls|
    ensures VisitFits(t, id, c, seen)
  {
    forall a | a in t.node.children && HasKey(t, a, id) && a < seen ensures a <= c {
      assert a in s.node.children && HasKey(s, a, id);
    }
  }

  ghost predicate Onward(s: P.State, order: seq<string>, t: P.State, order': seq<string>) {
    && JobsKept(s, t) && s.node.children.Keys <= t.node.children.Keys && order <= order'
    && (forall a :: a in t.node.children && a !in s.node.children ==> a >= |s.calls|)
  }

  lemma TourKept(s: P.State, order: seq<string>, t: P.State, order': seq<string>, tour: Tour)
    requires Onward(s, order, t, order') && TourInv(s, order, tour)
    ensures TourInv(t, order', tour)
  {
    forall k | 0 <= k < |tour.visits| ensures VisitFits(t, order'[k], tour.visits[k], tour.seen[k]) {
      VisitKept(s, t, order[k], tour.visits[k], tour.seen[k]);
    }
  }

  lemma EndedKept(s: P.State, order: seq<string>, t: P.State, order': seq<string>, tour: Tour, ended: nat)
    requires Onward(s, order, t, order') && MapInv(s, order) && MapInv(t, order') && TourEnded(s, order, tour, ended)
    ensures TourEnded(t, order', tour, ended)
  {
    forall c, k | |tour.visits| <= k < |order'| && c in t.node.children && HasKey(t, c, order'[k]) ensures c >= ended {
      if c in s.node.children {
        assert HasKey(s, c, order'[k]);
        assert order'[k] in order;
        var j :| 0 <= j < |order| && order[j] == order'[k];
        assert order'[j] == order'[k];
      }
    }
  }

  lemma VisitNext(s: P.State, order: seq<string>, tour: Tour)
    requires MapInv(s, order) && TourInv(s, order, tour) && |tour.visits| < |order|
    ensures var id := order[|tour.visits|];
            && id in s.node.dependants
            && s.node.dependants[id] !in tour.visits
            && TourInv(s, order, Visit(tour, s.node.dependants[id], |s.calls|))
  {
    var i := |tour.visits|;
    var id := order[i];
    assert id in order;
    var c := s.node.dependants[id];
    assert HasKey(s, c, id);
    forall k | 0 <= k < i ensures tour.visits[k] != c {
      assert VisitFits(s, order[k], tour.visits[k], tour.seen[k]);
    }
    forall a | a in s.node.children && HasKey(s, a, id) ensures a <= c {}
    assert VisitFits(s, id, c, |s.calls|);
    var next := Visit(tour, c, |s.calls|);
    forall k | 0 <= k < |next.visits| ensures VisitFits(s, order[k], next.visits[k], next.seen[k]) {
      if k < i { assert VisitFits(s, order[k], tour.visits[k], tour.seen[k]); }
    }
  }

  lemma EndNow(s: P.State, order: seq<string>, tour: Tour)
    requires MapInv(s, order) && |tour.visits| >= |order|
    ensures TourEnded(s, order, tour, |s.calls|)
  {}

  // ---------- who was visited ----------

  /** Registered after its key's turn, or, if the loop never came to it, after the end of the loop. */
  ghost predicate Late(order: seq<string>, t: Tour, ended: nat, k: nat, c: nat)
    requires |t.seen| == |t.visits|
  {
    c >= if k < |t.visits| then t.seen[k] else ended
  }

  /** Replaced in the map, before its key's turn, by a dependant registered later for the same id. */
  ghost predicate Replaced(t: Tour, k: nat, c: nat) {
    k < |t.visits| && c < t.visits[k]
  }

  /** A completed loop has visited a dependant if and only if it was in the map when its key's turn came: it was
      neither registered too late nor replaced before. */
  lemma VisitedExactly(s: P.State, order: seq<string>, t: Tour, ended: nat, k: nat, c: nat)
    requires MapInv(s, order) && TourInv(s, order, t) && TourEnded(s, order, t, ended)
    requires k < |order| && c in s.node.children && HasKey(s, c, order[k])
    ensures c in t.visits <==> !Late(order, t, ended, k, c) && !Replaced(t, k, c)
  {
    if c in t.visits {
      var j :| 0 <= j < |t.visits| && t.visits[j] == c;
      assert VisitFits(s, order[j], c, t.seen[j]);
      assert order[j] == order[k];
    } else if k < |t.visits| {
      assert VisitFits(s, order[k], t.visits[k], t.seen[k]);
    }
  }
}
