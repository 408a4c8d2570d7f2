/**
 `removeAllBridgedEndpoints` of packages/core/src/matterNode.ts, with every way it can stop, on top of the
 DeviceManager of packages/core/src/deviceManager.ts.  Its rounds among other calls are `Purge` events of NodeProtocol.
 */
module NodePurge {
  import opened Optional
  import opened DeviceRegistry
  import opened RegistryLemmas
  import opened DeviceManagers

  // ---------- what is found, and what goes ----------

  /** What becomes of a round whose endpoint is found: `delete` rejects; the registry answers; or its answer does not
      come in time, and the message is still on its way. */
  datatype Turn = Rejects | Answers | TimesOut

  datatype Ending = Done | Unlisted | Missing | Rejected | Unanswered

  /** How many rounds are completed, and how it ends. */
  datatype Course = Course(rounds: nat, ending: Ending)

  /** The course of the loop over `ds`, when round `i` takes the turn `turns[i]`; each endpoint deleted is gone
      before the next is looked up. */
  function Go(parts: Parts, ds: seq<Device>, turns: seq<Turn>): (r: Course)
    requires |turns| == |ds|
    ensures r.rounds <= |ds| && (r.ending.Done? <==> r.rounds == |ds|) && !r.ending.Unlisted?
    decreases |ds|
  {
    if ds == [] then Course(0, Done)
    else if ds[0].id !in parts.aggregator && ds[0].id !in parts.server then Course(0, Missing)
    else if turns[0].Rejects? then Course(0, Rejected)
    else if turns[0].TimesOut? then Course(0, Unanswered)
    else
      var rest := Go(Delete(parts, ds[0].id), ds[1..], turns[1..]);
      rest.(rounds := rest.rounds + 1)
  }

  /** Devices uncounted and deleted: those of the completed rounds, and the one left unanswered. */
  function Begun(r: Course): nat {
    r.rounds + if r.ending.Unanswered? then 1 else 0
  }

  function DropAll(l: seq<Device>, ds: seq<Device>): seq<Device>
    decreases |ds|
  {
    if ds == [] then l else DropAll(Drop(l, ds[0].uniqueId), ds[1..])
  }

  /** The devices of all other plugins, in order. */
  function Others(l: seq<Device>, p: string): seq<Device> {
    if l == [] then [] else (if l[0].plugin == p then [] else [l[0]]) + Others(l[1..], p)
  }

  /** Dropping the first device of a plugin takes the head of its list and touches no other list. */
  lemma {:induction false} DropFirst(l: seq<Device>, p: string, q: string)
    requires Unique(l) && OfPlugin(l, p) != []
    ensures var r := Drop(l, OfPlugin(l, p)[0].uniqueId);
            && Unique(r)
            && OfPlugin(r, p) == OfPlugin(l, p)[1..]
            && (q != p ==> OfPlugin(r, q) == OfPlugin(l, q))
            && Others(r, p) == Others(l, p)
  {
    var d := OfPlugin(l, p)[0];
    DropMembers(l, d.uniqueId);
    UniqueCons(l);
    if l[0].plugin == p {
      assert OfPlugin(l, p) == [l[0]] + OfPlugin(l[1..], p);
      assert OfPlugin(l, p)[1..] == OfPlugin(l[1..], p);
    } else {
      DropFirst(l[1..], p, q);
      FirstIsIn(l[1..], p);
      assert l[0].uniqueId != d.uniqueId;
      var r := Drop(l, d.uniqueId);
      assert r[1..] == Drop(l[1..], d.uniqueId);
    }
  }

  lemma {:induction false} FirstIsIn(l: seq<Device>, p: string)
    requires OfPlugin(l, p) != []
    ensures OfPlugin(l, p)[0] in l
  {
    if l[0].plugin != p { FirstIsIn(l[1..], p); }
  }

  /** Dropping the first `k` devices of a plugin. */
  lemma {:induction false} DropPrefix(l: seq<Device>, p: string, q: string, k: nat)
    requires Unique(l) && k <= |OfPlugin(l, p)|
    ensures var r := DropAll(l, OfPlugin(l, p)[..k]);
            && Unique(r)
            && OfPlugin(r, p) == OfPlugin(l, p)[k..]
            && (q != p ==> OfPlugin(r, q) == OfPlugin(l, q))
            && Others(r, p) == Others(l, p)
    decreases k
  {
    var ds := OfPlugin(l, p);
    if k > 0 {
      DropFirst(l, p, q);
      var r := Drop(l, ds[0].uniqueId);
      DropPrefix(r, p, q, k - 1);
      assert ds[..k][1..] == OfPlugin(r, p)[..k - 1];
      assert OfPlugin(r, p)[k - 1..] == ds[k..];
    }
  }

  lemma {:induction false} NoneLeft(l: seq<Device>, p: string)
    requires OfPlugin(l, p) == []
    ensures Others(l, p) == l
  {
    if l != [] {
      assert l[0].plugin != p;
      NoneLeft(l[1..], p);
    }
  }

  /** Ids of the endpoints under the aggregator and under the server node. */
  datatype Parts = Parts(aggregator: set<string>, server: set<string>)

  /** Delete the endpoint with this id, under the aggregator if it is there. */
  function Delete(parts: Parts, id: string): Parts {
    if id in parts.aggregator then parts.(aggregator := parts.aggregator - {id})
        else parts.(server := parts.server - {id})
  }

  function DeleteAll(parts: Parts, ds: seq<Device>): Parts {
    if ds == [] then parts else Delete(DeleteAll(parts, ds[..|ds| - 1]), ds[|ds| - 1].id)
  }

  /** How often an id is named. */
  function Named(ds: seq<Device>, id: string): nat {
    if ds == [] then 0 else Named(ds[..|ds| - 1], id) + if ds[|ds| - 1].id == id then 1 else 0
  }

  /** An id goes from under the aggregator when it is named, and from under the server node when it is named once more
      than the aggregator needs: the first time if it is not under the aggregator, else the second. */
  lemma {:induction false} DeletedExactly(parts: Parts, ds: seq<Device>, id: string)
    ensures var r, k := DeleteAll(parts, ds), Named(ds, id);
            && (id in r.aggregator <==> id in parts.aggregator && k == 0)
            && (id in r.server <==> id in parts.server && k <= if id in parts.aggregator then 1 else 0)
  {
    if ds != [] { DeletedExactly(parts, ds[..|ds| - 1], id); }
  }

  /** Before round `i` there is still an endpoint with the id of its device: more than the rounds before have named. */
  predicate Present(parts: Parts, ds: seq<Device>, i: nat)
    requires i < |ds|
  {
    var id := ds[i].id;
    Named(ds[..i], id) < (if id in parts.aggregator then 1 else 0) + (if id in parts.server then 1 else 0)
  }

  lemma PresentExactly(parts: Parts, ds: seq<Device>, i: nat)
    requires i < |ds|
    ensures var now := DeleteAll(parts, ds[..i]);
            Present(parts, ds, i) <==> ds[i].id in now.aggregator || ds[i].id in now.server
  {
    DeletedExactly(parts, ds[..i], ds[i].id);
  }

  /** Round `i` is the first that is not completed, and this is why. */
  predicate StopsAt(parts: Parts, ds: seq<Device>, turns: seq<Turn>, i: nat, ending: Ending)
    requires |turns| == |ds|
  {
    && i < |ds|
    && if !Present(parts, ds, i) then ending.Missing?
       else if turns[i].Rejects? then ending.Rejected? else turns[i].TimesOut? && ending.Unanswered?
  }

  lemma {:induction false} CourseFrom(parts: Parts, ds: seq<Device>, turns: seq<Turn>, i: nat)
    requires |turns| == |ds| && i <= |ds|
    ensures var r := Go(DeleteAll(parts, ds[..i]), ds[i..], turns[i..]);
            && (forall k :: i <= k < i + r.rounds ==> Present(parts, ds, k) && turns[k].Answers?)
            && (!r.ending.Done? ==> StopsAt(parts, ds, turns, i + r.rounds, r.ending))
    decreases |ds| - i
  {
    if i < |ds| {
      PresentExactly(parts, ds, i);
      DeleteAllAppend(parts, ds, i);
      assert ds[i..][0] == ds[i] && ds[i..][1..] == ds[i + 1..];
      assert turns[i..][0] == turns[i] && turns[i..][1..] == turns[i + 1..];
      CourseFrom(parts, ds, turns, i + 1);
    }
  }

  /** For every list, every tree and every course of the promises: a round is completed if and only if all before it
      are, an endpoint with its device's id is left, and the registry answers; the loop ends at the first that is not,
      with what is missing, rejected or unanswered there. */
  lemma CourseExactly(parts: Parts, ds: seq<Device>, turns: seq<Turn>)
    requires |turns| == |ds|
    ensures var r := Go(parts, ds, turns);
            && (forall k :: 0 <= k < r.rounds ==> Present(parts, ds, k) && turns[k].Answers?)
            && (!r.ending.Done? ==> StopsAt(parts, ds, turns, r.rounds, r.ending))
  {
    CourseFrom(parts, ds, turns, 0);
    assert ds[..0] == [] && ds[0..] == ds && turns[0..] == turns;
  }

  // ---------- the node ----------

  class PurgingNode {
    /** Empty where there is no aggregator or no server node. */
    var parts: Parts
    var registered: Option<int>
    /** Removals sent to the registry and not handled in time. */
    var late: seq<Device>
    const manager: DeviceManager

    constructor (parts: Parts, registered: Option<int>, manager: DeviceManager)
      ensures this.parts == parts && this.registered == registered && this.manager == manager && late == []
    {
      this.parts, this.registered, this.manager, this.late := parts, registered, manager, [];
    }

    /** One round of the loop: look the device up, delete its endpoint, uncount it, tell the registry. */
    method RemoveOne(device: Device, turn: Turn) returns (ending: Ending)
      requires manager.Valid() && device.uniqueId != ""
      modifies this, manager
      ensures manager.Valid()
      ensures ending == if device.id !in old(parts).aggregator && device.id !in old(parts).server then Missing
                        else if turn.Rejects? then Rejected else if turn.TimesOut? then Unanswered else Done
      ensures var begun := ending.Done? || ending.Unanswered?;
              && parts == (if begun then Delete(old(parts), device.id) else old(parts))
              && registered == Lowered(old(registered), if begun then 1 else 0)
      ensures manager.Contents() == if ending.Done? then Drop(old(manager.Contents()), device.uniqueId)
              else old(manager.Contents())
      ensures late == if ending.Unanswered? then old(late) + [device] else old(late)
    {
      var under := device.id in parts.aggregator;
      if !under && device.id !in parts.server { return Missing; }
      if turn.Rejects? { return Rejected; }
      if under {
        parts := parts.(aggregator := parts.aggregator - {device.id});
      } else {
        parts := parts.(server := parts.server - {device.id});
      }
      if registered.Some? { registered := Some(registered.value - 1); }
      if turn.TimesOut? {
        late := late + [device];
        return Unanswered;
      }
      var answer := manager.Remove(device);
      return Done;
    }

    /** The loop: it goes on while rounds are completed. */
    method RemoveEach(devices: seq<Device>, turns: seq<Turn>) returns (ending: Ending)
      requires manager.Valid() && |turns| == |devices|
      requires forall i :: 0 <= i < |devices| ==> devices[i].uniqueId != ""
      modifies this, manager
      ensures manager.Valid()
      ensures var r := Go(old(parts), devices, turns);
              && ending == r.ending
              && Removed(old(manager.Contents()), old(parts), old(registered), devices, r.rounds, Begun(r),
                         manager.Contents(), parts, registered)
              && late == (if r.ending.Unanswered? then old(late) + [devices[r.rounds]] else old(late))
    {
      ghost var l, ps, n, r := manager.Contents(), parts, registered, Go(parts, devices, turns);
      var i := 0;
      assert Ahead(r, parts, devices, turns, 0) by { assert devices[0..] == devices && turns[0..] == turns; }
      while i < |devices|
        invariant 0 <= i <= |devices| && manager.Valid() && late == old(late)
        invariant Ahead(r, parts, devices, turns, i)
        invariant Removed(l, ps, n, devices, i, i, manager.Contents(), parts, registered)
      {
        GoNext(r, parts, devices, turns, i);
        RemovedNext(l, ps, n, devices, i, manager.Contents(), parts, registered);
        var device := devices[i];
        ending := RemoveOne(device, turns[i]);
        if !ending.Done? { return; }
        i := i + 1;
      }
      AheadDone(r, parts, devices, turns);
      return Done;
    }

    /** `listed` says that the plugin is known and the registry answered with the list; no plugin has an empty name, and
        no registered device an empty uniqueId. */
    method RemoveAllBridgedEndpoints(plugin: string, listed: bool, turns: seq<Turn>) returns (ending: Ending)
      requires manager.Valid() && (listed ==> plugin != "") && |turns| == |OfPlugin(manager.Contents(), plugin)|
      requires forall d :: d in manager.Contents() ==> d.uniqueId != ""
      modifies this, manager
      ensures manager.Valid()
      ensures var l, ds := old(manager.Contents()), OfPlugin(old(manager.Contents()), plugin);
              var r := if listed then Go(old(parts), ds, turns) else Course(0, Unlisted);
              && ending == r.ending
              && Removed(l, old(parts), old(registered), ds, r.rounds, Begun(r), manager.Contents(), parts, registered)
              && late == (if r.ending.Unanswered? then old(late) + [ds[r.rounds]] else old(late))
              && (ending.Done? ==>
                    manager.Contents() == Others(l, plugin) && registered == Lowered(old(registered), |ds|))
    {
      if !listed { return Unlisted; }
      ghost var l := manager.Contents();
      ValuesUnique(manager.order, manager.table);
      var devices := manager.BaseArray(Some(plugin));
      forall i | 0 <= i < |devices| ensures devices[i].uniqueId != "" { OfPluginIn(l, plugin, i); }
      ending := RemoveEach(devices, turns);
      PurgeComplete(l, plugin);
      assert devices[..|devices|] == devices;
    }

    /** The registry handles a message that was late. */
    method HandleLate()
      requires manager.Valid() && late != [] && late[0].uniqueId != ""
      modifies this, manager
      ensures manager.Valid() && late == old(late)[1..]
      ensures manager.Contents() == Drop(old(manager.Contents()), old(late)[0].uniqueId)
      ensures parts == old(parts) && registered == old(registered)
    {
      var answer := manager.Remove(late[0]);
      late := late[1..];
    }
  }

  function Lowered(counter: Option<int>, k: nat): Option<int> {
    if counter.Some? then Some(counter.value - k) else None
  }

  /** From list `l`, endpoints `ps` and counter `n` to `l'`, `ps'` and `n'`: the first `rounds` of `ds` are
      unregistered, the first `begun` deleted and uncounted. */
  predicate Removed(l: seq<Device>, ps: Parts, n: Option<int>, ds: seq<Device>, rounds: nat, begun: nat,
                    l': seq<Device>, ps': Parts, n': Option<int>)
    requires rounds <= |ds| && begun <= |ds|
  {
    l' == DropAll(l, ds[..rounds]) && ps' == DeleteAll(ps, ds[..begun]) && n' == Lowered(n, begun)
  }

  lemma RemovedNext(l: seq<Device>, ps: Parts, n: Option<int>, ds: seq<Device>, i: nat,
                    l': seq<Device>, ps': Parts, n': Option<int>)
    requires i < |ds| && Removed(l, ps, n, ds, i, i, l', ps', n')
    ensures Removed(l, ps, n, ds, i, i + 1, l', Delete(ps', ds[i].id), Lowered(n', 1))
    ensures Removed(l, ps, n, ds, i + 1, i + 1, Drop(l', ds[i].uniqueId), Delete(ps', ds[i].id), Lowered(n', 1))
  {
    DropAllAppend(l, ds, i);
    DeleteAllAppend(ps, ds, i);
  }

  /** The course `r` is what lies ahead of round `i`, with the `i` rounds before it. */
  ghost predicate Ahead(r: Course, parts: Parts, ds: seq<Device>, turns: seq<Turn>, i: nat)
    requires i <= |ds| == |turns|
  {
    var rest := Go(parts, ds[i..], turns[i..]);
    r == Course(rest.rounds + i, rest.ending)
  }

  lemma GoNext(r: Course, parts: Parts, ds: seq<Device>, turns: seq<Turn>, i: nat)
    requires i < |ds| == |turns| && Ahead(r, parts, ds, turns, i)
    ensures var id, turn := ds[i].id, turns[i];
            if id !in parts.aggregator && id !in parts.server then r == Course(i, Missing)
            else if turn.Rejects? then r == Course(i, Rejected)
            else if turn.TimesOut? then r == Course(i, Unanswered)
            else Ahead(r, Delete(parts, id), ds, turns, i + 1)
  {
    assert ds[i..][0] == ds[i] && ds[i..][1..] == ds[i + 1..];
    assert turns[i..][0] == turns[i] && turns[i..][1..] == turns[i + 1..];
  }

  lemma AheadDone(r: Course, parts: Parts, ds: seq<Device>, turns: seq<Turn>)
    requires |ds| == |turns| && Ahead(r, parts, ds, turns, |ds|)
    ensures r == Course(|ds|, Done)
  {}

  lemma DeleteAllAppend(parts: Parts, ds: seq<Device>, i: nat)
    requires i < |ds|
    ensures DeleteAll(parts, ds[..i + 1]) == Delete(DeleteAll(parts, ds[..i]), ds[i].id)
  {
    assert ds[..i + 1][..i] == ds[..i];
  }

  lemma {:induction false} DropAllAppend(l: seq<Device>, ds: seq<Device>, i: nat)
    requires i < |ds|
    ensures DropAll(l, ds[..i + 1]) == Drop(DropAll(l, ds[..i]), ds[i].uniqueId)
    decreases i
  {
    if i == 0 {
      assert ds[..1] == [ds[0]] && ds[..0] == [];
    } else {
      DropAllAppend(Drop(l, ds[0].uniqueId), ds[1..], i - 1);
      assert ds[..i + 1][1..] == ds[1..][..i] && ds[..i][1..] == ds[1..][..i - 1];
    }
  }

  lemma {:induction false} OfPluginIn(l: seq<Device>, p: string, i: nat)
    requires i < |OfPlugin(l, p)|
    ensures OfPlugin(l, p)[i] in l && OfPlugin(l, p)[i].plugin == p
  {
    if l[0].plugin != p { OfPluginIn(l[1..], p, i); } else if i > 0 { OfPluginIn(l[1..], p, i - 1); }
  }

  /** If every endpoint is found, exactly the plugin's devices are gone and all others keep their places. */
  lemma PurgeComplete(l: seq<Device>, p: string)
    requires Unique(l)
    ensures DropAll(l, OfPlugin(l, p)) == Others(l, p)
  {
    var ds := OfPlugin(l, p);
    assert ds[..|ds|] == ds && ds[|ds|..] == [];
    DropPrefix(l, p, p, |ds|);
    NoneLeft(DropAll(l, ds), p);
  }

  /** However it ends: exactly the devices of the completed rounds are gone, every other plugin keeps its list, and the
      distance between the counter and the registered devices is as before, or one less while an unanswered
      removal is on its way; once that is handled, it is as before again. */
  lemma PurgeInterrupted(l: seq<Device>, p: string, q: string, r: Course, counter: int)
    requires Unique(l) && q != p
    requires r.rounds <= |OfPlugin(l, p)| && (r.ending.Unanswered? ==> r.rounds < |OfPlugin(l, p)|)
    ensures var ds, t := OfPlugin(l, p), DropAll(l, OfPlugin(l, p)[..r.rounds]);
            && OfPlugin(t, p) == ds[r.rounds..] && OfPlugin(t, q) == OfPlugin(l, q) && Others(t, p) == Others(l, p)
            && Lowered(None, Begun(r)).None? && Lowered(Some(counter), Begun(r)).Some?
            && var left := Lowered(Some(counter), Begun(r)).value;
            && left - |OfPlugin(t, p)| == counter - |ds| - (if r.ending.Unanswered? then 1 else 0)
            && (r.ending.Unanswered? ==>
                  var u := Drop(t, ds[r.rounds].uniqueId);
                  && OfPlugin(u, p) == ds[Begun(r)..] && OfPlugin(u, q) == OfPlugin(l, q) &&
                     Others(u, p) == Others(l, p)
                  && left - |OfPlugin(u, p)| == counter - |ds|)
  {
    DropPrefix(l, p, q, r.rounds);
    if r.ending.Unanswered? {
      DropPrefix(l, p, q, r.rounds + 1);
      DropAllAppend(l, OfPlugin(l, p), r.rounds);
    }
  }
}
