/**
 The class DeviceManager (packages/core/src/deviceManager.ts) against its specification, and what its
 list holds after any run of operations.
 */
module DeviceManagers {
  import opened Optional
  import opened Sequences
  import opened DeviceRegistry
  import opened RegistryLemmas

  // ---------- a JavaScript Map: keys in insertion order, and a table ----------

  ghost predicate Indexed(order: seq<string>, table: map<string, Device>) {
    && Distinct(order)
    && (forall u :: u in order <==> u in table)
    && (forall u :: u in table ==> table[u].uniqueId == u)
  }

  /** The values of the map, in order. */
  function Values(order: seq<string>, table: map<string, Device>): seq<Device>
    requires forall u :: u in order ==> u in table
  {
    if order == [] then [] else [table[order[0]]] + Values(order[1..], table)
  }

  function Without(order: seq<string>, u: string): seq<string> {
    if order == [] then [] else if order[0] == u then order[1..] else [order[0]] + Without(order[1..], u)
  }

  lemma {:induction false} ValuesAt(order: seq<string>, table: map<string, Device>, i: nat)
    requires i < |order| && forall u :: u in order ==> u in table
    ensures |Values(order, table)| == |order| && Values(order, table)[i] == table[order[i]]
  {
    if |order| > 1 { ValuesAt(order[1..], table, if i > 0 then i - 1 else 0); }
  }

  lemma ValuesUnique(order: seq<string>, table: map<string, Device>)
    requires Indexed(order, table)
    ensures Unique(Values(order, table))
  {
    var l := Values(order, table);
    if order != [] { ValuesAt(order, table, 0); }
    forall i, j | 0 <= i < j < |l| ensures l[i].uniqueId != l[j].uniqueId {
      ValuesAt(order, table, i);
      ValuesAt(order, table, j);
      assert order[i] in table && order[j] in table;
    }
  }

  lemma {:induction false} ValuesOther(order: seq<string>, table: map<string, Device>, table': map<string, Device>)
    requires forall u :: u in order ==> u in table && u in table' && table'[u] == table[u]
    ensures Values(order, table') == Values(order, table)
  {
    if order != [] { ValuesOther(order[1..], table, table'); }
  }

  lemma {:induction false} ValuesUpdate(order: seq<string>, table: map<string, Device>, d: Device)
    requires Distinct(order) && d.uniqueId in order
    requires forall u :: u in order ==> u in table && table[u].uniqueId == u
    ensures Values(order, table[d.uniqueId := d]) == Put(Values(order, table), d)
  {
    var table' := table[d.uniqueId := d];
    var l := Values(order, table);
    assert order[0] in order;
    assert l[0] == table[order[0]] && l[1..] == Values(order[1..], table);
    assert Distinct(order[1..]);
    if order[0] == d.uniqueId {
      assert forall u :: u in order[1..] ==> u != d.uniqueId;
      ValuesOther(order[1..], table, table');
    } else {
      ValuesUpdate(order[1..], table, d);
    }
  }

  lemma {:induction false} ValuesAppend(order: seq<string>, table: map<string, Device>, d: Device)
    requires d.uniqueId !in order
    requires forall u :: u in order ==> u in table && table[u].uniqueId == u
    ensures Values(order + [d.uniqueId], table[d.uniqueId := d]) == Put(Values(order, table), d)
  {
    var table' := table[d.uniqueId := d];
    if order != [] {
      ValuesAppend(order[1..], table, d);
      var longer := order + [d.uniqueId];
      assert longer[0] == order[0] && longer[1..] == order[1..] + [d.uniqueId];
      assert order[0] in order;
      var l := Values(order, table);
      assert l[0] == table[order[0]] && l[1..] == Values(order[1..], table);
    }
  }

  lemma {:induction false} WithoutMembers(order: seq<string>, u: string)
    requires Distinct(order)
    ensures Distinct(Without(order, u))
    ensures forall x :: x in Without(order, u) <==> x in order && x != u
  {
    if order != [] {
      assert order == [order[0]] + order[1..];
      assert Distinct(order[1..]);
      WithoutMembers(order[1..], u);
      assert forall x :: x in order[1..] ==> x != order[0];
      if order[0] != u {
        var r := Without(order, u);
        assert r[1..] == Without(order[1..], u);
        forall i, j | 0 <= i < j < |r| ensures r[i] != r[j] {
          if i > 0 {
            assert r[i] == r[1..][i - 1] && r[j] == r[1..][j - 1];
          } else {
            assert r[j] == r[1..][j - 1]; assert r[j] in r[1..];
          }
        }
      }
    }
  }

  lemma {:induction false} ValuesWithout(order: seq<string>, table: map<string, Device>, u: string)
    requires Distinct(order)
    requires forall x :: x in order ==> x in table && table[x].uniqueId == x
    requires forall x :: x in Without(order, u) ==> x in order && x != u
    ensures Values(Without(order, u), table - {u}) == Drop(Values(order, table), u)
  {
    if order != [] {
      var l := Values(order, table);
      assert order[0] in order;
      assert l[0] == table[order[0]] && l[1..] == Values(order[1..], table);
      assert Distinct(order[1..]);
      if order[0] == u {
        ValuesOther(order[1..], table, table - {u});
      } else {
        WithoutMembers(order[1..], u);
        ValuesWithout(order[1..], table, u);
        var r := Without(order, u);
        assert r[0] == order[0] && r[1..] == Without(order[1..], u);
      }
    }
  }

  // ---------- the class ----------

  /** `set` and `remove` throw for a device without uniqueId. */
  datatype Removal = Thrown | Answered(deleted: bool)

  class DeviceManager {
    var order: seq<string>
    var table: map<string, Device>

    ghost predicate Valid()
      reads this
    {
      Indexed(order, table)
    }

    ghost function Contents(): seq<Device>
      requires Valid()
      reads this
    {
      Values(order, table)
    }

    constructor ()
      ensures Valid() && Contents() == []
    {
      order := [];
      table := map[];
    }

    method Has(uid: string) returns (r: bool)
      requires Valid()
      ensures r <==> Holds(Contents(), uid)
    {
      r := uid in table;
      HoldsIsIn(order, table, uid);
    }

    method Set(d: Device) returns (ok: bool)
      requires Valid()
      modifies this
      ensures Valid()
      ensures ok <==> d.uniqueId != ""
      ensures Contents() == if ok then Put(old(Contents()), d) else old(Contents())
    {
      if d.uniqueId == "" { return false; }
      if d.uniqueId in table {
        ValuesUpdate(order, table, d);
      } else {
        ValuesAppend(order, table, d);
        order := order + [d.uniqueId];
      }
      table := table[d.uniqueId := d];
      return true;
    }

    method Remove(d: Device) returns (r: Removal)
      requires Valid()
      modifies this
      ensures Valid()
      ensures r.Thrown? <==> d.uniqueId == ""
      ensures r.Answered? ==> r.deleted == old(Holds(Contents(), d.uniqueId))
      ensures Contents() == if r.Answered? then Drop(old(Contents()), d.uniqueId) else old(Contents())
    {
      if d.uniqueId == "" { return Thrown; }
      HoldsIsIn(order, table, d.uniqueId);
      r := Answered(d.uniqueId in table);
      WithoutMembers(order, d.uniqueId);
      ValuesWithout(order, table, d.uniqueId);
      order := Without(order, d.uniqueId);
      table := table - {d.uniqueId};
    }

    method Clear()
      requires Valid()
      modifies this
      ensures Valid() && Contents() == []
    {
      order := [];
      table := map[];
    }

    /** `baseArray`: all devices, or those of one plugin; an empty name does not filter. */
    method BaseArray(plugin: Option<string>) returns (devices: seq<Device>)
      requires Valid()
      ensures devices == Select(Contents(), plugin)
      ensures plugin.None? || plugin.value == "" ==> devices == Contents()
      ensures plugin.Some? && plugin.value != "" ==> devices == OfPlugin(Contents(), plugin.value)
    {
      var all := Values(order, table);
      devices := [];
      var i := 0;
      while i < |all|
        invariant 0 <= i <= |all|
        invariant devices == Select(all[..i], plugin)
      {
        var device := all[i];
        assert all[..i + 1] == all[..i] + [device];
        SelectAppend(all[..i], device, plugin);
        i := i + 1;
        if plugin.Some? && plugin.value != "" && plugin.value != device.plugin { continue; }
        devices := devices + [device];
      }
      assert all[..i] == all;
    }
  }

  function Select(l: seq<Device>, plugin: Option<string>): seq<Device> {
    if plugin.GetOr("") == "" then l else OfPlugin(l, plugin.value)
  }

  lemma SelectAppend(l: seq<Device>, d: Device, plugin: Option<string>)
    ensures Select(l + [d], plugin)
         == Select(l, plugin) + (if plugin.Some? && plugin.value != "" && plugin.value != d.plugin then [] else [d])
  {
    if plugin.Some? { OfPluginAppend(l, d, plugin.value); }
  }

  lemma HoldsIsIn(order: seq<string>, table: map<string, Device>, u: string)
    requires Indexed(order, table)
    ensures Holds(Values(order, table), u) <==> u in table
  {
    var l := Values(order, table);
    if order != [] { ValuesAt(order, table, 0); }
    if u in table {
      var i :| 0 <= i < |order| && order[i] == u;
      ValuesAt(order, table, i);
      assert l[i] in l;
    }
    if Holds(l, u) {
      var x :| x in l && x.uniqueId == u;
      var i :| 0 <= i < |l| && l[i] == x;
      ValuesAt(order, table, i);
      assert order[i] in table;
    }
  }

  lemma {:induction false} OfPluginAppend(l: seq<Device>, d: Device, p: string)
    ensures OfPlugin(l + [d], p) == OfPlugin(l, p) + (if d.plugin == p then [d] else [])
  {
    if l != [] {
      assert (l + [d])[1..] == l[1..] + [d];
      OfPluginAppend(l[1..], d, p);
    }
  }

  // ---------- every run of operations ----------

  datatype Op = SetOp(device: Device) | RemoveOp(device: Device) | ClearOp

  /** The list after an operation; `set` and `remove` of a device without uniqueId throw and change nothing. */
  function Apply(l: seq<Device>, op: Op): seq<Device> {
    match op
    case SetOp(d) => if d.uniqueId == "" then l else Put(l, d)
    case RemoveOp(d) => if d.uniqueId == "" then l else Drop(l, d.uniqueId)
    case ClearOp => []
  }

  function ApplyAll(ops: seq<Op>): seq<Device> {
    if ops == [] then [] else Apply(ApplyAll(ops[..|ops| - 1]), ops[|ops| - 1])
  }

  // What the list should hold, read off the operations alone.

  /** The device last set under `u` and not removed or cleared since. */
  function LastSet(ops: seq<Op>, u: string): Option<Device> {
    if ops == [] then None
    else
      match ops[|ops| - 1]
      case SetOp(d) => if d.uniqueId == u && u != "" then Some(d) else LastSet(ops[..|ops| - 1], u)
      case RemoveOp(d) => if d.uniqueId == u && u != "" then None else LastSet(ops[..|ops| - 1], u)
      case ClearOp => None
  }

  /** When `u` was first set since it was last removed or cleared. */
  function Birth(ops: seq<Op>, u: string): nat {
    if ops == [] then 0
    else
      var before := ops[..|ops| - 1];
      match ops[|ops| - 1]
      case SetOp(d) => if d.uniqueId == u && LastSet(before, u).None? then |ops| - 1 else Birth(before, u)
      case _ => Birth(before, u)
  }

  /** `l` holds exactly the live devices, oldest first. */
  ghost predicate Reflects(l: seq<Device>, ops: seq<Op>) {
    && (forall x :: x in l <==> x.uniqueId != "" && LastSet(ops, x.uniqueId) == Some(x))
    && (forall i :: 0 <= i < |l| ==> Birth(ops, l[i].uniqueId) < |ops|)
    && (forall i, j :: 0 <= i < j < |l| ==> Birth(ops, l[i].uniqueId) < Birth(ops, l[j].uniqueId))
  }

  lemma {:induction false} LastSetKey(ops: seq<Op>, u: string)
    ensures LastSet(ops, u).Some? ==> u != "" && LastSet(ops, u).value.uniqueId == u
  {
    if ops != [] { LastSetKey(ops[..|ops| - 1], u); }
  }

  /** `Put` on a key already present changes one place; on a new key it appends. */
  lemma {:induction false} PutShape(l: seq<Device>, d: Device)
    requires Unique(l)
    ensures Holds(l, d.uniqueId) ==>
              |Put(l, d)| == |l| && forall i :: 0 <= i < |l| ==> Put(l, d)[i].uniqueId == l[i].uniqueId
    ensures !Holds(l, d.uniqueId) ==> Put(l, d) == l + [d]
  {
    if l != [] {
      UniqueCons(l);
      assert l == [l[0]] + l[1..];
      if l[0].uniqueId == d.uniqueId {
        assert l[0] in l;
      } else {
        PutShape(l[1..], d);
        assert Holds(l, d.uniqueId) <==> Holds(l[1..], d.uniqueId);
      }
    }
  }

  /** `Drop` keeps the order of what remains. */
  lemma {:induction false} DropShape(l: seq<Device>, u: string, birth: string -> int)
    requires forall i, j :: 0 <= i < j < |l| ==> birth(l[i].uniqueId) < birth(l[j].uniqueId)
    ensures forall i, j :: 0 <= i < j < |Drop(l, u)| ==> birth(Drop(l, u)[i].uniqueId) < birth(Drop(l, u)[j].uniqueId)
    ensures forall x :: x in Drop(l, u) ==> x in l
  {
    if l != [] {
      assert l == [l[0]] + l[1..];
      if l[0].uniqueId != u {
        DropShape(l[1..], u, birth);
        var r := Drop(l, u);
        assert r[1..] == Drop(l[1..], u);
        forall i, j | 0 <= i < j < |r| ensures birth(r[i].uniqueId) < birth(r[j].uniqueId) {
          assert r[j] == r[1..][j - 1];
          assert r[j] in l[1..];
          if i > 0 { assert r[i] == r[1..][i - 1]; }
        }
      }
    }
  }

  lemma ReflectsUnique(l: seq<Device>, ops: seq<Op>)
    requires Reflects(l, ops)
    ensures Unique(l)
  {
    forall i, j | 0 <= i < j < |l| ensures l[i].uniqueId != l[j].uniqueId {
      assert Birth(ops, l[i].uniqueId) < Birth(ops, l[j].uniqueId);
    }
  }

  lemma HoldsIsLive(l: seq<Device>, ops: seq<Op>, u: string)
    requires Reflects(l, ops) && u != ""
    ensures Holds(l, u) <==> LastSet(ops, u).Some?
  {
    LastSetKey(ops, u);
    if LastSet(ops, u).Some? { assert LastSet(ops, u).value in l; }
  }

  /** How a `set` changes the birth of a key. */
  lemma BirthAfterSet(before: seq<Op>, d: Device, u: string)
    ensures Birth(before + [SetOp(d)], u)
         == if d.uniqueId == u && LastSet(before, u).None? then |before| else Birth(before, u)
  {
    var ops := before + [SetOp(d)];
    assert ops[..|ops| - 1] == before;
  }

  lemma SetMembers(l: seq<Device>, before: seq<Op>, d: Device)
    requires Reflects(l, before) && d.uniqueId != ""
    ensures forall x :: x in Put(l, d) <==> x.uniqueId != "" && LastSet(before + [SetOp(d)], x.uniqueId) == Some(x)
  {
    var ops := before + [SetOp(d)];
    assert ops[..|ops| - 1] == before;
    ReflectsUnique(l, before);
    PutMembers(l, d);
  }

  lemma ReflectsSet(l: seq<Device>, before: seq<Op>, d: Device)
    requires Reflects(l, before) && d.uniqueId != ""
    ensures Reflects(Put(l, d), before + [SetOp(d)])
  {
    var ops, r := before + [SetOp(d)], Put(l, d);
    SetMembers(l, before, d);
    ReflectsUnique(l, before);
    PutShape(l, d);
    HoldsIsLive(l, before, d.uniqueId);
    forall i | 0 <= i < |r|
      ensures Birth(ops, r[i].uniqueId) == if i < |l| then Birth(before, l[i].uniqueId) else |before|
    {
      BirthAfterSet(before, d, r[i].uniqueId);
      if i < |l| { assert l[i] in l; }
    }
  }

  lemma ReflectsRemove(l: seq<Device>, before: seq<Op>, d: Device)
    requires Reflects(l, before) && d.uniqueId != ""
    ensures Reflects(Drop(l, d.uniqueId), before + [RemoveOp(d)])
  {
    var ops := before + [RemoveOp(d)];
    assert ops[..|ops| - 1] == before;
    var r := Drop(l, d.uniqueId);
    ReflectsUnique(l, before);
    DropMembers(l, d.uniqueId);
    DropShape(l, d.uniqueId, u => Birth(before, u));
    forall i | 0 <= i < |r| ensures Birth(ops, r[i].uniqueId) < |ops| {
      assert r[i] in l;
      var k :| 0 <= k < |l| && l[k] == r[i];
    }
  }

  lemma ReflectsStep(l: seq<Device>, before: seq<Op>, op: Op)
    requires Reflects(l, before)
    ensures Reflects(Apply(l, op), before + [op])
  {
    var ops := before + [op];
    assert ops[..|ops| - 1] == before;
    match op
    case SetOp(d) => if d.uniqueId != "" { ReflectsSet(l, before, d); } else { NamelessOp(l, before, op); }
    case RemoveOp(d) => if d.uniqueId != "" { ReflectsRemove(l, before, d); } else { NamelessOp(l, before, op); }
    case ClearOp =>
  }

  lemma NamelessOp(l: seq<Device>, before: seq<Op>, op: Op)
    requires Reflects(l, before) && !op.ClearOp? && op.device.uniqueId == ""
    ensures Reflects(l, before + [op])
  {
    var ops := before + [op];
    assert ops[..|ops| - 1] == before;
    assert forall x :: x in l ==> x.uniqueId != "";
    forall i | 0 <= i < |l| ensures Birth(ops, l[i].uniqueId) == Birth(before, l[i].uniqueId) { assert l[i] in l; }
  }

  /** After any run of set, remove and clear, the list holds each live uniqueId once, with the device
      last set, in the order in which they were first set since their last removal. */
  lemma {:induction false} ListReflectsRun(ops: seq<Op>)
    ensures Reflects(ApplyAll(ops), ops) && Unique(ApplyAll(ops))
  {
    if ops != [] {
      var before := ops[..|ops| - 1];
      ListReflectsRun(before);
      ReflectsStep(ApplyAll(before), before, ops[|ops| - 1]);
      assert before + [ops[|ops| - 1]] == ops;
    }
    ReflectsUnique(ApplyAll(ops), ops);
  }

  // ---------- per-plugin lists ----------

  lemma {:induction false} OfPluginOrdered(l: seq<Device>, p: string, birth: string -> int)
    requires forall i, j :: 0 <= i < j < |l| ==> birth(l[i].uniqueId) < birth(l[j].uniqueId)
    ensures forall x :: x in OfPlugin(l, p) <==> x in l && x.plugin == p
    ensures forall i, j :: 0 <= i < j < |OfPlugin(l, p)| ==>
              birth(OfPlugin(l, p)[i].uniqueId) < birth(OfPlugin(l, p)[j].uniqueId)
  {
    if l != [] {
      assert l == [l[0]] + l[1..];
      OfPluginOrdered(l[1..], p, birth);
      var r, t := OfPlugin(l, p), OfPlugin(l[1..], p);
      if l[0].plugin == p {
        forall i, j | 0 <= i < j < |r| ensures birth(r[i].uniqueId) < birth(r[j].uniqueId) {
          assert r[j] == t[j - 1] && r[j] in l[1..];
          if i > 0 { assert r[i] == t[i - 1]; }
        }
      }
    }
  }

  /** What `baseArray(p)` answers after any run: the live devices of the plugin, oldest first. */
  lemma BaseArrayAfterRun(ops: seq<Op>, p: string)
    ensures var r := OfPlugin(ApplyAll(ops), p);
            && (forall x :: x in r <==> x.plugin == p && x.uniqueId != "" && LastSet(ops, x.uniqueId) == Some(x))
            && (forall i, j :: 0 <= i < j < |r| ==> Birth(ops, r[i].uniqueId) < Birth(ops, r[j].uniqueId))
  {
    ListReflectsRun(ops);
    OfPluginOrdered(ApplyAll(ops), p, u => Birth(ops, u));
  }

  function Gather(l: seq<Device>, names: seq<string>): seq<Device> {
    if names == [] then [] else OfPlugin(l, names[0]) + Gather(l, names[1..])
  }

  /** The per-plugin lists partition the whole: gathered over all plugin names, every device comes up exactly as
      often as it does in the full list. */
  lemma {:induction false} PluginsPartition(l: seq<Device>, names: seq<string>)
    requires Distinct(names) && forall x :: x in l ==> x.plugin in names
    ensures multiset(Gather(l, names)) == multiset(l)
  {
    if l == [] {
      GatherNone(names);
    } else {
      PluginsPartition(l[1..], names);
      GatherCons(l[0], l[1..], names);
      assert l == [l[0]] + l[1..];
    }
  }

  lemma {:induction false} GatherNone(names: seq<string>)
    ensures Gather([], names) == []
  {
    if names != [] { GatherNone(names[1..]); }
  }

  lemma {:induction false} GatherCons(d: Device, l: seq<Device>, names: seq<string>)
    requires Distinct(names)
    ensures multiset(Gather([d] + l, names))
         == multiset(Gather(l, names)) + (if d.plugin in names then multiset{d} else multiset{})
  {
    if names != [] {
      assert names == [names[0]] + names[1..];
      assert Distinct(names[1..]);
      GatherCons(d, l, names[1..]);
      assert ([d] + l)[1..] == l;
      assert forall u :: u in names[1..] ==> u != names[0];
    }
  }
}
