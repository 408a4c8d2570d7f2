/** Facts about the ordered map of DeviceRegistry that the node's proofs use. */
module RegistryLemmas {
  import opened DeviceRegistry

  lemma UniqueCons(l: seq<Device>)
    requires l != []
    ensures Unique(l) <==> Unique(l[1..]) && !Holds(l[1..], l[0].uniqueId)
  {
    var t := l[1..];
    assert forall i :: 0 <= i < |t| ==> t[i] == l[i + 1];
    if Unique(t) && !Holds(t, l[0].uniqueId) {
      forall i, j | 0 <= i < j < |l| ensures l[i].uniqueId != l[j].uniqueId {
        assert l[j] == t[j - 1];
        assert l[j] in t;
        if i > 0 { assert l[i] == t[i - 1]; }
      }
    }
  }

  /** After a `set`, the device sits under its key and every other key is untouched. */
  lemma {:induction false} PutMembers(l: seq<Device>, d: Device)
    requires Unique(l)
    ensures Unique(Put(l, d))
    ensures forall x :: x in Put(l, d) <==> x == d || (x in l && x.uniqueId != d.uniqueId)
  {
    var r := Put(l, d);
    if l == [] {
    } else if l[0].uniqueId == d.uniqueId {
      UniqueCons(l);
      UniqueCons(r);
      assert l == [l[0]] + l[1..];
    } else {
      UniqueCons(l);
      PutMembers(l[1..], d);
      assert r[1..] == Put(l[1..], d);
      UniqueCons(r);
      assert l == [l[0]] + l[1..];
    }
  }

  /** After a `delete`, exactly the devices under other keys remain. */
  lemma {:induction false} DropMembers(l: seq<Device>, u: string)
    requires Unique(l)
    ensures Unique(Drop(l, u))
    ensures forall x :: x in Drop(l, u) <==> x in l && x.uniqueId != u
  {
    if l != [] {
      UniqueCons(l);
      assert l == [l[0]] + l[1..];
      if l[0].uniqueId != u {
        DropMembers(l[1..], u);
        var r := Drop(l, u);
        assert r[1..] == Drop(l[1..], u);
        UniqueCons(r);
      }
    }
  }

  /** 1 if a device of plugin `p` sits under `u`, else 0. */
  function HeldBy(l: seq<Device>, u: string, p: string): nat {
    if exists x :: x in l && x.uniqueId == u && x.plugin == p then 1 else 0
  }

  lemma HeldCons(l: seq<Device>, u: string, p: string)
    requires Unique(l) && l != []
    ensures HeldBy(l, u, p) ==
            (if l[0].uniqueId != u then HeldBy(l[1..], u, p)
             else if l[0].plugin == p then 1 else 0)
  {
    UniqueCons(l);
    assert l == [l[0]] + l[1..];
    if l[0].uniqueId == u && l[0].plugin == p {
      assert l[0] in l;
    }
  }

  lemma {:induction false} PutCount(l: seq<Device>, d: Device, p: string)
    requires Unique(l)
    ensures |OfPlugin(Put(l, d), p)|
         == |OfPlugin(l, p)| - HeldBy(l, d.uniqueId, p) + (if d.plugin == p then 1 else 0)
  {
    if l != [] {
      UniqueCons(l);
      HeldCons(l, d.uniqueId, p);
      var r := Put(l, d);
      if l[0].uniqueId == d.uniqueId {
        assert r[1..] == l[1..];
      } else {
        PutCount(l[1..], d, p);
        assert r[1..] == Put(l[1..], d);
      }
    }
  }

  lemma {:induction false} DropCount(l: seq<Device>, u: string, p: string)
    requires Unique(l)
    ensures |OfPlugin(Drop(l, u), p)| == |OfPlugin(l, p)| - HeldBy(l, u, p)
  {
    if l != [] {
      UniqueCons(l);
      HeldCons(l, u, p);
      if l[0].uniqueId != u {
        DropCount(l[1..], u, p);
        assert Drop(l, u)[1..] == Drop(l[1..], u);
      }
    }
  }
}
