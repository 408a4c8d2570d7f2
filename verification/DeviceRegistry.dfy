/**
 The DeviceManager of packages/core/src/deviceManager.ts: an insertion-ordered map from
 uniqueId to device.  The map is specified by the sequence of its values, in order.
 */
module DeviceRegistry {

  datatype DeviceMode = Bridged | Matter | Server

  /** A MatterbridgeEndpoint, reduced to what the registry and the node look at.
      `complete`: deviceType, deviceName, vendorId, vendorName, productId and productName are all truthy.
      `ownServer`: the endpoint carries its own server node. */
  datatype Device = Device(
    id: string,
    uniqueId: string,
    plugin: string,
    mode: DeviceMode,
    complete: bool,
    ownServer: bool)

  // ---------- the ordered map as a sequence of values ----------

  predicate Holds(l: seq<Device>, uid: string) {
    exists x :: x in l && x.uniqueId == uid
  }

  ghost predicate Unique(l: seq<Device>) {
    forall i, j :: 0 <= i < j < |l| ==> l[i].uniqueId != l[j].uniqueId
  }

  /** `Map.set`: an existing key keeps its place, a new key goes last. */
  function Put(l: seq<Device>, d: Device): (r: seq<Device>) {
    if l == [] then [d]
    else if l[0].uniqueId == d.uniqueId then [d] + l[1..]
    else [l[0]] + Put(l[1..], d)
  }

  /** `Map.delete`. */
  function Drop(l: seq<Device>, uid: string): (r: seq<Device>) {
    if l == [] then []
    else if l[0].uniqueId == uid then l[1..]
    else [l[0]] + Drop(l[1..], uid)
  }

  /** The devices of one plugin, in order. */
  function OfPlugin(l: seq<Device>, p: string): (r: seq<Device>) {
    if l == [] then []
    else (if l[0].plugin == p then [l[0]] else []) + OfPlugin(l[1..], p)
  }
}
