/**
 The circular history of packages/utils/src/tracker.ts and its reader in packages/core/src/cliHistory.ts.
 */
module HistoryRing {
  import opened Optional

  /** A measured value and, if recorded, its running peak. */
  datatype Reading = Reading(value: real, peak: Option<real>)

  datatype Metric = OsCpu | ProcessCpu | Rss | HeapUsed | HeapTotal | External | ArrayBuffers

  datatype Snapshot = Snapshot(
    timestamp: nat,
    osCpu: Reading,
    processCpu: Reading,
    rss: Reading,
    heapUsed: Reading,
    heapTotal: Reading,
    external: Reading,
    arrayBuffers: Reading)

  function ReadingOf(s: Snapshot, m: Metric): Reading {
    match m
    case OsCpu => s.osCpu
    case ProcessCpu => s.processCpu
    case Rss => s.rss
    case HeapUsed => s.heapUsed
    case HeapTotal => s.heapTotal
    case External => s.external
    case ArrayBuffers => s.arrayBuffers
  }

  /** `entry.peakX ?? entry.x`. */
  function Shown(s: Snapshot, m: Metric): real {
    var r := ReadingOf(s, m);
    r.peak.GetOr(r.value)
  }

  /** A slot of the ring: missing, or an entry; an entry with timestamp 0 is unused. */
  type Slot = Option<Snapshot>

  predicate Used(slot: Slot) {
    slot.Some? && slot.value.timestamp != 0
  }

  /** The used slots, in order. */
  function Entries(slots: seq<Slot>): seq<Snapshot> {
    if slots == [] then [] else (if Used(slots[0]) then [slots[0].value] else []) + Entries(slots[1..])
  }

  /** The ring read from `start` on, once around. */
  function Rotate<T>(ring: seq<T>, start: nat): seq<T>
    requires start <= |ring|
  {
    ring[start..] + ring[..start]
  }

  lemma {:induction false} EntriesAppend(slots: seq<Slot>, slot: Slot)
    ensures Entries(slots + [slot]) == Entries(slots) + (if Used(slot) then [slot.value] else [])
  {
    if slots != [] {
      EntriesAppend(slots[1..], slot);
      assert (slots + [slot])[1..] == slots[1..] + [slot];
    }
  }

  lemma {:induction false} EntriesMembers(slots: seq<Slot>)
    ensures forall s :: s in Entries(slots) <==> s.timestamp != 0 && Some(s) in slots
  {
    if slots != [] {
      EntriesMembers(slots[1..]);
      assert slots == [slots[0]] + slots[1..];
    }
  }

  // ---------- the reader ----------

  /** The loop of `generateHistoryPage`: it starts at the write index and goes once around. */
  method NormalizedHistory(history: array<Slot>, index: nat) returns (normalized: seq<Snapshot>)
    requires history.Length > 0
    ensures normalized == Entries(Rotate(history[..], index % history.Length))
  {
    var size := history.Length;
    normalized := [];
    ghost var start := index % size;
    ghost var turned := Rotate(history[..], start);
    var offset := 0;
    while offset < size
      invariant 0 <= offset <= size
      invariant normalized == Entries(turned[..offset])
    {
      var entry := history[(index + offset) % size];
      ModSum(index, offset, size);
      assert turned[offset] == entry;
      assert turned[..offset + 1] == turned[..offset] + [entry];
      EntriesAppend(turned[..offset], entry);
      offset := offset + 1;
      if entry.None? || entry.value.timestamp == 0 { continue; }
      normalized := normalized + [entry.value];
    }
    assert turned[..offset] == turned;
  }

  lemma ModSum(index: nat, offset: nat, size: nat)
    requires 0 <= offset < size
    ensures var start := index % size;
            (index + offset) % size == if start + offset < size then start + offset else start + offset - size
  {
    var q, start := index / size, index % size;
    var k, m := (index + offset) / size, (index + offset) % size;
    assert index == q * size + start;
    assert index + offset == k * size + m;
    if start + offset < size {
      Remainder(q, start + offset, k, m, size);
    } else {
      assert (q + 1) * size == q * size + size;
      Remainder(q + 1, start + offset - size, k, m, size);
    }
  }

  lemma Remainder(q: int, r: int, k: int, m: int, size: int)
    requires 0 <= r < size && 0 <= m < size && q * size + r == k * size + m
    ensures r == m
  {
    assert (q - k) * size == q * size - k * size;
    if q > k { Multiple(q - k, size); }
    if q < k { Multiple(k - q, size); }
  }

  lemma Multiple(d: int, size: int)
    requires d >= 1 && size > 0
    ensures d * size >= size
  {}

  /** Once around the ring visits every slot exactly once. */
  lemma RotateVisitsAll(ring: seq<Slot>, start: nat)
    requires start <= |ring|
    ensures multiset(Rotate(ring, start)) == multiset(ring)
  {
    assert ring == ring[..start] + ring[start..];
  }

  // ---------- the peaks ----------

  /** `Math.max(...)` over the shown values. */
  function MaxShown(entries: seq<Snapshot>, m: Metric): real
    requires entries != []
  {
    var first := Shown(entries[0], m);
    if |entries| == 1 then first else Max(first, MaxShown(entries[1..], m))
  }

  function Max(a: real, b: real): real { if a < b then b else a }

  lemma {:induction false} MaxShownIs(entries: seq<Snapshot>, m: Metric)
    requires entries != []
    ensures forall s :: s in entries ==> Shown(s, m) <= MaxShown(entries, m)
    ensures exists s :: s in entries && Shown(s, m) == MaxShown(entries, m)
  {
    assert entries == [entries[0]] + entries[1..];
    assert entries[0] in entries;
    if |entries| > 1 {
      MaxShownIs(entries[1..], m);
      var s :| s in entries[1..] && Shown(s, m) == MaxShown(entries[1..], m);
      assert s in entries;
    }
  }

  /** The peak on the page is the maximum over the used slots of the raw buffer, wherever it is read from;
      there is a page exactly if some slot is used. */
  lemma PeakIgnoresRotation(ring: seq<Slot>, start: nat, m: Metric)
    requires start <= |ring|
    ensures Entries(Rotate(ring, start)) != [] <==> exists i :: 0 <= i < |ring| && Used(ring[i])
    ensures var page := Entries(Rotate(ring, start));
            page != [] ==>
              && (forall i :: 0 <= i < |ring| && Used(ring[i]) ==> Shown(ring[i].value, m) <= MaxShown(page, m))
              && (exists i :: 0 <= i < |ring| && Used(ring[i]) && Shown(ring[i].value, m) == MaxShown(page, m))
  {
    var turned := Rotate(ring, start);
    var page := Entries(turned);
    EntriesMembers(turned);
    assert forall x :: x in turned <==> x in ring by { assert ring == ring[..start] + ring[start..]; }
    if page != [] {
      assert page[0] in page;
      assert Some(page[0]) in ring;
      MaxShownIs(page, m);
      var s :| s in page && Shown(s, m) == MaxShown(page, m);
      assert Some(s) in ring;
      var k :| 0 <= k < |ring| && ring[k] == Some(s);
      assert Used(ring[k]) && Shown(ring[k].value, m) == MaxShown(page, m);
    }
    forall i | 0 <= i < |ring| && Used(ring[i]) ensures ring[i].value in page {
      assert ring[i] in ring && ring[i] == Some(ring[i].value);
    }
  }

  // ---------- writing ----------

  datatype Ring = Ring(slots: seq<Slot>, index: nat)

  predicate Valid(r: Ring) {
    |r.slots| > 0 && r.index < |r.slots|
  }

  /** The index after `i`, once around. */
  function After(i: nat, size: nat): nat
    requires i < size
  {
    if i + 1 < size then i + 1 else 0
  }

  /** The index before `i`, once around. */
  function Before(i: nat, size: nat): nat
    requires i < size
  {
    if i == 0 then size - 1 else i - 1
  }

  /** The two as the source computes them. */
  lemma Around(i: nat, size: nat)
    requires i < size
    ensures (i + 1) % size == After(i, size)
    ensures (i + size - 1) % size == Before(i, size)
  {
    assert i % size == i;
    ModSum(i, size - 1, size);
    if size == 1 { assert (i + 1) % size == 0; } else { ModSum(i, 1, size); }
  }

  /** Write at the index and advance it. */
  function Write(r: Ring, x: Snapshot): (r': Ring)
    requires Valid(r)
    ensures Valid(r')
  {
    Ring(r.slots[r.index := Some(x)], After(r.index, |r.slots|))
  }

  function WriteAll(r: Ring, xs: seq<Snapshot>): (r': Ring)
    requires Valid(r)
    ensures Valid(r')
    decreases |xs|
  {
    if xs == [] then r else WriteAll(Write(r, xs[0]), xs[1..])
  }

  /** Seen from the reader, a write drops the oldest slot and appends the new one. */
  lemma WriteTurns(r: Ring, x: Snapshot)
    requires Valid(r)
    ensures Rotate(Write(r, x).slots, Write(r, x).index) == Rotate(r.slots, r.index)[1..] + [Some(x)]
  {
    var r' := Write(r, x);
    var i := r.index;
    var was, now := Rotate(r.slots, i), Rotate(r'.slots, r'.index);
    if i + 1 < |r.slots| {
      assert r'.index == i + 1;
      assert now == r.slots[i + 1..] + (r.slots[..i] + [Some(x)]);
      assert was[1..] == r.slots[i + 1..] + r.slots[..i];
    } else {
      assert r'.index == 0;
      assert now == r.slots[..i] + [Some(x)];
      assert was[1..] == r.slots[..i];
    }
  }

  function Slots(xs: seq<Snapshot>): seq<Slot> {
    if xs == [] then [] else [Some(xs[0])] + Slots(xs[1..])
  }

  /** After any writes the reader sees the end of what it saw before followed by what was written. */
  lemma {:induction false} WritesTurn(r: Ring, xs: seq<Snapshot>)
    requires Valid(r)
    ensures var r' := WriteAll(r, xs);
            && |Slots(xs)| == |xs| && |r'.slots| == |r.slots|
            && Rotate(r'.slots, r'.index) == (Rotate(r.slots, r.index) + Slots(xs))[|xs|..]
    decreases |xs|
  {
    var was := Rotate(r.slots, r.index);
    if xs == [] {
      assert (was + [])[0..] == was;
    } else {
      WriteTurns(r, xs[0]);
      var r1 := Write(r, xs[0]);
      WritesTurn(r1, xs[1..]);
      ShiftOne(was, Some(xs[0]), Slots(xs[1..]), |xs|);
    }
  }

  lemma ShiftOne<T>(was: seq<T>, x: T, rest: seq<T>, n: nat)
    requires was != [] && 0 < n <= |rest| + 1
    ensures (was[1..] + [x] + rest)[n - 1..] == (was + ([x] + rest))[n..]
  {}

  /** The last `n` elements, or all of them if there are fewer. */
  function Last<T>(xs: seq<T>, n: nat): seq<T> {
    if |xs| <= n then xs else xs[|xs| - n..]
  }

  lemma {:induction false} EntriesSkip(a: seq<Slot>, b: seq<Slot>)
    requires forall i :: 0 <= i < |a| ==> !Used(a[i])
    ensures Entries(a + b) == Entries(b)
  {
    if a == [] {
      assert a + b == b;
    } else {
      assert (a + b)[1..] == a[1..] + b;
      EntriesSkip(a[1..], b);
    }
  }

  lemma {:induction false} SlotsAt(xs: seq<Snapshot>, k: nat)
    requires k <= |xs|
    ensures |Slots(xs)| == |xs| && Slots(xs)[k..] == Slots(xs[k..])
  {
    if k > 0 {
      SlotsAt(xs[1..], k - 1);
      assert Slots(xs)[k..] == Slots(xs[1..])[k - 1..];
      assert xs[1..][k - 1..] == xs[k..];
    } else if xs != [] {
      SlotsAt(xs[1..], 0);
    }
  }

  lemma {:induction false} EntriesOfSlots(xs: seq<Snapshot>)
    requires forall i :: 0 <= i < |xs| ==> xs[i].timestamp != 0
    ensures Entries(Slots(xs)) == xs
  {
    if xs != [] { EntriesOfSlots(xs[1..]); }
  }

  /** For every ring size, every start index and every number of writes into an unused ring, the page
      lists the last min(n, size) samples in the order they were written. */
  lemma PageIsLastWrites(r: Ring, xs: seq<Snapshot>)
    requires Valid(r) && forall i :: 0 <= i < |r.slots| ==> !Used(r.slots[i])
    requires forall i :: 0 <= i < |xs| ==> xs[i].timestamp != 0
    ensures var r' := WriteAll(r, xs); Entries(Rotate(r'.slots, r'.index)) == Last(xs, |r.slots|)
  {
    WritesTurn(r, xs);
    TailOfWrites(Rotate(r.slots, r.index), xs);
  }

  lemma DropPast<T>(a: seq<T>, b: seq<T>, n: nat)
    requires n <= |a| + |b|
    ensures (a + b)[n..] == if n <= |a| then a[n..] + b else b[n - |a|..]
  {}

  lemma TailOfWrites(was: seq<Slot>, xs: seq<Snapshot>)
    requires forall i :: 0 <= i < |was| ==> !Used(was[i])
    requires forall i :: 0 <= i < |xs| ==> xs[i].timestamp != 0
    ensures |Slots(xs)| == |xs| && Entries((was + Slots(xs))[|xs|..]) == Last(xs, |was|)
  {
    SlotsAt(xs, 0);
    DropPast(was, Slots(xs), |xs|);
    if |xs| <= |was| { FewWrites(was, xs); } else { ManyWrites(xs, |xs| - |was|); }
  }

  lemma FewWrites(was: seq<Slot>, xs: seq<Snapshot>)
    requires |xs| <= |was| && forall i :: 0 <= i < |was| ==> !Used(was[i])
    requires forall i :: 0 <= i < |xs| ==> xs[i].timestamp != 0
    ensures Entries(was[|xs|..] + Slots(xs)) == xs
  {
    EntriesSkip(was[|xs|..], Slots(xs));
    EntriesOfSlots(xs);
  }

  lemma ManyWrites(xs: seq<Snapshot>, k: nat)
    requires k <= |xs| && forall i :: 0 <= i < |xs| ==> xs[i].timestamp != 0
    ensures |Slots(xs)| == |xs| && Entries(Slots(xs)[k..]) == xs[k..]
  {
    SlotsAt(xs, k);
    EntriesOfSlots(xs[k..]);
  }

  // ---------- the tracker: every entry carries the peaks so far ----------

  datatype Measure = Measure(
    timestamp: nat,
    osCpu: real,
    processCpu: real,
    rss: real,
    heapUsed: real,
    heapTotal: real,
    external: real,
    arrayBuffers: real)

  function ValueOf(x: Measure, m: Metric): real {
    match m
    case OsCpu => x.osCpu
    case ProcessCpu => x.processCpu
    case Rss => x.rss
    case HeapUsed => x.heapUsed
    case HeapTotal => x.heapTotal
    case External => x.external
    case ArrayBuffers => x.arrayBuffers
  }

  const ZERO := Reading(0.0, Some(0.0))
  const BLANK := Snapshot(0, ZERO, ZERO, ZERO, ZERO, ZERO, ZERO, ZERO)

  function Peaked(prev: Reading, v: real): Reading {
    Reading(v, Some(Max(prev.peak.GetOr(0.0), v)))
  }

  /** The entry recorded for a measurement after the entry `prev`. */
  function Recorded(prev: Snapshot, x: Measure): Snapshot {
    Snapshot(
      x.timestamp,
      Peaked(prev.osCpu, x.osCpu),
      Peaked(prev.processCpu, x.processCpu),
      Peaked(prev.rss, x.rss),
      Peaked(prev.heapUsed, x.heapUsed),
      Peaked(prev.heapTotal, x.heapTotal),
      Peaked(prev.external, x.external),
      Peaked(prev.arrayBuffers, x.arrayBuffers))
  }

  /** The slot before the write index: the entry recorded last. */
  function Newest(r: Ring): Snapshot
    requires Valid(r)
  {
    r.slots[Before(r.index, |r.slots|)].GetOr(BLANK)
  }

  function Unpeaked(r: Reading): Reading {
    r.(peak := Some(0.0))
  }

  /** An entry whose peaks have been reset. */
  function Zeroed(s: Snapshot): Snapshot {
    Snapshot(s.timestamp, Unpeaked(s.osCpu), Unpeaked(s.processCpu), Unpeaked(s.rss), Unpeaked(s.heapUsed),
             Unpeaked(s.heapTotal), Unpeaked(s.external), Unpeaked(s.arrayBuffers))
  }

  /** The ring after a reset of the peaks: only the newest entry changes. */
  function Reset(r: Ring): (r': Ring)
    requires Valid(r)
    ensures Valid(r')
  {
    r.(slots := r.slots[Before(r.index, |r.slots|) := Some(Zeroed(Newest(r)))])
  }

  class Tracker {
    const history: array<Slot>
    var index: nat

    ghost predicate Ready()
      reads this, history
    {
      Valid(View())
    }

    ghost function View(): Ring
      reads this, history
    {
      Ring(history[..], index)
    }

    constructor (size: nat)
      requires size > 0
      ensures Ready() && fresh(history) && history.Length == size
      ensures index == 0 && forall i :: 0 <= i < size ==> history[i] == Some(BLANK)
    {
      history := new Slot[size](_ => Some(BLANK));
      index := 0;
    }

    /** One tick of the interval timer. */
    method Sample(x: Measure)
      requires Ready()
      modifies this, history
      ensures Ready() && View() == Write(old(View()), Recorded(Newest(old(View())), x))
    {
      var size := history.Length;
      Around(index, size);
      var prev := history[(index + size - 1) % size];
      history[index] := Some(Recorded(prev.GetOr(BLANK), x));
      index := (index + 1) % size;
    }

    method ResetPeaks()
      requires Ready()
      modifies history
      ensures Ready() && View() == Reset(old(View()))
    {
      var size := history.Length;
      Around(index, size);
      var prev := (index + size - 1) % size;
      history[prev] := Some(Zeroed(history[prev].GetOr(BLANK)));
    }
  }

  /** The ring after a run of measurements. */
  function Track(r: Ring, xs: seq<Measure>): (r': Ring)
    requires Valid(r)
    ensures Valid(r')
    decreases |xs|
  {
    if xs == [] then r else Track(Write(r, Recorded(Newest(r), xs[0])), xs[1..])
  }

  /** The entries recorded by a run of measurements. */
  function Trail(prev: Snapshot, xs: seq<Measure>): seq<Snapshot>
    decreases |xs|
  {
    if xs == [] then [] else
      var s := Recorded(prev, xs[0]);
      [s] + Trail(s, xs[1..])
  }

  lemma NewestWritten(r: Ring, x: Snapshot)
    requires Valid(r)
    ensures Newest(Write(r, x)) == x
  {
    assert Before(After(r.index, |r.slots|), |r.slots|) == r.index;
  }

  lemma {:induction false} TrackIsTrail(r: Ring, xs: seq<Measure>)
    requires Valid(r)
    ensures Track(r, xs) == WriteAll(r, Trail(Newest(r), xs))
    decreases |xs|
  {
    if xs != [] {
      var s := Recorded(Newest(r), xs[0]);
      NewestWritten(r, s);
      TrackIsTrail(Write(r, s), xs[1..]);
      assert Trail(Newest(r), xs)[1..] == Trail(s, xs[1..]);
    }
  }

  /** The largest of `start` and the measured values. */
  function RunningPeak(start: real, xs: seq<Measure>, m: Metric): real
    decreases |xs|
  {
    if xs == [] then start else RunningPeak(Max(start, ValueOf(xs[0], m)), xs[1..], m)
  }

  lemma {:induction false} RunningPeakIs(start: real, xs: seq<Measure>, m: Metric)
    ensures start <= RunningPeak(start, xs, m)
    ensures forall x :: x in xs ==> ValueOf(x, m) <= RunningPeak(start, xs, m)
    ensures RunningPeak(start, xs, m) == start || exists x :: x in xs && ValueOf(x, m) == RunningPeak(start, xs, m)
    decreases |xs|
  {
    if xs != [] {
      var next := Max(start, ValueOf(xs[0], m));
      RunningPeakIs(next, xs[1..], m);
      assert xs == [xs[0]] + xs[1..];
      assert xs[0] in xs;
      var top := RunningPeak(start, xs, m);
      if exists x :: x in xs[1..] && ValueOf(x, m) == top {
        var x :| x in xs[1..] && ValueOf(x, m) == top;
        assert x in xs;
      }
    }
  }

  lemma {:induction false} TrailPeaks(prev: Snapshot, xs: seq<Measure>, m: Metric)
    requires ReadingOf(prev, m).peak.Some?
    ensures |Trail(prev, xs)| == |xs|
    ensures forall i :: 0 <= i < |xs| ==> Trail(prev, xs)[i].timestamp == xs[i].timestamp
    ensures forall i :: 0 <= i < |xs| ==> ReadingOf(Trail(prev, xs)[i], m).value == ValueOf(xs[i], m)
    ensures forall i :: 0 <= i < |xs| ==> Shown(Trail(prev, xs)[i], m) <= RunningPeak(Shown(prev, m), xs, m)
    ensures xs != [] ==> Shown(Trail(prev, xs)[|xs| - 1], m) == RunningPeak(Shown(prev, m), xs, m)
    decreases |xs|
  {
    if xs != [] {
      var s := Recorded(prev, xs[0]);
      assert Shown(s, m) == Max(Shown(prev, m), ValueOf(xs[0], m)) && ReadingOf(s, m).peak.Some?;
      TrailPeaks(s, xs[1..], m);
      RunningPeakIs(Shown(s, m), xs[1..], m);
      var t, rest := Trail(prev, xs), Trail(s, xs[1..]);
      assert forall i :: 1 <= i < |xs| ==> t[i] == rest[i - 1];
    }
  }

  /** After any number of measurements the page shows the last of them, each with its time and the value measured for
      every metric. */
  lemma PageShowsMeasures(r: Ring, xs: seq<Measure>, m: Metric)
    requires Valid(r) && forall i :: 0 <= i < |r.slots| ==> r.slots[i] == Some(BLANK)
    requires forall i :: 0 <= i < |xs| ==> xs[i].timestamp != 0
    ensures var r' := Track(r, xs); var page, last := Entries(Rotate(r'.slots, r'.index)), Last(xs, |r.slots|);
            && |page| == |last|
            && forall i :: 0 <= i < |page| ==>
                 page[i].timestamp == last[i].timestamp && ReadingOf(page[i], m).value == ValueOf(last[i], m)
  {
    assert Newest(r) == BLANK;
    TrackIsTrail(r, xs);
    TrailPeaks(BLANK, xs, m);
    PageIsLastWrites(r, Trail(BLANK, xs));
  }

  /** After any number of measurements, also when old ones have been overwritten, the peak on the page is the
      largest value ever measured. */
  lemma PeakSurvivesEviction(r: Ring, xs: seq<Measure>, m: Metric)
    requires Valid(r) && forall i :: 0 <= i < |r.slots| ==> r.slots[i] == Some(BLANK)
    requires xs != [] && forall i :: 0 <= i < |xs| ==> xs[i].timestamp != 0
    ensures var r' := Track(r, xs); var page := Entries(Rotate(r'.slots, r'.index));
            page != [] && MaxShown(page, m) == RunningPeak(0.0, xs, m)
  {
    assert Newest(r) == BLANK;
    TrackIsTrail(r, xs);
    TrailPeaks(BLANK, xs, m);
    PageIsLastWrites(r, Trail(BLANK, xs));
    LastHasPeak(xs, |r.slots|, m);
  }

  lemma LastHasPeak(xs: seq<Measure>, size: nat, m: Metric)
    requires xs != [] && size > 0
    ensures var page := Last(Trail(BLANK, xs), size); page != [] && MaxShown(page, m) == RunningPeak(0.0, xs, m)
  {
    TrailPeaks(BLANK, xs, m);
    var trail, top := Trail(BLANK, xs), RunningPeak(0.0, xs, m);
    assert Shown(BLANK, m) == 0.0;
    var page := Last(trail, size);
    forall k | 0 <= k < |page| ensures Shown(page[k], m) <= top { assert page[k] == trail[|trail| - |page| + k]; }
    assert page[|page| - 1] == trail[|trail| - 1];
    PeakAtEnd(page, m, top);
  }

  lemma PeakAtEnd(page: seq<Snapshot>, m: Metric, top: real)
    requires page != [] && Shown(page[|page| - 1], m) == top
    requires forall k :: 0 <= k < |page| ==> Shown(page[k], m) <= top
    ensures MaxShown(page, m) == top
  {
    MaxShownIs(page, m);
    assert page[|page| - 1] in page;
    var s :| s in page && Shown(s, m) == MaxShown(page, m);
    var k :| 0 <= k < |page| && page[k] == s;
  }
}
