/**
 The history under samples and resets of its peaks in any order (packages/utils/src/tracker.ts): the ring shows what a
 plain list of all entries would.
 */
module HistoryResets {
  import opened Optional
  import opened HistoryRing

  datatype Op = Sampled(x: Measure) | PeaksReset

  function Apply(r: Ring, op: Op): (r': Ring)
    requires Valid(r)
    ensures Valid(r')
  {
    match op
    case Sampled(x) => Write(r, Recorded(Newest(r), x))
    case PeaksReset => Reset(r)
  }

  function ApplyAll(r: Ring, ops: seq<Op>): (r': Ring)
    requires Valid(r)
    ensures Valid(r')
  {
    if ops == [] then r else Apply(ApplyAll(r, ops[..|ops| - 1]), ops[|ops| - 1])
  }

  // ---------- a plain list ----------

  function NewestOf(log: seq<Snapshot>): Snapshot {
    if log == [] then BLANK else log[|log| - 1]
  }

  /** Every entry ever recorded; a reset changes the newest one. */
  function Log(ops: seq<Op>): seq<Snapshot> {
    if ops == [] then []
    else
      var log := Log(ops[..|ops| - 1]);
      match ops[|ops| - 1]
      case Sampled(x) => log + [Recorded(NewestOf(log), x)]
      case PeaksReset => if log == [] then [] else log[..|log| - 1] + [Zeroed(NewestOf(log))]
  }

  /** The measurements since the last reset. */
  function SinceReset(ops: seq<Op>): seq<Measure> {
    if ops == [] || ops[|ops| - 1].PeaksReset? then []
    else SinceReset(ops[..|ops| - 1]) + [ops[|ops| - 1].x]
  }

  // ---------- the ring is a window on the list ----------

  /** What the reader sees: unused slots, then the entries of the list, the last `size` of all that. */
  ghost predicate Window(seen: seq<Slot>, size: nat, log: seq<Snapshot>) {
    && |seen| == size
    && forall i :: 0 <= i < size ==> seen[i] == if i + |log| < size then Some(BLANK) else Some(log[i + |log| - size])
  }

  /** Seen from the reader, the newest entry is the last slot, and a reset changes only that. */
  lemma ResetTurns(r: Ring)
    requires Valid(r)
    ensures var was, now, n := Rotate(r.slots, r.index), Rotate(Reset(r).slots, r.index), |r.slots|;
            && |was| == n && |now| == n
            && was[n - 1].GetOr(BLANK) == Newest(r)
            && now == was[n - 1 := Some(Zeroed(Newest(r)))]
  {
    var n, b := |r.slots|, Before(r.index, |r.slots|);
    var was, now := Rotate(r.slots, r.index), Rotate(Reset(r).slots, r.index);
    assert was[n - 1] == r.slots[b];
    forall i | 0 <= i < n - 1 ensures now[i] == was[i] {}
  }

  lemma WindowSample(seen: seq<Slot>, size: nat, log: seq<Snapshot>, s: Snapshot)
    requires size > 0 && Window(seen, size, log)
    ensures Window(seen[1..] + [Some(s)], size, log + [s])
  {}

  lemma WindowReset(seen: seq<Slot>, size: nat, log: seq<Snapshot>)
    requires size > 0 && Window(seen, size, log)
    ensures var log' := if log == [] then [] else log[..|log| - 1] + [Zeroed(NewestOf(log))];
            Window(seen[size - 1 := Some(Zeroed(NewestOf(log)))], size, log')
  {
    assert Zeroed(BLANK) == BLANK;
  }

  lemma {:induction false} RingIsWindow(r: Ring, ops: seq<Op>)
    requires Valid(r) && forall i :: 0 <= i < |r.slots| ==> r.slots[i] == Some(BLANK)
    ensures var r' := ApplyAll(r, ops);
            |r'.slots| == |r.slots| && Window(Rotate(r'.slots, r'.index), |r.slots|, Log(ops))
  {
    if ops != [] {
      var before, op := ops[..|ops| - 1], ops[|ops| - 1];
      RingIsWindow(r, before);
      var r1, log := ApplyAll(r, before), Log(before);
      match op
      case Sampled(x) => SampleShifts(r1, log, x);
      case PeaksReset => ResetChanges(r1, log);
    }
  }

  /** The ring shows the end of the list. */
  ghost predicate Shows(r: Ring, log: seq<Snapshot>) {
    Valid(r) && Window(Rotate(r.slots, r.index), |r.slots|, log)
  }

  lemma NewestShown(r: Ring, log: seq<Snapshot>)
    requires Shows(r, log)
    ensures Newest(r) == NewestOf(log)
  {
    ResetTurns(r);
  }

  lemma SampleShifts(r: Ring, log: seq<Snapshot>, x: Measure)
    requires Shows(r, log)
    ensures Shows(Apply(r, Sampled(x)), log + [Recorded(NewestOf(log), x)])
  {
    var s := Recorded(NewestOf(log), x);
    NewestShown(r, log);
    WriteTurns(r, s);
    WindowSample(Rotate(r.slots, r.index), |r.slots|, log, s);
  }

  lemma ResetChanges(r: Ring, log: seq<Snapshot>)
    requires Shows(r, log)
    ensures Shows(Reset(r), if log == [] then [] else log[..|log| - 1] + [Zeroed(NewestOf(log))])
  {
    NewestShown(r, log);
    ResetTurns(r);
    WindowReset(Rotate(r.slots, r.index), |r.slots|, log);
  }

  lemma {:induction false} LogUsed(ops: seq<Op>)
    requires forall i :: 0 <= i < |ops| && ops[i].Sampled? ==> ops[i].x.timestamp != 0
    ensures forall i :: 0 <= i < |Log(ops)| ==> Log(ops)[i].timestamp != 0
  {
    if ops != [] { LogUsed(ops[..|ops| - 1]); }
  }

  lemma WindowTail(seen: seq<Slot>, size: nat, log: seq<Snapshot>)
    requires size > 0 && Window(seen, size, log)
    ensures Window(seen[1..], size - 1, log)
  {}

  lemma LastCons<T>(xs: seq<T>, n: nat)
    requires n > 0
    ensures Last(xs, n) == (if |xs| < n then [] else [xs[|xs| - n]]) + Last(xs, n - 1)
  {}

  lemma {:induction false} WindowEntries(seen: seq<Slot>, size: nat, log: seq<Snapshot>)
    requires Window(seen, size, log) && forall i :: 0 <= i < |log| ==> log[i].timestamp != 0
    ensures Entries(seen) == Last(log, size)
    decreases size
  {
    if size > 0 {
      WindowTail(seen, size, log);
      WindowEntries(seen[1..], size - 1, log);
      LastCons(log, size);
      assert Used(seen[0]) <==> |log| >= size;
    } else {
      assert Last(log, 0) == [];
    }
  }

  /** For every size and every run of samples and resets, the page lists the last entries of the plain list. */
  lemma PageIsLastLogged(r: Ring, ops: seq<Op>)
    requires Valid(r) && forall i :: 0 <= i < |r.slots| ==> r.slots[i] == Some(BLANK)
    requires forall i :: 0 <= i < |ops| && ops[i].Sampled? ==> ops[i].x.timestamp != 0
    ensures var r' := ApplyAll(r, ops); Entries(Rotate(r'.slots, r'.index)) == Last(Log(ops), |r.slots|)
  {
    RingIsWindow(r, ops);
    LogUsed(ops);
    var r' := ApplyAll(r, ops);
    WindowEntries(Rotate(r'.slots, r'.index), |r.slots|, Log(ops));
  }

  lemma {:induction false} PeakAppend(start: real, xs: seq<Measure>, x: Measure, m: Metric)
    ensures RunningPeak(start, xs + [x], m) == Max(RunningPeak(start, xs, m), ValueOf(x, m))
    decreases |xs|
  {
    if xs != [] {
      assert (xs + [x])[1..] == xs[1..] + [x];
      PeakAppend(Max(start, ValueOf(xs[0], m)), xs[1..], x, m);
    }
  }

  /** After every run, the newest entry shows the largest value measured since the last reset, and never less than 0. */
  lemma {:induction false} NewestPeakSinceReset(ops: seq<Op>, m: Metric)
    ensures ReadingOf(NewestOf(Log(ops)), m).peak.Some?
    ensures Shown(NewestOf(Log(ops)), m) == RunningPeak(0.0, SinceReset(ops), m)
  {
    if ops != [] {
      var before, op := ops[..|ops| - 1], ops[|ops| - 1];
      NewestPeakSinceReset(before, m);
      if op.Sampled? { PeakAppend(0.0, SinceReset(before), op.x, m); }
    }
  }

  /** All measurements. */
  function Samples(ops: seq<Op>): seq<Measure> {
    if ops == [] then []
    else Samples(ops[..|ops| - 1]) + if ops[|ops| - 1].Sampled? then [ops[|ops| - 1].x] else []
  }

  /** After every run, the plain list holds one entry for each measurement, with its time and the value measured for
      every metric; resets change neither. */
  lemma {:induction false} LogIsSamples(ops: seq<Op>, m: Metric)
    ensures |Log(ops)| == |Samples(ops)|
    ensures forall i :: 0 <= i < |Log(ops)| ==>
              Log(ops)[i].timestamp == Samples(ops)[i].timestamp
              && ReadingOf(Log(ops)[i], m).value == ValueOf(Samples(ops)[i], m)
  {
    if ops != [] {
      LogIsSamples(ops[..|ops| - 1], m);
      assert ReadingOf(Zeroed(NewestOf(Log(ops[..|ops| - 1]))), m).value
          == ReadingOf(NewestOf(Log(ops[..|ops| - 1])), m).value;
    }
  }
}
