/**
 Devices counted without a parent: which they are in each branch of `addBridgedEndpoint`, and when exactly a device
 of a dynamic or accessory platform becomes one (packages/core/src/matterNode.ts).
 */
module NodeOrphans {
  import opened Optional
  import opened DeviceRegistry
  import opened NodeProtocol
  import opened NodeAccounting
  import opened NodePorts
  import opened NodeLocks
  import opened NodePlacement
  import opened NodeShapes

  // ---------- branches where the parent is settled ----------

  /** In every reachable state: a bridge counts no device without a parent, a device in server mode has one exactly
      if its description is complete, and where no branch applies there is none. */
  lemma ParentByKind(s: State, es: seq<Event>, c: nat)
    requires Untouched(s) && IsRun(s, es) && c < |Exec(s, es).calls| && CountedCall(Exec(s, es).calls[c])
    ensures var call, kind := Exec(s, es).calls[c], KindOf(Exec(s, es).node, Exec(s, es).calls[c].job);
            && (kind.Bridges? ==> call.placed.Some?)
            && (kind.Own? ==> (call.placed.Some? <==> call.job.device.complete))
            && (kind.Loose? ==> call.placed.None?)
            && !kind.Unknown?
  {
    UntouchedSound(s);
    SoundRun(s.node.counters, s, es);
    var t := Exec(s, es);
    assert Shape(KindOf(t.node, t.calls[c].job), t.calls[c]);
  }

  // ---------- dynamic platforms: when a device looks for its parent ----------

  /** The step in which call `c` reads the parent it will use. */
  predicate Picks(s: State, e: Event, c: nat) {
    || (e.Resume? && e.ok && e.call == c && c < |s.calls| && s.calls[c].phase.HubSettled?)
    || (e.Add? && c == |s.calls| && s.node.serverNode.Some?)
  }

  /** The call has not assigned the parent that `d` needs. */
  predicate Missing(call: Call, d: Device) {
    if d.mode.Matter? then call.server.None? else call.hub.None?
  }

  /** No call that creates server nodes has assigned the parent that `d` needs. */
  ghost predicate NoneAssigned(s: State, d: Device) {
    forall h :: 0 <= h < |s.calls| && Creator(s.calls[h]) ==> Missing(s.calls[h], d)
  }

  /** Between lock and assignment. */
  predicate Busy(call: Call, d: Device) {
    Unassigned(call.phase) || (!d.mode.Matter? && call.phase.HubAggregating?)
  }

  /** The call set out to create a server node and has not assigned the parent `d` needs: it is still at it, it has
      failed, or it creates for an accessory, which needs no aggregator. */
  predicate Behind(n: Shared, call: Call, d: Device) {
    && Creator(call) && Missing(call, d)
    && (Busy(call, d) || call.phase.Refused? || (!d.mode.Matter? && KindOf(n, call.job).Locks?))
  }

  /** Another call is behind, and so is every call that creates server nodes; for one let through by its plugin's lock,
      every call that has ever taken that lock is still at it or has failed, and there is one. */
  ghost predicate InWindow(s: State, e: Event, c: nat, d: Device) {
    && (exists h :: 0 <= h < |s.calls| && h != c && Behind(s.node, s.calls[h], d))
    && (forall h :: 0 <= h < |s.calls| && Creator(s.calls[h]) ==> Behind(s.node, s.calls[h], d))
    && (e.Resume? && c < |s.calls| && s.calls[c].job.Adding? ==> Passed(s, s.calls[c].job.plugin, d))
  }

  ghost predicate Passed(s: State, p: string, d: Device) {
    && (exists h: nat :: MadeUnder(s.calls, h, p))
    && (forall h: nat :: MadeUnder(s.calls, h, p) ==> Busy(s.calls[h], d) || s.calls[h].phase.Refused?)
  }

  /** `parent` is what the node has for `d`: its own server node for a device in matter mode, its aggregator for any
      other. */
  predicate Found(n: Shared, d: Device, parent: Option<Parent>) {
    match parent
    case None => if d.mode.Matter? then n.serverNode.None? else n.aggregator.None?
    case Some(OnServer(k)) => d.mode.Matter? && n.serverNode == Some(k)
    case Some(OnAggregator(k)) => !d.mode.Matter? && n.aggregator == Some(k)
  }

  predicate IsHub(n: Shared, call: Call) {
    call.job.Adding? && KindOf(n, call.job).Hubs?
  }

  /** The node has no parent for `d` exactly if none has been assigned. */
  lemma TargetExactly(start: Counters, s: State, d: Device)
    requires Sound(start, s) && !d.mode.Server?
    ensures Target(s.node, d).None? <==> NoneAssigned(s, d)
  {
    forall h | 0 <= h < |s.calls| && Creator(s.calls[h]) && !Missing(s.calls[h], d) ensures Target(s.node, d).Some? {
      assert CallLock(s.node, s.calls[h]);
    }
    if Target(s.node, d).Some? {
      if d.mode.Matter? {
        var h :| 0 <= h < |s.calls| && Creator(s.calls[h]) && s.calls[h].server.Some?;
        assert !Missing(s.calls[h], d);
      } else {
        var h := s.node.hubs[s.node.aggregator.value];
        assert CallLock(s.node, s.calls[h]) && !Missing(s.calls[h], d);
      }
    }
  }

  /** What a creating call that has not assigned the parent can be doing. */
  lemma WhyMissing(kind: Kind, call: Call, d: Device)
    requires Shape(kind, call) && Creator(call) && Missing(call, d)
    ensures Busy(call, d) || call.phase.Refused? || (!d.mode.Matter? && kind.Locks?)
  {}

  lemma AllBehind(start: Counters, s: State, d: Device)
    requires Sound(start, s) && NoneAssigned(s, d)
    ensures forall h :: 0 <= h < |s.calls| && Creator(s.calls[h]) ==> Behind(s.node, s.calls[h], d)
  {
    forall h | 0 <= h < |s.calls| && Creator(s.calls[h]) ensures Behind(s.node, s.calls[h], d) {
      WhyMissing(KindOf(s.node, s.calls[h].job), s.calls[h], d);
    }
  }

  lemma WindowOpen(start: Counters, s: State, e: Event, c: nat, d: Device)
    requires Sound(start, s) && Enabled(s, e) && Picks(s, e, c)
    requires Target(s.node, d).None? && !d.mode.Server?
    requires e.Resume? ==> IsHub(s.node, s.calls[c]) && s.calls[c].job.device == d
    ensures InWindow(s, e, c, d)
  {
    TargetExactly(start, s, d);
    AllBehind(start, s, d);
    if e.Resume? {
      LetThrough(start, s, c, d);
      var h: nat :| MadeUnder(s.calls, h, s.calls[c].job.plugin);
      assert Creator(s.calls[h]);
    } else {
      var h :| 0 <= h < |s.calls| && Creator(s.calls[h]) && s.calls[h].server.Some?;
      assert Behind(s.node, s.calls[h], d);
    }
  }

  lemma LetThrough(start: Counters, s: State, c: nat, d: Device)
    requires Sound(start, s) && NoneAssigned(s, d) && c < |s.calls|
    requires IsHub(s.node, s.calls[c]) && s.calls[c].phase.HubSettled?
    ensures s.calls[c].epoch.None? && Passed(s, s.calls[c].job.plugin, d)
  {
    var call := s.calls[c];
    if call.epoch.Some? { HolderAssigned(start, s, c, d); }
    assert Excused(s.calls, call);
    var h :| 0 <= h < |s.calls| && s.calls[h].epoch.Some? && s.calls[h].job.Adding?
             && s.calls[h].job.plugin == call.job.plugin;
    assert MadeUnder(s.calls, h, call.job.plugin);
    forall a: nat | MadeUnder(s.calls, a, call.job.plugin) ensures Busy(s.calls[a], d) || s.calls[a].phase.Refused? {
      HolderBehind(start, s, c, d, a);
    }
  }

  lemma HolderAssigned(start: Counters, s: State, c: nat, d: Device)
    requires Sound(start, s) && c < |s.calls| && IsHub(s.node, s.calls[c]) && s.calls[c].phase.HubSettled?
    requires s.calls[c].epoch.Some?
    ensures !NoneAssigned(s, d)
  {
    assert Shape(Hubs, s.calls[c]);
    assert Creator(s.calls[c]) && !Missing(s.calls[c], d);
  }

  lemma HolderBehind(start: Counters, s: State, c: nat, d: Device, h: nat)
    requires Sound(start, s) && c < |s.calls| && IsHub(s.node, s.calls[c])
    requires NoneAssigned(s, d) && MadeUnder(s.calls, h, s.calls[c].job.plugin)
    ensures Busy(s.calls[h], d) || s.calls[h].phase.Refused?
  {
    var kind := KindOf(s.node, s.calls[h].job);
    assert Shape(kind, s.calls[h]) && Creator(s.calls[h]);
    assert kind.Hubs? by { assert !kind.Own?; }
    WhyMissing(kind, s.calls[h], d);
  }

  // ---------- picking and keeping ----------

  lemma EntryAim(n: Shared, c: nat, p: string, d: Device)
    requires KindOf(n, Adding(p, d)).Hubs?
    ensures var call := EnterAdd(n, c, p, d).call;
            if n.serverNode.Some? then Aim(call) == Some(Target(n, d)) else Aim(call).None?
  {}

  /** A call gets its parent only in its picking step, and it is the parent of that moment. */
  lemma MoveAim(n: Shared, call: Call, e: Event)
    requires Moves(e) && Shape(Hubs, call) && PhaseFits(call)
    requires e.Resume? ==> Resumable(call.phase)
    requires e.Deliver? ==> Posted(call)
    requires e.Timeout? ==> call.phase.Setting? || call.phase.Unsetting?
    ensures var call' := Move(n, call, e).call;
            if e.Resume? && e.ok && call.phase.HubSettled? then Aim(call') == Some(Target(n, call.job.device))
            else Aim(call') == Aim(call) || call'.phase.Refused?
  {
    if e.Resume? && e.ok { AdvanceAim(n, e.call, call, e.rp, e.rd); }
  }

  lemma AdvanceAim(n: Shared, c: nat, call: Call, rp: int, rd: int)
    requires Shape(Hubs, call) && Resumable(call.phase)
    ensures var call' := AdvanceAdd(n, c, call, rp, rd).call;
            Aim(call') == if call.phase.HubSettled? then Some(Target(n, call.job.device)) else Aim(call)
  {}

  /** One step, for a call of a dynamic platform: if it picks, its aim is the parent of that moment, and otherwise its
      aim stays, unless it is refused. */
  lemma StepAim(start: Counters, s: State, e: Event, c: nat)
    requires Sound(start, s) && Enabled(s, e) && c < |s.calls| && IsHub(s.node, s.calls[c])
    ensures var t := Step(s, e);
            c < |t.calls|
            && if Picks(s, e, c) then Aim(t.calls[c]) == Some(Target(s.node, s.calls[c].job.device))
               else Aim(t.calls[c]) == Aim(s.calls[c]) || t.calls[c].phase.Refused?
  {
    if Moves(e) && e.call == c {
      var call := s.calls[c];
      assert Shape(Hubs, call) && PhaseFits(call);
      MoveAim(s.node, call, e);
    }
  }

  lemma StepKind(start: Counters, s: State, e: Event, c: nat)
    requires Sound(start, s) && Enabled(s, e) && c < |s.calls|
    ensures var t := Step(s, e);
            && c < |t.calls| && t.calls[c].job == s.calls[c].job && t.calls[c].epoch == s.calls[c].epoch
            && KindOf(t.node, t.calls[c].job) == KindOf(s.node, s.calls[c].job)
  {
    StepGrows(start, s, e);
    SameKinds(s.node, Step(s, e).node, s.calls[c].job);
    if Moves(e) && e.call == c {
      assert PhaseFits(s.calls[c]) && CallLock(s.node, s.calls[c]);
      MoveLock(s.node, s.calls[c], e);
    }
  }

  lemma StepGrows(start: Counters, s: State, e: Event)
    requires Sound(start, s) && Enabled(s, e)
    ensures Grows(s.node, Step(s, e).node)
  {
    if Starts(e) {
      EntryGrows(s, e);
    } else if Moves(e) {
      var call := s.calls[e.call];
      assert CallLock(s.node, call) && CallLedger(s.node, e.call, call) && PhaseFits(call);
      MoveGrows(s.node, call, e);
    }
  }

  /** Call `c` has its mind made up: it aims at `aim`, unless it has been refused. */
  ghost predicate Held(s: State, c: nat, call: Call, aim: Option<Parent>) {
    && c < |s.calls|
    && s.calls[c].job == call.job && s.calls[c].epoch == call.epoch
    && var kind := KindOf(s.node, call.job);
    && (kind.Hubs? || kind.Bridges? || (kind.Locks? && call.epoch.None?))
    && (s.calls[c].phase.Refused? || Aim(s.calls[c]) == Some(aim))
  }

  lemma HeldStep(start: Counters, s: State, e: Event, c: nat, call: Call, aim: Option<Parent>)
    requires Sound(start, s) && Enabled(s, e) && Held(s, c, call, aim)
    ensures Held(Step(s, e), c, call, aim)
  {
    StepKind(start, s, e, c);
    if s.calls[c].phase.Refused? {
      RefusedStays(s, e, c);
    } else if KindOf(s.node, call.job).Hubs? {
      assert Shape(Hubs, s.calls[c]);
      StepAim(start, s, e, c);
    } else if Moves(e) && e.call == c {
      assert Shape(KindOf(s.node, call.job), s.calls[c]) && PhaseFits(s.calls[c]);
      StillAim(KindOf(s.node, call.job), s.node, s.calls[c], e);
    }
  }

  /** Once a call has picked, its aim never changes. */
  lemma {:induction false} HeldRun(start: Counters, s: State, es: seq<Event>, c: nat, call: Call, aim: Option<Parent>)
    requires Sound(start, s) && IsRun(s, es) && Held(s, c, call, aim)
    ensures Held(Exec(s, es), c, call, aim)
    decreases |es|
  {
    if es != [] {
      HeldStep(start, s, es[0], c, call, aim);
      SoundStep(start, s, es[0]);
      HeldRun(start, Step(s, es[0]), es[1..], c, call, aim);
    }
  }

  // ---------- over every run ----------

  /** In the run `es` from `s`, event `i` is where call `c` picks its parent, and it picks `parent`, the one the node
      has at that moment.  There is none exactly if none has been assigned yet, and then the window is open. */
  ghost predicate PickedAt(s: State, es: seq<Event>, i: nat, c: nat, d: Device, parent: Option<Parent>) {
    && i < |es|
    && var u := Exec(s, es[..i]);
    && Enabled(u, es[i]) && Picks(u, es[i], c)
    && Found(u.node, d, parent)
    && (parent.None? <==> NoneAssigned(u, d))
    && (parent.None? ==> InWindow(u, es[i], c, d))
  }

  lemma PickedLater(s: State, es: seq<Event>, i: nat, c: nat, d: Device, parent: Option<Parent>)
    requires es != [] && Enabled(s, es[0]) && PickedAt(Step(s, es[0]), es[1..], i, c, d, parent)
    ensures PickedAt(s, es, i + 1, c, d, parent)
  {
    ExecShift(s, es, i);
  }

  lemma ExecShift(s: State, es: seq<Event>, i: nat)
    requires es != [] && Enabled(s, es[0]) && i < |es|
    ensures Exec(s, es[..i + 1]) == Exec(Step(s, es[0]), es[1..][..i])
  {
    var head := es[..i + 1];
    assert head[0] == es[0] && head[1..] == es[1..][..i];
  }

  lemma PickedNow(start: Counters, s: State, es: seq<Event>, c: nat, d: Device)
    requires Sound(start, s) && es != [] && Enabled(s, es[0]) && Picks(s, es[0], c) && !d.mode.Server?
    requires es[0].Resume? ==> IsHub(s.node, s.calls[c]) && s.calls[c].job.device == d
    ensures PickedAt(s, es, 0, c, d, Target(s.node, d))
  {
    TargetExactly(start, s, d);
    if Target(s.node, d).None? { WindowOpen(start, s, es[0], c, d); }
    assert Exec(s, es[..0]) == s;
  }

  /** A call of a dynamic platform that has an aim at the end, and had none (or was not there) at the start, has
      picked it on the way. */
  lemma {:induction false} PickExists(start: Counters, s: State, es: seq<Event>, c: nat)
    requires Sound(start, s) && IsRun(s, es) && c < |Exec(s, es).calls|
    requires c < |s.calls| ==> Aim(s.calls[c]).None?
    requires IsHub(Exec(s, es).node, Exec(s, es).calls[c]) && Aim(Exec(s, es).calls[c]).Some?
    ensures exists i :: PickedAt(s, es, i, c, Exec(s, es).calls[c].job.device, Aim(Exec(s, es).calls[c]).value)
    decreases |es|
  {
    var s1, rest, call := Step(s, es[0]), es[1..], Exec(s, es).calls[c];
    SoundStep(start, s, es[0]);
    if c < |s1.calls| && Aim(s1.calls[c]).Some? {
      KindsPersist(start, s, es, call.job);
      AimOnward(start, s1, rest, c);
      PicksNow(start, s, es[0], c);
      PickedNow(start, s, es, c, call.job.device);
    } else {
      PickExists(start, s1, rest, c);
      var i :| PickedAt(s1, rest, i, c, call.job.device, Aim(call).value);
      PickedLater(s, es, i, c, call.job.device, Aim(call).value);
    }
  }

  lemma AimOnward(start: Counters, s: State, es: seq<Event>, c: nat)
    requires Sound(start, s) && IsRun(s, es) && c < |s.calls| && Aim(s.calls[c]).Some?
    requires c < |Exec(s, es).calls| && IsHub(Exec(s, es).node, Exec(s, es).calls[c]) && Aim(Exec(s, es).calls[c]).Some?
    ensures Exec(s, es).calls[c].job == s.calls[c].job && Aim(Exec(s, es).calls[c]) == Aim(s.calls[c])
  {
    JobPersists(start, s, es, c);
    KindsPersist(start, s, es, s.calls[c].job);
    HeldRun(start, s, es, c, s.calls[c], Aim(s.calls[c]).value);
  }

  /** A step that gives a call its aim is its picking step, and one that is gives it the parent of that moment. */
  lemma PicksNow(start: Counters, s: State, e: Event, c: nat)
    requires Sound(start, s) && Enabled(s, e) && c < |Step(s, e).calls| && IsHub(s.node, Step(s, e).calls[c])
    requires (Aim(Step(s, e).calls[c]).Some? && (c < |s.calls| ==> Aim(s.calls[c]).None?)) || Picks(s, e, c)
    ensures Picks(s, e, c) && Aim(Step(s, e).calls[c]) == Some(Target(s.node, Step(s, e).calls[c].job.device))
    ensures e.Resume? ==> s.calls[c].job == Step(s, e).calls[c].job
  {
    if c < |s.calls| {
      StepKind(start, s, e, c);
      StepAim(start, s, e, c);
    } else {
      var job := Step(s, e).calls[c].job;
      EntryJob(s.node, |s.calls|, e);
      EntryAim(s.node, c, job.plugin, job.device);
    }
  }

  lemma {:induction false} KindsPersist(start: Counters, s: State, es: seq<Event>, job: Job)
    requires Sound(start, s) && IsRun(s, es)
    ensures KindOf(Exec(s, es).node, job) == KindOf(s.node, job)
    decreases |es|
  {
    if es != [] {
      StepGrows(start, s, es[0]);
      SameKinds(s.node, Step(s, es[0]).node, job);
      SoundStep(start, s, es[0]);
      KindsPersist(start, Step(s, es[0]), es[1..], job);
    }
  }

  lemma {:induction false} JobPersists(start: Counters, s: State, es: seq<Event>, c: nat)
    requires Sound(start, s) && IsRun(s, es) && c < |s.calls|
    ensures c < |Exec(s, es).calls| && Exec(s, es).calls[c].job == s.calls[c].job &&
            Exec(s, es).calls[c].epoch == s.calls[c].epoch
    decreases |es|
  {
    if es != [] {
      StepKind(start, s, es[0], c);
      SoundStep(start, s, es[0]);
      JobPersists(start, Step(s, es[0]), es[1..], c);
    }
  }

  /** In every run, a counted device of a dynamic platform got exactly the parent the node had when the device looked
      for it.  It has none if and only if no call had assigned one by then; and then every creating call, and there was
      another one, was between lock and assignment, had failed there, or was creating for an accessory.  For a device
      let through by its plugin's lock, whoever had taken that lock was between lock and assignment or had failed there.
   */
  lemma OrphansOnlyInWindow(s: State, es: seq<Event>, c: nat)
    requires Untouched(s) && IsRun(s, es) && c < |Exec(s, es).calls|
    requires var call := Exec(s, es).calls[c]; CountedCall(call) && IsHub(Exec(s, es).node, call)
    ensures exists i :: PickedAt(s, es, i, c, Exec(s, es).calls[c].job.device, Exec(s, es).calls[c].placed)
  {
    UntouchedSound(s);
    PickExists(s.node.counters, s, es, c);
  }

  /** Conversely, whenever a call looks for its parent, what it finds is what it has in the end, if it is counted:
      looking before any parent is assigned makes it an orphan. */
  lemma PickDecides(s: State, es: seq<Event>, i: nat, c: nat)
    requires Untouched(s) && IsRun(s, es) && i < |es| && c < |Exec(s, es).calls|
    requires var call := Exec(s, es).calls[c]; CountedCall(call) && IsHub(Exec(s, es).node, call)
    requires Picks(Exec(s, es[..i]), es[i], c)
    ensures var u, call := Exec(s, es[..i]), Exec(s, es).calls[c];
            && Found(u.node, call.job.device, call.placed)
            && (call.placed.None? <==> NoneAssigned(u, call.job.device))
  {
    var start, u, rest := s.node.counters, Exec(s, es[..i]), es[i..];
    UntouchedSound(s);
    RunSplit(s, es, i);
    SoundRun(start, s, es[..i]);
    assert rest[0] == es[i] && rest[1..] == es[i + 1..];
    PickHolds(start, u, rest, c);
    TargetExactly(start, u, Exec(s, es).calls[c].job.device);
  }

  lemma PickHolds(start: Counters, u: State, rest: seq<Event>, c: nat)
    requires Sound(start, u) && IsRun(u, rest) && rest != [] && Picks(u, rest[0], c) && c < |Exec(u, rest).calls|
    requires var call := Exec(u, rest).calls[c]; CountedCall(call) && IsHub(Exec(u, rest).node, call)
    ensures Exec(u, rest).calls[c].placed == Target(u.node, Exec(u, rest).calls[c].job.device)
  {
    var u1, call := Step(u, rest[0]), Exec(u, rest).calls[c];
    SoundStep(start, u, rest[0]);
    KindsPersist(start, u, rest, call.job);
    KindsPersist(start, u1, rest[1..], call.job);
    if c < |u.calls| { StepKind(start, u, rest[0], c); }
    JobPersists(start, u1, rest[1..], c);
    PicksNow(start, u, rest[0], c);
    HeldRun(start, u1, rest[1..], c, u1.calls[c], Target(u.node, call.job.device));
  }

  /** Inside a healthy creation: the first add takes the lock, the second runs past it and is counted without a
      parent while the first is still creating it. */
  lemma SecondAddIsOrphan(s: State, p: string, d1: Device, d2: Device)
    requires Untouched(s) && d1.plugin == p && d2.plugin == p
    requires KindOf(s.node, Adding(p, d1)).Hubs? && KindOf(s.node, Adding(p, d2)).Hubs?
    ensures var es := [Add(p, d1), Add(p, d2), Resume(1, true, 0, 0), Resume(1, true, 0, 0)];
            var t := Exec(s, es);
            && IsRun(s, es) && |t.calls| == 2
            && t.calls[0].phase.HubContext?
            && CountedCall(t.calls[1]) && t.calls[1].placed.None?
  {
    var a1, a2, go := Add(p, d1), Add(p, d2), Resume(1, true, 0, 0);
    FirstTakesLock(s, p, d1);
    var s1 := Step(s, a1);
    SecondPasses(s1, p, d2);
    var s2 := State(s1.node, s1.calls + [NewCall(Adding(p, d2), HubSettled)]);
    var s3 := State(s1.node, s1.calls + [NewCall(Adding(p, d2), Attaching(None))]);
    var s4 := CountedAlone(s3, p, d2);
    LeadsFirst(s3, go, s4, [], s4);
    LeadsFirst(s2, go, s3, [go] + [], s4);
    LeadsFirst(s1, a2, s2, [go] + ([go] + []), s4);
    LeadsFirst(s, a1, s1, [a2] + ([go] + ([go] + [])), s4);
    assert [a1] + ([a2] + ([go] + ([go] + []))) == [a1, a2, go, go];
  }

  lemma SecondPasses(s: State, p: string, d: Device)
    requires |s.calls| == 1 && s.node.serverNode.None? && s.node.aggregator.None?
    requires d.plugin == p && KindOf(s.node, Adding(p, d)).Hubs? && s.node.plugins[p].locked
    ensures var s2 := State(s.node, s.calls + [NewCall(Adding(p, d), HubSettled)]);
            var s3 := State(s.node, s.calls + [NewCall(Adding(p, d), Attaching(None))]);
            && Enabled(s, Add(p, d)) && Step(s, Add(p, d)) == s2
            && Enabled(s2, Resume(1, true, 0, 0)) && Step(s2, Resume(1, true, 0, 0)) == s3
  {
    var s2 := State(s.node, s.calls + [NewCall(Adding(p, d), HubSettled)]);
    assert EnterAdd(s.node, 1, p, d) == EnterDynamic(s.node, p, d);
    assert s2.calls[1 := NewCall(Adding(p, d), Attaching(None))] == s.calls + [NewCall(Adding(p, d), Attaching(None))];
  }

  lemma CountedAlone(s: State, p: string, d: Device) returns (t: State)
    requires |s.calls| == 2 && s.calls[1] == NewCall(Adding(p, d), Attaching(None))
    ensures Enabled(s, Resume(1, true, 0, 0)) && t == Step(s, Resume(1, true, 0, 0))
    ensures |t.calls| == 2 && t.calls[0] == s.calls[0] && CountedCall(t.calls[1]) && t.calls[1].placed.None?
  {
    t := Step(s, Resume(1, true, 0, 0));
  }

  lemma FirstTakesLock(s: State, p: string, d: Device)
    requires Untouched(s) && d.plugin == p && KindOf(s.node, Adding(p, d)).Hubs?
    ensures var t := Step(s, Add(p, d));
            && t.calls == [NewCall(Adding(p, d), HubContext).(epoch := Some(0))]
            && t.node == s.node.(plugins := s.node.plugins[p := s.node.plugins[p].(locked := true, epochs := 1)])
  {}

  // ---------- accessory platforms ----------

  /** An accessory's add goes without a parent: there is no server node, and it may not or cannot create one. */
  predicate TurnedAway(n: Shared, p: string, d: Device) {
    n.serverNode.None? && p in n.plugins && (n.plugins[p].locked || !d.complete)
  }

  lemma LockEntryAim(n: Shared, c: nat, p: string, d: Device)
    requires KindOf(n, Adding(p, d)).Locks?
    ensures var call := EnterAdd(n, c, p, d).call;
            if TurnedAway(n, p, d) then call.epoch.None? && Aim(call) == Some(None)
            else if n.serverNode.Some? then call.epoch.None? && Aim(call) == Some(Some(OnServer(n.serverNode.value)))
            else call.epoch.Some?
  {}

  /** The parent of a counted accessory, by the node `n` its add entered: none if it was turned away, the node's own
      server node if there was one, and otherwise the one it has created itself. */
  predicate AccessoryParent(n: Shared, call: Call)
    requires call.job.Adding?
  {
    match call.placed
    case None => TurnedAway(n, call.job.plugin, call.job.device)
    case Some(OnServer(k)) =>
      || n.serverNode == Some(k)
      || (n.serverNode.None? && !TurnedAway(n, call.job.plugin, call.job.device) && call.server == Some(k))
    case Some(OnAggregator(_)) => false
  }

  /** The calls that enter with an aim keep it. */
  lemma StillAim(kind: Kind, n: Shared, call: Call, e: Event)
    requires Moves(e) && Shape(kind, call) && PhaseFits(call)
    requires kind.Bridges? || (kind.Locks? && call.epoch.None?)
    requires e.Resume? ==> Resumable(call.phase)
    requires e.Deliver? ==> Posted(call)
    requires e.Timeout? ==> call.phase.Setting? || call.phase.Unsetting?
    ensures var call' := Move(n, call, e).call; Aim(call') == Aim(call) || call'.phase.Refused?
  {}

  /** In the run, event `i` is where the add `call`, number `c`, enters. */
  ghost predicate EntersAt(s: State, es: seq<Event>, i: nat, c: nat, call: Call)
    requires call.job.Adding?
  {
    && i < |es| && es[i] == Add(call.job.plugin, call.job.device)
    && |Exec(s, es[..i]).calls| == c
  }

  /** What the add finds when it enters settles the parent of the device. */
  ghost predicate EntrySettles(s: State, es: seq<Event>, i: nat, call: Call)
    requires call.job.Adding? && i <= |es|
  {
    var n := Exec(s, es[..i]).node;
    if KindOf(n, call.job).Bridges? then call.placed.Some? && Found(n, call.job.device, call.placed)
    else KindOf(n, call.job).Locks? && AccessoryParent(n, call)
  }

  lemma BridgeEntryAim(n: Shared, c: nat, p: string, d: Device)
    requires KindOf(n, Adding(p, d)).Bridges?
    ensures var call := EnterAdd(n, c, p, d).call;
            call.phase.Refused?
            || (Aim(call).Some? && Aim(call).value.Some? && Found(n, d, Aim(call).value) && call.epoch.None?)
  {}

  /** After the add `e`, in every continuation, the call it has started is still the same kind of call. */
  lemma EntryKept(start: Counters, s: State, e: Event, rest: seq<Event>)
    requires Sound(start, s) && Enabled(s, e) && e.Add? && IsRun(Step(s, e), rest)
    ensures var s1, c, job := Step(s, e), |s.calls|, Adding(e.plugin, e.device);
            && Sound(start, s1) && |s1.calls| == c + 1 && c < |Exec(s1, rest).calls|
            && s1.calls[c].job == Exec(s1, rest).calls[c].job == job
            && Exec(s1, rest).calls[c].epoch == s1.calls[c].epoch
            && KindOf(s1.node, job) == KindOf(Exec(s1, rest).node, job) == KindOf(s.node, job)
  {
    var s1, c, job := Step(s, e), |s.calls|, Adding(e.plugin, e.device);
    EntryJob(s.node, c, e);
    SoundStep(start, s, e);
    StepGrows(start, s, e);
    SameKinds(s.node, s1.node, job);
    JobPersists(start, s1, rest, c);
    KindsPersist(start, s1, rest, job);
  }

  lemma BridgeDecides(start: Counters, s: State, e: Event, rest: seq<Event>)
    requires Sound(start, s) && Enabled(s, e) && e.Add? && IsRun(Step(s, e), rest)
    requires |s.calls| < |Exec(Step(s, e), rest).calls| && CountedCall(Exec(Step(s, e), rest).calls[|s.calls|])
    requires KindOf(s.node, Adding(e.plugin, e.device)).Bridges?
    ensures var call := Exec(Step(s, e), rest).calls[|s.calls|];
            call.placed.Some? && Found(s.node, e.device, call.placed)
  {
    var s1, c := Step(s, e), |s.calls|;
    EntryKept(start, s, e, rest);
    BridgeEntryAim(s.node, c, e.plugin, e.device);
    if s1.calls[c].phase.Refused? {
      RefusedRun(s1, rest, c);
    } else {
      HeldRun(start, s1, rest, c, s1.calls[c], Aim(s1.calls[c]).value);
    }
  }

  lemma AccessoryDecides(start: Counters, s: State, e: Event, rest: seq<Event>)
    requires Sound(start, s) && Enabled(s, e) && e.Add? && IsRun(Step(s, e), rest)
    requires |s.calls| < |Exec(Step(s, e), rest).calls| && CountedCall(Exec(Step(s, e), rest).calls[|s.calls|])
    requires KindOf(s.node, Adding(e.plugin, e.device)).Locks?
    ensures var call := Exec(Step(s, e), rest).calls[|s.calls|];
            call.job == Adding(e.plugin, e.device) && AccessoryParent(s.node, call)
  {
    var s1, c := Step(s, e), |s.calls|;
    EntryKept(start, s, e, rest);
    LockEntryAim(s.node, c, e.plugin, e.device);
    if s1.calls[c].epoch.None? {
      HeldRun(start, s1, rest, c, s1.calls[c], Aim(s1.calls[c]).value);
    } else {
      SoundRun(start, s1, rest);
      assert Shape(Locks, Exec(s1, rest).calls[c]);
    }
  }

  lemma SettlesNow(start: Counters, s: State, es: seq<Event>)
    requires Sound(start, s) && IsRun(s, es) && es != [] && |s.calls| < |Step(s, es[0]).calls|
    requires |s.calls| < |Exec(s, es).calls| && CountedCall(Exec(s, es).calls[|s.calls|])
    requires var kind := KindOf(Exec(s, es).node, Exec(s, es).calls[|s.calls|].job); kind.Locks? || kind.Bridges?
    ensures var c, call := |s.calls|, Exec(s, es).calls[|s.calls|];
            EntersAt(s, es, 0, c, call) && EntrySettles(s, es, 0, call)
  {
    var s1, rest, call := Step(s, es[0]), es[1..], Exec(s, es).calls[|s.calls|];
    SoundStep(start, s, es[0]);
    JobPersists(start, s1, rest, |s.calls|);
    EntryJob(s.node, |s.calls|, es[0]);
    EntryKept(start, s, es[0], rest);
    if KindOf(s.node, call.job).Bridges? {
      BridgeDecides(start, s, es[0], rest);
    } else {
      AccessoryDecides(start, s, es[0], rest);
    }
    assert Exec(s, es[..0]) == s;
  }

  lemma SettlesLater(s: State, es: seq<Event>, i: nat, c: nat, call: Call)
    requires es != [] && Enabled(s, es[0]) && call.job.Adding?
    requires EntersAt(Step(s, es[0]), es[1..], i, c, call) && EntrySettles(Step(s, es[0]), es[1..], i, call)
    ensures EntersAt(s, es, i + 1, c, call) && EntrySettles(s, es, i + 1, call)
  {
    ExecShift(s, es, i);
  }

  /** In every run, the parent of a counted device of a bridge, or of an accessory platform, is settled when its add
      enters.  On a bridge it is the node's own server node or aggregator of that moment.  An accessory has none if and
      only if there was no server node and the lock was taken or the description incomplete; it sits on the node's own
      server node if there was one, and otherwise on the one its own call has created. */
  lemma {:induction false} EntryParents(start: Counters, s: State, es: seq<Event>, c: nat)
    requires Sound(start, s) && IsRun(s, es) && |s.calls| <= c < |Exec(s, es).calls|
    requires CountedCall(Exec(s, es).calls[c])
    requires var kind := KindOf(Exec(s, es).node, Exec(s, es).calls[c].job); kind.Locks? || kind.Bridges?
    ensures exists i: nat :: EntersAt(s, es, i, c, Exec(s, es).calls[c]) && EntrySettles(s, es, i, Exec(s, es).calls[c])
    decreases |es|
  {
    var s1, rest, call := Step(s, es[0]), es[1..], Exec(s, es).calls[c];
    SoundStep(start, s, es[0]);
    if c < |s1.calls| {
      SettlesNow(start, s, es);
    } else {
      EntryParents(start, s1, rest, c);
      var i: nat :| EntersAt(s1, rest, i, c, call) && EntrySettles(s1, rest, i, call);
      SettlesLater(s, es, i, c, call);
    }
  }

  /** Without a shutdown of the plugin, at most one server node and at most one aggregator are created under its
      lock, however the calls of all plugins interleave. */
  lemma OneServerOneAggregator(s: State, es: seq<Event>, p: string)
    requires Untouched(s) && IsRun(s, es) && p in s.node.plugins
    requires forall i :: 0 <= i < |es| ==> es[i] != Unlock(p)
    ensures var t := Exec(s, es);
            CountUnder(t.calls, Makers(t.node.servers), p) <= 1 && CountUnder(t.calls, t.node.hubs, p) <= 1
  {
    CreationsNeedUnlocks(s, es, p);
    NoUnlocks(es, p);
  }

  lemma {:induction false} NoUnlocks(es: seq<Event>, p: string)
    requires forall i :: 0 <= i < |es| ==> es[i] != Unlock(p)
    ensures Unlocks(es, p) == 0
  {
    if es != [] { NoUnlocks(es[1..], p); }
  }
}
