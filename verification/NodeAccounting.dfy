/**
 The per-plugin device counter against the device registry, over every interleaving
 (packages/core/src/matterNode.ts, packages/core/src/deviceManager.ts).
 */
module NodeAccounting {
  import opened DeviceRegistry
  import opened RegistryLemmas
  import opened NodeProtocol

  // ---------- what a call still owes the registry ----------

  /** Messages on their way: +1 for a counted device not yet set, -1 for an uncounted one not yet removed. */
  function Pending(call: Call, p: string): int {
    match call.job
    case Adding(q, _) =>
      if q == p && (call.phase.Constructing? || call.phase.Setting? || call.phase.SettingLate?) then 1 else 0
    case Removing(q, _, _) => if q == p && (call.phase.Unsetting? || call.phase.UnsettingLate?) then -1 else 0
    case Booting => 0
  }

  /** Messages that will never arrive. */
  function Lost(call: Call, p: string): int {
    match call.job
    case Adding(q, _) => if q == p && call.phase.Dropped? then 1 else 0
    case Removing(q, _, _) => if q == p && call.phase.Dropped? then -1 else 0
    case Booting => 0
  }

  function Owed(calls: seq<Call>, p: string): int {
    if calls == [] then 0
        else Owed(calls[..|calls| - 1], p) + Pending(calls[|calls| - 1], p) + Lost(calls[|calls| - 1], p)
  }

  lemma {:induction false} OwedUpdate(calls: seq<Call>, c: nat, call: Call, p: string)
    requires c < |calls|
    ensures Owed(calls[c := call], p)
         == Owed(calls, p) - Pending(calls[c], p) - Lost(calls[c], p) + Pending(call, p) + Lost(call, p)
  {
    var n := |calls| - 1;
    var after := calls[c := call];
    if c == n {
      assert after[..n] == calls[..n];
    } else {
      assert after[..n] == calls[..n][c := call];
      OwedUpdate(calls[..n], c, call, p);
    }
  }

  lemma OwedAppend(calls: seq<Call>, call: Call, p: string)
    ensures Owed(calls + [call], p) == Owed(calls, p) + Pending(call, p) + Lost(call, p)
  {
    assert (calls + [call])[..|calls|] == calls;
  }

  // ---------- well-formed states ----------

  predicate PhaseFits(call: Call) {
    match call.job
    case Booting =>
      call.phase.HubContext? || call.phase.HubCreating? || call.phase.HubAggregating? || call.phase.HubJoining?
      || call.phase.Settled? || call.phase.Refused?
    case Adding(p, d) =>
      d.plugin == p && !call.phase.Deleting? && !call.phase.Unsetting? && !call.phase.UnsettingLate?
    case Removing(p, d, _) =>
      d.plugin == p
      && (call.phase.Deleting? || call.phase.Unsetting? || call.phase.UnsettingLate?
          || call.phase.Settled? || call.phase.Refused? || call.phase.Dropped?)
  }

  ghost predicate WellFormed(s: State) {
    && Unique(s.node.registry)
    && forall c :: 0 <= c < |s.calls| ==> PhaseFits(s.calls[c])
  }

  /** Is the message of this call waiting for the registry? */
  predicate Posted(call: Call) {
    call.phase.Setting? || call.phase.SettingLate? || call.phase.Unsetting? || call.phase.UnsettingLate?
  }

  lemma EntryFits(n: Shared, c: nat, e: Event)
    requires Starts(e) && (e.Boot? || e.device.plugin == e.plugin)
    ensures PhaseFits(Entry(n, c, e).call)
    ensures Entry(n, c, e).node.registry == n.registry
  {}

  /** Unless it spawns a dependant, a call that enters changes nothing but plugin records, and has been given nothing
      but an epoch. */
  predicate Light(n: Shared, out: Outcome) {
    && out.node == n.(plugins := out.node.plugins)
    && out.call == NewCall(out.call.job, out.call.phase).(epoch := out.call.epoch)
    && var ph := out.call.phase;
       ph.LockContext? || ph.HubContext? || ph.HubSettled? || ph.Attaching? || ph.Constructing?
       || ph.Deleting? || ph.Unsetting? || ph.Refused?
  }

  lemma EntryLight(n: Shared, c: nat, e: Event)
    requires Starts(e)
    ensures if e.Add? && e.plugin in n.plugins && e.device.mode.Server?
            then Entry(n, c, e) == Spawn(n, c, Adding(e.plugin, e.device))
            else Light(n, Entry(n, c, e))
  {
    if e.Add? && e.plugin in n.plugins && !e.device.mode.Server? { AddLight(n, c, e.plugin, e.device); }
  }

  lemma AddLight(n: Shared, c: nat, p: string, d: Device)
    requires p in n.plugins && !d.mode.Server?
    ensures Light(n, EnterAdd(n, c, p, d))
  {}

  lemma AdvanceFits(n: Shared, c: nat, call: Call, ok: bool, rp: int, rd: int)
    requires PhaseFits(call) && Resumable(call.phase)
    ensures PhaseFits(Advance(n, c, call, ok, rp, rd).call)
    ensures Advance(n, c, call, ok, rp, rd).call.job == call.job
    ensures Advance(n, c, call, ok, rp, rd).node.registry == n.registry
  {}

  lemma HandleFits(n: Shared, call: Call)
    requires PhaseFits(call) && Posted(call) && Unique(n.registry)
    ensures PhaseFits(Handle(n, call).call)
    ensures Unique(Handle(n, call).node.registry)
  {
    match call.job
    case Adding(_, d) => PutMembers(n.registry, d);
    case Removing(_, d, _) => DropMembers(n.registry, d.uniqueId);
    case Booting =>
  }

  lemma WellFormedStep(s: State, e: Event)
    requires WellFormed(s) && Enabled(s, e)
    ensures WellFormed(Step(s, e))
  {
    if Starts(e) {
      EntryFits(s.node, |s.calls|, e);
    } else if Moves(e) {
      var call := s.calls[e.call];
      match e
      case Resume(c, ok, rp, rd) => AdvanceFits(s.node, c, call, ok, rp, rd);
      case Deliver(_) => HandleFits(s.node, call);
      case Timeout(_) =>
    }
  }

  // ---------- the balance ----------

  /** The counter of a plugin, or 0 when it has none. */
  function Counter(n: Shared, p: string): int {
    if p in n.plugins then n.plugins[p].registered.GetOr(0) else 0
  }

  predicate Counted(n: Shared, p: string) {
    p in n.plugins && n.plugins[p].registered.Some?
  }

  /** How far the counter of `p` runs ahead of its devices in the registry and of what is on its way. */
  function Balance(s: State, p: string): int {
    Counter(s.node, p) - |OfPlugin(s.node.registry, p)| - Owed(s.calls, p)
  }

  predicate Resets(e: Event, p: string) {
    e == Uncount(p) || e == Load(p)
  }

  /** What one event adds to the balance: a `set` that lands on a device of `p`, a `remove` for `p` that finds
      nothing of `p`, a reset of the counter, or a device counted or uncounted while there is no counter. */
  ghost function Slip(s: State, e: Event, p: string): int
    requires Enabled(s, e)
  {
    if e.Deliver? then SlipOf(s.node.registry, s.calls[e.call].job, p)
    else if Resets(e, p) then -Counter(s.node, p)
    else if Counted(s.node, p) then 0
    else Owed(s.calls, p) - Owed(Step(s, e).calls, p)
  }

  function SlipOf(l: seq<Device>, job: Job, p: string): int {
    match job
    case Adding(q, d) => if d.uniqueId == "" then 0 else HeldBy(l, d.uniqueId, p)
    case Removing(q, d, _) =>
      if d.uniqueId == "" then 0
      else HeldBy(l, d.uniqueId, p) - (if q == p then 1 else 0)
    case Booting => 0
  }

  function Due(call: Call, p: string): int {
    Pending(call, p) + Lost(call, p)
  }

  /** The counter of `p` follows what is owed, if there is one. */
  predicate Follows(n: Shared, m: Shared, owed: int, p: string) {
    Counted(m, p) == Counted(n, p) && Counter(m, p) == Counter(n, p) + (if Counted(n, p) then owed else 0)
  }

  lemma TallyFollows(n: Shared, m: Shared, p: string, k: int, q: string)
    requires m.plugins == Tally(n.plugins, p, k)
    ensures Follows(n, m, if p == q then k else 0, q)
  {}

  lemma LockFollows(n: Shared, p: string, d: Device, ph: Phase, q: string)
    requires p in n.plugins
    ensures Follows(n, Lock(n, p, d, ph).node, 0, q)
  {}

  lemma AddCounts(n: Shared, c: nat, p: string, d: Device, q: string)
    ensures var out := EnterAdd(n, c, p, d); Follows(n, out.node, Due(out.call, q), q)
  {
    if p in n.plugins && !d.mode.Server? {
      if n.mode.ChildBridge? && n.plugins[p].platform.Accessory? {
        assert EnterAdd(n, c, p, d) == EnterAccessory(n, p, d);
        LockFollows(n, p, d, LockContext, q);
      } else if n.mode.ChildBridge? && n.plugins[p].platform.Dynamic? {
        assert EnterAdd(n, c, p, d) == EnterDynamic(n, p, d);
        LockFollows(n, p, d, HubContext, q);
      } else if !n.mode.Bridge? {
        TallyFollows(n, EnterAdd(n, c, p, d).node, p, 1, q);
      }
    }
  }

  lemma RemoveCounts(n: Shared, p: string, d: Device, q: string)
    ensures var out := EnterRemove(n, p, d); Follows(n, out.node, Due(out.call, q), q)
  {
    var out := EnterRemove(n, p, d);
    if out.call.phase.Unsetting? { TallyFollows(n, out.node, p, -1, q); }
  }

  lemma EntryCounts(n: Shared, c: nat, e: Event, p: string)
    requires Starts(e)
    ensures var out := Entry(n, c, e); Follows(n, out.node, Due(out.call, p), p)
  {
    match e
    case Boot =>
    case Add(q, d) => AddCounts(n, c, q, d, p);
    case Remove(q, d) => RemoveCounts(n, q, d, p);
    case Purge(_, _, _) =>
  }

  /** A step of an add either counts its device or leaves plugins and debts alone. */
  lemma AddAdvances(n: Shared, c: nat, call: Call, rp: int, rd: int)
    requires PhaseFits(call) && Resumable(call.phase) && call.job.Adding?
    ensures var out := AdvanceAdd(n, c, call, rp, rd);
            && out.call.job == call.job && !out.call.phase.Dropped?
            && if out.call.phase.Constructing?
               then !call.phase.Constructing? && out.node.plugins == Tally(n.plugins, call.job.plugin, 1)
               else out.node.plugins == n.plugins && (call.phase.Constructing? <==> out.call.phase.Setting?) &&
                    !out.call.phase.SettingLate?
  {}

  lemma AdvanceCounts(n: Shared, c: nat, call: Call, ok: bool, rp: int, rd: int, p: string)
    requires PhaseFits(call) && Resumable(call.phase)
    ensures var out := Advance(n, c, call, ok, rp, rd); Follows(n, out.node, Due(out.call, p) - Due(call, p), p)
  {
    var out := Advance(n, c, call, ok, rp, rd);
    if ok && call.job.Removing? { TallyFollows(n, out.node, call.job.plugin, -1, p); }
    if ok && call.job.Adding? {
      AddAdvances(n, c, call, rp, rd);
      if out.call.phase.Constructing? { TallyFollows(n, out.node, call.job.plugin, 1, p); }
    }
  }

  lemma HandleCounts(n: Shared, call: Call, p: string)
    requires PhaseFits(call) && Posted(call) && Unique(n.registry)
    ensures var out := Handle(n, call);
            && out.node.plugins == n.plugins
            && |OfPlugin(out.node.registry, p)| + Due(out.call, p)
            == |OfPlugin(n.registry, p)| + Due(call, p) - SlipOf(n.registry, call.job, p)
  {
    var out := Handle(n, call);
    match call.job
    case Adding(q, d) =>
      if d.uniqueId != "" {
        PutCount(n.registry, d, p);
        assert out.node.registry == Put(n.registry, d);
      }
    case Removing(q, d, _) =>
      if d.uniqueId != "" {
        DropCount(n.registry, d.uniqueId, p);
        assert out.node.registry == Drop(n.registry, d.uniqueId);
      }
    case Booting =>
  }

  lemma BalanceStart(s: State, e: Event, p: string)
    requires Enabled(s, e) && Starts(e)
    ensures Balance(Step(s, e), p) == Balance(s, p) + Slip(s, e, p)
  {
    var out := Entry(s.node, |s.calls|, e);
    EntryFits(s.node, |s.calls|, e);
    EntryCounts(s.node, |s.calls|, e, p);
    assert Step(s, e) == State(out.node, s.calls + [out.call]);
    BalanceEnter(s, out, p);
  }

  lemma BalanceEnter(s: State, out: Outcome, p: string)
    requires out.node.registry == s.node.registry && Follows(s.node, out.node, Due(out.call, p), p)
    ensures Balance(State(out.node, s.calls + [out.call]), p)
         == Balance(s, p) + if Counted(s.node, p) then 0 else Owed(s.calls, p) - Owed(s.calls + [out.call], p)
  {
    OwedAppend(s.calls, out.call, p);
  }

  lemma BalanceMove(s: State, e: Event, p: string)
    requires WellFormed(s) && Enabled(s, e) && Moves(e)
    ensures Balance(Step(s, e), p) == Balance(s, p) + Slip(s, e, p)
  {
    var call := s.calls[e.call];
    var out := Move(s.node, call, e);
    OwedUpdate(s.calls, e.call, out.call, p);
    assert Step(s, e) == State(out.node, s.calls[e.call := out.call]);
    match e
    case Resume(c, ok, rp, rd) =>
      AdvanceFits(s.node, c, call, ok, rp, rd);
      AdvanceCounts(s.node, c, call, ok, rp, rd, p);
    case Deliver(_) => HandleCounts(s.node, call, p);
    case Timeout(_) =>
  }

  lemma BalanceStep(s: State, e: Event, p: string)
    requires WellFormed(s) && Enabled(s, e)
    ensures Balance(Step(s, e), p) == Balance(s, p) + Slip(s, e, p)
  {
    if Starts(e) { BalanceStart(s, e, p); } else if Moves(e) { BalanceMove(s, e, p); }
  }

  // ---------- over every run ----------

  ghost function Slips(s: State, es: seq<Event>, p: string): int
    decreases |es|
  {
    if es == [] || !Enabled(s, es[0]) then 0
    else Slip(s, es[0], p) + Slips(Step(s, es[0]), es[1..], p)
  }

  /** Exact accounting, for every interleaving of all calls, every failure and every load and shutdown: the
      counter of a plugin moves ahead of the registry by exactly the slips of the run. */
  lemma {:induction false} CounterTracksRegistry(s: State, es: seq<Event>, p: string)
    requires WellFormed(s) && IsRun(s, es)
    ensures WellFormed(Exec(s, es))
    ensures Balance(Exec(s, es), p) == Balance(s, p) + Slips(s, es, p)
    decreases |es|
  {
    if es != [] {
      WellFormedStep(s, es[0]);
      BalanceStep(s, es[0], p);
      CounterTracksRegistry(Step(s, es[0]), es[1..], p);
    }
  }

  // ---------- quiescent points ----------

  /** No message is on its way and no call is running. */
  ghost predicate Quiescent(s: State) {
    forall c :: 0 <= c < |s.calls| ==>
      s.calls[c].phase.Settled? || s.calls[c].phase.Refused? || s.calls[c].phase.Dropped?
  }

  function LostOver(calls: seq<Call>, p: string): int {
    if calls == [] then 0 else LostOver(calls[..|calls| - 1], p) + Lost(calls[|calls| - 1], p)
  }

  lemma {:induction false} QuietOwes(calls: seq<Call>, p: string)
    requires forall c :: 0 <= c < |calls| ==>
                 calls[c].phase.Settled? || calls[c].phase.Refused? || calls[c].phase.Dropped?
    ensures Owed(calls, p) == LostOver(calls, p)
  {
    if calls != [] { QuietOwes(calls[..|calls| - 1], p); }
  }

  /** At a quiescent point of any run, counter and registry agree if and only if the slips of the
      run and the messages that were lost cancel out. */
  lemma QuiescentAgreement(s: State, es: seq<Event>, p: string)
    requires WellFormed(s) && IsRun(s, es) && Balance(s, p) == 0
    requires Quiescent(Exec(s, es))
    ensures var t := Exec(s, es);
            Counter(t.node, p) == |OfPlugin(t.node.registry, p)| <==> Slips(s, es, p) + LostOver(t.calls, p) == 0
  {
    CounterTracksRegistry(s, es, p);
    QuietOwes(Exec(s, es).calls, p);
  }

  // ---------- runs with fresh identifiers and no double removes ----------

  predicate ActiveAdd(call: Call) {
    call.job.Adding? && !call.phase.Settled? && !call.phase.Refused? && !call.phase.Dropped?
  }

  predicate ActiveRemove(call: Call) {
    call.job.Removing? && (call.phase.Deleting? || call.phase.Unsetting? || call.phase.UnsettingLate?)
  }

  ghost predicate MayRemove(s: State, p: string, d: Device) {
    && d.uniqueId != ""
    && HeldBy(s.node.registry, d.uniqueId, p) == 1
    && forall c :: 0 <= c < |s.calls| && ActiveRemove(s.calls[c]) ==> s.calls[c].job.device.uniqueId != d.uniqueId
  }

  /** The caller's side: add only a uniqueId that is neither registered nor being added,
      remove only a registered device of the plugin that is not being removed. */
  ghost predicate Disciplined(s: State, e: Event) {
    match e
    case Add(p, d) =>
      && d.uniqueId != ""
      && !Holds(s.node.registry, d.uniqueId)
      && forall c :: 0 <= c < |s.calls| && ActiveAdd(s.calls[c]) ==> s.calls[c].job.device.uniqueId != d.uniqueId
    case Remove(p, d) => MayRemove(s, p, d)
    case Purge(p, d, _) => MayRemove(s, p, d)
    case _ => true
  }

  ghost predicate DisciplinedRun(s: State, es: seq<Event>)
    decreases |es|
  {
    es == [] || (Enabled(s, es[0]) && Disciplined(s, es[0]) && DisciplinedRun(Step(s, es[0]), es[1..]))
  }

  predicate AddFits(l: seq<Device>, call: Call) {
    ActiveAdd(call) ==> call.job.device.uniqueId != "" && !Holds(l, call.job.device.uniqueId)
  }

  predicate RemoveFits(l: seq<Device>, call: Call) {
    ActiveRemove(call) ==>
      call.job.device.uniqueId != "" && HeldBy(l, call.job.device.uniqueId, call.job.plugin) == 1
  }

  /** Two calls do not contend for one key. */
  predicate Apart(a: Call, b: Call) {
    && (ActiveAdd(a) && ActiveAdd(b) ==> a.job.device.uniqueId != b.job.device.uniqueId)
    && (ActiveRemove(a) && ActiveRemove(b) ==> a.job.device.uniqueId != b.job.device.uniqueId)
  }

  ghost predicate Orderly(s: State) {
    && (forall c :: 0 <= c < |s.calls| ==>
          AddFits(s.node.registry, s.calls[c]) && RemoveFits(s.node.registry, s.calls[c]))
    && (forall a, b :: 0 <= a < b < |s.calls| ==> Apart(s.calls[a], s.calls[b]))
  }

  /** A step keeps the job of a call and never revives a finished call. */
  lemma MoveActive(n: Shared, call: Call, e: Event)
    requires Moves(e) && PhaseFits(call)
    requires e.Resume? ==> Resumable(call.phase)
    requires e.Deliver? ==> Posted(call)
    requires e.Timeout? ==> call.phase.Setting? || call.phase.Unsetting?
    ensures var out := Move(n, call, e).call;
            && out.job == call.job
            && (ActiveAdd(out) ==> ActiveAdd(call)) && (ActiveRemove(out) ==> ActiveRemove(call))
            && (e.Deliver? ==> !ActiveAdd(out) && !ActiveRemove(out))
  {
    if e.Resume? { AdvanceFits(n, e.call, call, e.ok, e.rp, e.rd); }
  }

  /** While one call's message is handled, what the others rely on stays true. */
  lemma HandleKeeps(n: Shared, mine: Call, other: Call)
    requires PhaseFits(mine) && Posted(mine) && Unique(n.registry)
    requires Apart(mine, other)
    requires AddFits(n.registry, mine) && RemoveFits(n.registry, mine)
    requires AddFits(n.registry, other) && RemoveFits(n.registry, other)
    ensures AddFits(Handle(n, mine).node.registry, other) && RemoveFits(Handle(n, mine).node.registry, other)
  {
    var l := n.registry;
    match mine.job
    case Adding(_, d) =>
      PutMembers(l, d);
      if ActiveRemove(other) {
        var u, q := other.job.device.uniqueId, other.job.plugin;
        var x :| x in l && x.uniqueId == u && x.plugin == q;
        assert x in Put(l, d);
      }
    case Removing(_, d, _) =>
      DropMembers(l, d.uniqueId);
      if ActiveRemove(other) {
        var u, q := other.job.device.uniqueId, other.job.plugin;
        var x :| x in l && x.uniqueId == u && x.plugin == q;
        assert x in Drop(l, d.uniqueId);
      }
    case Booting =>
  }

  lemma OrderlyStart(s: State, e: Event)
    requires WellFormed(s) && Orderly(s) && Enabled(s, e) && Disciplined(s, e) && Starts(e)
    ensures Orderly(Step(s, e))
  {
    var n := |s.calls|;
    var out := Entry(s.node, n, e);
    EntryFits(s.node, n, e);
    EntryJob(s.node, n, e);
    assert AddFits(s.node.registry, out.call) && RemoveFits(s.node.registry, out.call);
    forall a | 0 <= a < n ensures Apart(s.calls[a], out.call) {
    }
  }

  lemma EntryJob(n: Shared, c: nat, e: Event)
    requires Starts(e)
    ensures Entry(n, c, e).call.job ==
            match e
            case Boot => Booting
            case Add(p, d) => Adding(p, d)
            case Remove(p, d) => Job.Removing(p, d, d)
            case Purge(p, d, found) => Job.Removing(p, d, found.GetOr(d))
  {}

  lemma Neighbours(s: State, a: nat, b: nat)
    requires Orderly(s) && a < |s.calls| && b < |s.calls| && a != b
    ensures Apart(s.calls[a], s.calls[b]) || Apart(s.calls[b], s.calls[a])
  {}

  lemma OrderlyMove(s: State, e: Event)
    requires WellFormed(s) && Orderly(s) && Enabled(s, e) && Moves(e)
    ensures Orderly(Step(s, e))
  {
    var c := e.call;
    var mine := s.calls[c];
    var out := Move(s.node, mine, e);
    var t := Step(s, e);
    MoveActive(s.node, mine, e);
    forall a | 0 <= a < |t.calls|
      ensures AddFits(t.node.registry, t.calls[a]) && RemoveFits(t.node.registry, t.calls[a])
    {
      if e.Deliver? && a != c {
        Neighbours(s, a, c);
        HandleKeeps(s.node, mine, s.calls[a]);
      } else if e.Resume? {
        AdvanceFits(s.node, c, mine, e.ok, e.rp, e.rd);
      }
    }
    forall a, b | 0 <= a < b < |t.calls| ensures Apart(t.calls[a], t.calls[b]) {
      assert Apart(s.calls[a], s.calls[b]);
    }
  }

  lemma OrderlyStep(s: State, e: Event)
    requires WellFormed(s) && Orderly(s) && Enabled(s, e) && Disciplined(s, e)
    ensures Orderly(Step(s, e))
  {
    if Starts(e) { OrderlyStart(s, e); } else if Moves(e) { OrderlyMove(s, e); }
  }

  lemma NoSlip(s: State, e: Event, p: string)
    requires WellFormed(s) && Orderly(s) && Enabled(s, e)
    ensures e.Deliver? || (Counted(s.node, p) && !Resets(e, p)) ==> Slip(s, e, p) == 0
  {
    if e.Deliver? {
      var call := s.calls[e.call];
      assert AddFits(s.node.registry, call) && RemoveFits(s.node.registry, call);
      if call.job.Removing? {
        var u, q, l := call.job.device.uniqueId, call.job.plugin, s.node.registry;
        var x :| x in l && x.uniqueId == u && x.plugin == q;
      }
    }
  }

  /** What the messages handled in a run add to the balance. */
  ghost function MessageSlips(s: State, es: seq<Event>, p: string): int
    decreases |es|
  {
    if es == [] || !Enabled(s, es[0]) then 0
    else (if es[0].Deliver? then Slip(s, es[0], p) else 0) + MessageSlips(Step(s, es[0]), es[1..], p)
  }

  /** With fresh identifiers and no double removes, no message lands on another device or misses its own. */
  lemma {:induction false} DisciplinedRunsNeverSlip(s: State, es: seq<Event>, p: string)
    requires WellFormed(s) && Orderly(s) && DisciplinedRun(s, es)
    ensures IsRun(s, es) && MessageSlips(s, es, p) == 0
    decreases |es|
  {
    if es != [] {
      WellFormedStep(s, es[0]);
      OrderlyStep(s, es[0]);
      NoSlip(s, es[0], p);
      DisciplinedRunsNeverSlip(Step(s, es[0]), es[1..], p);
    }
  }

  /** The devices of `p` the registry has or is told of. */
  function Afoot(s: State, p: string): int {
    |OfPlugin(s.node.registry, p)| + Owed(s.calls, p)
  }

  /** What was afoot at the last load of `p` in the run, or `b` if there was none. */
  ghost function Baseline(s: State, es: seq<Event>, p: string, b: int): int
    decreases |es|
  {
    if es == [] || !Enabled(s, es[0]) then b
    else Baseline(Step(s, es[0]), es[1..], p, if es[0] == Load(p) then Afoot(s, p) else b)
  }

  lemma BaselineStep(s: State, e: Event, p: string, b: int)
    requires WellFormed(s) && Orderly(s) && Enabled(s, e)
    requires Counted(s.node, p) ==> Balance(s, p) == -b
    ensures Counted(Step(s, e).node, p) ==> Balance(Step(s, e), p) == -(if e == Load(p) then Afoot(s, p) else b)
  {
    if e != Load(p) { CountedStep(s, e, p); }
    BalanceStep(s, e, p);
    if Counted(s.node, p) && !Resets(e, p) { NoSlip(s, e, p); }
  }

  /** Only a load gives a plugin a counter. */
  lemma CountedStep(s: State, e: Event, p: string)
    requires WellFormed(s) && Enabled(s, e) && e != Load(p)
    ensures Counted(Step(s, e).node, p) ==> Counted(s.node, p)
  {
    if Starts(e) {
      EntryCounts(s.node, |s.calls|, e, p);
    } else if e.Resume? {
      AdvanceCounts(s.node, e.call, s.calls[e.call], e.ok, e.rp, e.rd, p);
    }
  }

  lemma {:induction false} BaselineRun(s: State, es: seq<Event>, p: string, b: int)
    requires WellFormed(s) && Orderly(s) && DisciplinedRun(s, es)
    requires Counted(s.node, p) ==> Balance(s, p) == -b
    ensures IsRun(s, es)
    ensures Counted(Exec(s, es).node, p) ==> Balance(Exec(s, es), p) == -Baseline(s, es, p, b)
    decreases |es|
  {
    if es != [] {
      WellFormedStep(s, es[0]);
      OrderlyStep(s, es[0]);
      BaselineStep(s, es[0], p, b);
      BaselineRun(Step(s, es[0]), es[1..], p, if es[0] == Load(p) then Afoot(s, p) else b);
    }
  }

  /** In every state reachable with fresh identifiers and no double removes, whatever is loaded and shut down on
      the way, a plugin's counter is the number of its registered devices, plus the sets and minus the removes
      still on their way or lost, less what was afoot when the counter was last zeroed by a load. */
  lemma CounterAgrees(s: State, es: seq<Event>, p: string)
    requires WellFormed(s) && s.calls == [] && DisciplinedRun(s, es)
    requires Counted(s.node, p) ==> Counter(s.node, p) == |OfPlugin(s.node.registry, p)|
    requires Counted(Exec(s, es).node, p)
    ensures var t, b := Exec(s, es), Baseline(s, es, p, 0);
            && Counter(t.node, p) == |OfPlugin(t.node.registry, p)| + Owed(t.calls, p) - b
            && (Quiescent(t) ==>
                  && Counter(t.node, p) == |OfPlugin(t.node.registry, p)| + LostOver(t.calls, p) - b
                  && (Counter(t.node, p) == |OfPlugin(t.node.registry, p)| <==> LostOver(t.calls, p) == b))
  {
    BaselineRun(s, es, p, 0);
    var t := Exec(s, es);
    if Quiescent(t) { QuietOwes(t.calls, p); }
  }

  // ---------- putting runs together ----------

  lemma {:induction false} RunSplit(s: State, es: seq<Event>, i: nat)
    requires IsRun(s, es) && i <= |es|
    ensures IsRun(s, es[..i]) && IsRun(Exec(s, es[..i]), es[i..])
    ensures Exec(s, es) == Exec(Exec(s, es[..i]), es[i..])
    decreases |es|
  {
    if i == 0 {
      assert es[0..] == es;
    } else {
      var head := es[..i];
      assert head[0] == es[0] && head[1..] == es[1..][..i - 1] && es[1..][i - 1..] == es[i..];
      RunSplit(Step(s, es[0]), es[1..], i - 1);
    }
  }

  /** The last event of a run. */
  lemma RunLast(s: State, es: seq<Event>)
    requires WellFormed(s) && IsRun(s, es) && es != []
    ensures var n := |es| - 1; var u := Exec(s, es[..n]);
            IsRun(s, es[..n]) && WellFormed(u) && Enabled(u, es[n]) && Exec(s, es) == Step(u, es[n])
  {
    var n := |es| - 1;
    RunSplit(s, es, n);
    assert es[n..] == [es[n]] && es[n..][1..] == [];
    CounterTracksRegistry(s, es[..n], "");
  }

  // ---------- what stays of a call ----------

  lemma JobsStay(s: State, e: Event)
    requires Enabled(s, e)
    ensures |s.calls| <= |Step(s, e).calls|
    ensures forall c :: 0 <= c < |s.calls| ==> Step(s, e).calls[c].job == s.calls[c].job
  {
    if Moves(e) { MoveJob(s.node, s.calls[e.call], e); }
  }

  lemma MoveJob(n: Shared, call: Call, e: Event)
    requires Moves(e)
    ensures Move(n, call, e).call.job == call.job
  {}

  lemma {:induction false} JobStays(s: State, es: seq<Event>, c: nat)
    requires IsRun(s, es) && c < |s.calls|
    ensures c < |Exec(s, es).calls| && Exec(s, es).calls[c].job == s.calls[c].job
    decreases |es|
  {
    if es != [] {
      JobsStay(s, es[0]);
      JobStays(Step(s, es[0]), es[1..], c);
    }
  }

  lemma RefusedStays(s: State, e: Event, c: nat)
    requires Enabled(s, e) && c < |s.calls| && s.calls[c].phase.Refused?
    ensures Step(s, e).calls[c] == s.calls[c]
  {}

  lemma {:induction false} RefusedRun(s: State, es: seq<Event>, c: nat)
    requires IsRun(s, es) && c < |s.calls| && s.calls[c].phase.Refused?
    ensures c < |Exec(s, es).calls| && Exec(s, es).calls[c] == s.calls[c]
    decreases |es|
  {
    if es != [] {
      RefusedStays(s, es[0], c);
      RefusedRun(Step(s, es[0]), es[1..], c);
    }
  }

  // ---------- counter and registry apart ----------

  lemma RunCons(s: State, e: Event, es: seq<Event>)
    requires Enabled(s, e) && IsRun(Step(s, e), es)
    ensures IsRun(s, [e] + es) && Exec(s, [e] + es) == Exec(Step(s, e), es)
  {
    assert ([e] + es)[1..] == es;
  }

  /** `es` is a run from `s` that ends in `t`. */
  ghost predicate Leads(s: State, es: seq<Event>, t: State) {
    IsRun(s, es) && Exec(s, es) == t
  }

  lemma LeadsFirst(s: State, e: Event, s1: State, es: seq<Event>, t: State)
    requires Enabled(s, e) && Step(s, e) == s1 && Leads(s1, es, t)
    ensures Leads(s, [e] + es, t)
  {
    RunCons(s, e, es);
  }

  /** On any bridge without calls: an add whose endpoint attaches and then fails to construct leaves the node
      quiescent, the device counted and the registry unchanged. */
  lemma FailedConstructionParts(s: State, p: string, d: Device)
    requires s.calls == [] && s.node.mode.Bridge? && s.node.aggregator.Some? && Counted(s.node, p)
    requires d.plugin == p && d.mode.Bridged?
    ensures var es := [Add(p, d), Resume(0, true, 0, 0), Resume(0, false, 0, 0)];
            var t := Exec(s, es);
            && IsRun(s, es) && Quiescent(t)
            && Counter(t.node, p) == Counter(s.node, p) + 1 && t.node.registry == s.node.registry
  {
    var attach, fail := Resume(0, true, 0, 0), Resume(0, false, 0, 0);
    var s1 := Step(s, Add(p, d));
    assert s1 == State(s.node, [NewCall(Adding(p, d), Attaching(Target(s.node, d)))]);
    var s2 := AttachedAlone(s1, p, d);
    var s3 := Step(s2, fail);
    assert s3 == State(s2.node, [s2.calls[0].(phase := Dropped)]);
    LeadsFirst(s2, fail, s3, [], s3);
    LeadsFirst(s1, attach, s2, [fail] + [], s3);
    LeadsFirst(s, Add(p, d), s1, [attach] + ([fail] + []), s3);
    assert [Add(p, d)] + ([attach] + ([fail] + [])) == [Add(p, d), attach, fail];
  }

  lemma AttachedAlone(s: State, p: string, d: Device) returns (t: State)
    requires s.node.mode.Bridge? && Counted(s.node, p) && d.plugin == p
    requires |s.calls| == 1 && s.calls[0].job == Adding(p, d) && s.calls[0].phase == Attaching(Target(s.node, d))
    requires Target(s.node, d).Some?
    ensures Enabled(s, Resume(0, true, 0, 0)) && t == Step(s, Resume(0, true, 0, 0))
    ensures |t.calls| == 1 && t.calls[0].job == Adding(p, d) && t.calls[0].phase == Constructing
    ensures Counter(t.node, p) == Counter(s.node, p) + 1 && t.node.registry == s.node.registry
  {
    t := Step(s, Resume(0, true, 0, 0));
  }
}
