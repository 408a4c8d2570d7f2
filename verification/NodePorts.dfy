/**
 Ports, passcodes and discriminators handed out by a node and used by its own server nodes and
 by those of its dependants, over every interleaving (packages/core/src/matterNode.ts).
 */
module NodePorts {
  import opened Optional
  import opened DeviceRegistry
  import opened NodeProtocol
  import opened NodeAccounting

  // ---------- the counters in closed form ----------

  function AfterBumps(start: Counters, k: nat): Counters {
    if k == 0 then start else BumpAll(AfterBumps(start, k - 1))
  }

  /** The `k`-th value a counter hands out. */
  function Nth(start: Option<int>, k: nat): Option<int> {
    if start.None? || (start.value <= 0 && k >= -start.value) then None else Some(start.value + k)
  }

  function NthAll(start: Counters, k: nat): Counters {
    Counters(Nth(start.port, k), Nth(start.passcode, k), Nth(start.discriminator, k))
  }

  /** A counter after `k` hand-outs: it counts up and sticks at zero. */
  function Stuck(start: Option<int>, k: nat): Option<int> {
    if start.None? then None
    else if start.value <= 0 && k >= -start.value then Some(0)
    else Some(start.value + k)
  }

  lemma {:induction false} BumpsClosedForm(start: Counters, k: nat)
    ensures AfterBumps(start, k)
         == Counters(Stuck(start.port, k), Stuck(start.passcode, k), Stuck(start.discriminator, k))
    ensures TakeAll(AfterBumps(start, k)) == NthAll(start, k)
  {
    if k > 0 { BumpsClosedForm(start, k - 1); }
  }

  lemma HandOut(start: Counters, k: nat)
    ensures TakeAll(AfterBumps(start, k)) == NthAll(start, k)
    ensures BumpAll(AfterBumps(start, k)) == AfterBumps(start, k + 1)
  {
    BumpsClosedForm(start, k);
  }

  // ---------- which server got what ----------

  /** `node` was commissioned with the handed-out values `g`. */
  predicate ServerFrom(node: ServerNode, g: Counters) {
    var passcode := g.passcode.GetOr(20252026);
    var discriminator := g.discriminator.GetOr(3850);
    && node.port == g.port.GetOr(5540)
    && 0 <= node.passcode <= 99999999
    && 0 <= node.discriminator <= 4095
    && (0 <= passcode <= 99999999 ==> node.passcode == passcode)
    && (0 <= discriminator <= 4095 ==> node.discriminator == discriminator)
  }

  /** A value handed out is never zero, so taking it again gives it back. */
  predicate Handed(g: Counters) {
    TakeAll(g) == g
  }

  predicate Granted(n: Shared, c: nat, call: Call) {
    call.grant.Some? && call.grant.value < |n.grants| && n.grants[call.grant.value].call == c
  }

  predicate Holding(n: Shared, c: nat, call: Call, g: Counters) {
    Granted(n, c, call) && n.grants[call.grant.value].counters == g && Handed(g) && call.server.None?
  }

  /** What a call has, according to where it stands. */
  predicate CallLedger(n: Shared, c: nat, call: Call) {
    && (call.grant.Some? ==> Granted(n, c, call))
    && (call.server.Some? ==>
          && Granted(n, c, call)
          && call.server.value < |n.servers|
          && n.servers[call.server.value].call == c
          && ServerFrom(n.servers[call.server.value], n.grants[call.grant.value].counters))
    && match call.phase
       case LockContext => call.grant.None? && call.server.None?
       case HubContext => call.grant.None? && call.server.None?
       case LockCreating(g) => Holding(n, c, call, g)
       case HubCreating(g) => Holding(n, c, call, g)
       case SpawnCreating(g) => Holding(n, c, call, g)
       case Spawning =>
         && c in n.children
         && Holding(n, c, call, n.children[c].counters)
       case _ => true
  }

  /** Grants and servers belong, one to one, to the calls that obtained them. */
  ghost predicate Ledger(start: Counters, s: State) {
    && s.node.counters == AfterBumps(start, |s.node.grants|)
    && GrantsHeld(start, s.node.grants, s.calls)
    && ServersHeld(s.node.servers, s.calls)
    && forall c :: 0 <= c < |s.calls| ==> CallLedger(s.node, c, s.calls[c])
  }

  ghost predicate GrantsHeld(start: Counters, grants: seq<Grant>, calls: seq<Call>) {
    forall i :: 0 <= i < |grants| ==>
      grants[i].counters == NthAll(start, i) && grants[i].call < |calls| && calls[grants[i].call].grant == Some(i)
  }

  ghost predicate ServersHeld(servers: seq<ServerNode>, calls: seq<Call>) {
    forall j :: 0 <= j < |servers| ==> servers[j].call < |calls| && calls[servers[j].call].server == Some(j)
  }

  /** A step of call `c` only extends the ledgers and touches no other dependant. */
  predicate Extends(n: Shared, m: Shared, c: nat) {
    && n.grants <= m.grants
    && n.servers <= m.servers
    && (forall a :: a in n.children && a != c ==> a in m.children && m.children[a] == n.children[a])
  }

  lemma OthersKeep(n: Shared, m: Shared, c: nat, a: nat, call: Call)
    requires Extends(n, m, c) && a != c && CallLedger(n, a, call)
    ensures CallLedger(m, a, call)
  {}

  /** A step makes at most one grant and at most one server, both for the call that takes it. */
  predicate Mine(n: Shared, c: nat, call: Call, out: Outcome) {
    && Extends(n, out.node, c)
    && MineGrant(n, c, call, out)
    && MineServer(n.servers, c, call.server, out.node.servers, out.call.server)
    && CallLedger(out.node, c, out.call)
  }

  predicate MineGrant(n: Shared, c: nat, call: Call, out: Outcome) {
    || (out.node.grants == n.grants && out.node.counters == n.counters && out.call.grant == call.grant)
    || (&& out.node.grants == n.grants + [Grant(c, TakeAll(n.counters))]
        && out.node.counters == BumpAll(n.counters)
        && call.grant.None?
        && out.call.grant == Some(|n.grants|))
  }

  predicate MineServer(before: seq<ServerNode>, c: nat, had: Option<nat>, after: seq<ServerNode>, has: Option<nat>) {
    || (after == before && has == had)
    || (|after| == |before| + 1 && before <= after && after[|before|].call == c && had.None? && has == Some(|before|))
  }

  lemma HandedTake(c: Counters)
    ensures Handed(TakeAll(c))
  {}

  /** Phases that carry no claim on a grant. */
  predicate Plain(ph: Phase) {
    && !ph.LockContext? && !ph.LockCreating? && !ph.HubContext? && !ph.HubCreating?
    && !ph.Spawning? && !ph.SpawnCreating?
  }

  lemma QuietMine(n: Shared, c: nat, call: Call, out: Outcome)
    requires CallLedger(n, c, call)
    requires out.node.grants == n.grants && out.node.servers == n.servers
    requires out.node.children == n.children && out.node.counters == n.counters
    requires out.call.grant == call.grant && out.call.server == call.server && Plain(out.call.phase)
    ensures Mine(n, c, call, out)
  {}

  lemma GiveMine(n: Shared, c: nat, call: Call, ph: Phase)
    requires CallLedger(n, c, call) && call.grant.None? && call.server.None?
    requires ph == LockCreating(TakeAll(n.counters)) || ph == HubCreating(TakeAll(n.counters))
    ensures Mine(n, c, call, Give(n, c, call, ph))
  {
    HandedTake(n.counters);
  }

  lemma CreateMine(n: Shared, c: nat, call: Call, g: Counters, rp: int, rd: int, out: Outcome)
    requires CallLedger(n, c, call) && Holding(n, c, call, g)
    requires 0 <= rp <= MAX_PASSCODE && 0 <= rd <= MAX_DISCRIMINATOR
    requires out.node.grants == n.grants && out.node.servers == n.servers + [MakeServer(c, g, rp, rd)]
    requires out.node.counters == n.counters
    requires forall a :: a in n.children && a != c ==> a in out.node.children && out.node.children[a] == n.children[a]
    requires out.call.grant == call.grant && out.call.server == Some(|n.servers|) && Plain(out.call.phase)
    ensures Mine(n, c, call, out)
  {}

  lemma SpawnMine(n: Shared, c: nat, job: Job)
    requires job.Adding?
    ensures Mine(n, c, NewCall(job, Refused), Spawn(n, c, job))
  {
    HandedTake(n.counters);
  }

  lemma SpawnReadyMine(n: Shared, c: nat, call: Call)
    requires call.job.Adding? && call.phase.Spawning? && CallLedger(n, c, call)
    ensures Mine(n, c, call, SpawnReady(n, c, call))
  {
    if call.job.device.complete {
    } else {
      QuietMine(n, c, call, SpawnReady(n, c, call));
    }
  }

  lemma EntryMine(n: Shared, c: nat, e: Event)
    requires Starts(e)
    ensures Mine(n, c, NewCall(Booting, Refused), Entry(n, c, e))
  {
    EntryLight(n, c, e);
    if e.Add? && e.plugin in n.plugins && e.device.mode.Server? {
      SpawnMine(n, c, Adding(e.plugin, e.device));
    } else {
      LightMine(n, c, Entry(n, c, e));
    }
  }

  lemma LightMine(n: Shared, c: nat, out: Outcome)
    requires Light(n, out)
    ensures Mine(n, c, NewCall(Booting, Refused), out)
  {}

  lemma HubMine(n: Shared, c: nat, call: Call, rp: int, rd: int)
    requires CallLedger(n, c, call)
    requires 0 <= rp <= MAX_PASSCODE && 0 <= rd <= MAX_DISCRIMINATOR
    requires !call.phase.Spawning? && !call.phase.SpawnCreating? && !call.phase.LockContext? &&
             !call.phase.LockCreating?
    ensures Mine(n, c, call, AdvanceHub(n, c, call, rp, rd))
  {
    var out := AdvanceHub(n, c, call, rp, rd);
    match call.phase
    case HubContext => GiveMine(n, c, call, HubCreating(TakeAll(n.counters)));
    case HubCreating(g) => CreateMine(n, c, call, g, rp, rd, out);
    case _ => HubQuiet(n, c, call, rp, rd);
  }

  lemma HubQuiet(n: Shared, c: nat, call: Call, rp: int, rd: int)
    requires CallLedger(n, c, call) && Plain(call.phase)
    ensures Mine(n, c, call, AdvanceHub(n, c, call, rp, rd))
  {
    QuietMine(n, c, call, AdvanceHub(n, c, call, rp, rd));
  }

  lemma AddQuiet(n: Shared, c: nat, call: Call, rp: int, rd: int)
    requires CallLedger(n, c, call) && call.job.Adding? && Plain(call.phase)
    ensures Mine(n, c, call, AdvanceAdd(n, c, call, rp, rd))
  {
    QuietMine(n, c, call, AdvanceAdd(n, c, call, rp, rd));
  }

  lemma AddMine(n: Shared, c: nat, call: Call, rp: int, rd: int)
    requires CallLedger(n, c, call) && call.job.Adding?
    requires 0 <= rp <= MAX_PASSCODE && 0 <= rd <= MAX_DISCRIMINATOR
    ensures Mine(n, c, call, AdvanceAdd(n, c, call, rp, rd))
  {
    if Plain(call.phase) {
      AddQuiet(n, c, call, rp, rd);
    } else {
      var out := AdvanceAdd(n, c, call, rp, rd);
      match call.phase
      case Spawning => SpawnReadyMine(n, c, call);
      case SpawnCreating(g) => CreateMine(n, c, call, g, rp, rd, out);
      case LockContext => GiveMine(n, c, call, LockCreating(TakeAll(n.counters)));
      case LockCreating(g) => CreateMine(n, c, call, g, rp, rd, out);
      case HubContext => GiveMine(n, c, call, HubCreating(TakeAll(n.counters)));
      case HubCreating(g) => CreateMine(n, c, call, g, rp, rd, out);
    }
  }

  lemma MoveMine(n: Shared, call: Call, e: Event)
    requires Moves(e) && CallLedger(n, e.call, call)
    requires e.Resume? ==> 0 <= e.rp <= MAX_PASSCODE && 0 <= e.rd <= MAX_DISCRIMINATOR
    requires e.Resume? && call.job.Booting? ==>
      !call.phase.Spawning? && !call.phase.SpawnCreating? && !call.phase.LockContext? && !call.phase.LockCreating?
    requires e.Deliver? ==> Plain(call.phase)
    ensures Mine(n, e.call, call, Move(n, call, e))
  {
    if e.Resume? && e.ok && call.job.Booting? {
      HubMine(n, e.call, call, e.rp, e.rd);
    } else if e.Resume? && e.ok && call.job.Adding? {
      AddMine(n, e.call, call, e.rp, e.rd);
    } else {
      QuietMine(n, e.call, call, Move(n, call, e));
    }
  }

  /** `calls'` follows from `calls` when call `c` (a new one if `c` is their number) becomes `call'`. */
  ghost predicate After(calls: seq<Call>, c: nat, call: Call, call': Call, calls': seq<Call>) {
    && c <= |calls|
    && (c < |calls| ==> call == calls[c])
    && (c == |calls| ==> call.grant.None? && call.server.None?)
    && calls' == if c < |calls| then calls[c := call'] else calls + [call']
  }

  lemma CallsAfter(s: State, c: nat, call: Call, out: Outcome, calls': seq<Call>)
    requires forall a :: 0 <= a < |s.calls| ==> CallLedger(s.node, a, s.calls[a])
    requires Extends(s.node, out.node, c) && CallLedger(out.node, c, out.call) &&
             After(s.calls, c, call, out.call, calls')
    ensures forall a :: 0 <= a < |calls'| ==> CallLedger(out.node, a, calls'[a])
  {
    forall a | 0 <= a < |calls'| ensures CallLedger(out.node, a, calls'[a]) {
      if a != c { OthersKeep(s.node, out.node, c, a, s.calls[a]); }
    }
  }

  lemma GrantsKept(start: Counters, grants: seq<Grant>, calls: seq<Call>, c: nat, call: Call, call': Call, calls':
    seq<Call>) requires GrantsHeld(start, grants, calls) && After(calls, c, call, call', calls')
    requires call.grant.Some? ==> call'.grant == call.grant
    ensures GrantsHeld(start, grants, calls')
  {
    forall i | 0 <= i < |grants|
      ensures grants[i].counters == NthAll(start, i) && grants[i].call < |calls'| &&
              calls'[grants[i].call].grant == Some(i)
    {}
  }

  lemma GrantsAfter(start: Counters, s: State, c: nat, call: Call, out: Outcome, calls': seq<Call>)
    requires s.node.counters == AfterBumps(start, |s.node.grants|) && GrantsHeld(start, s.node.grants, s.calls)
    requires MineGrant(s.node, c, call, out) && After(s.calls, c, call, out.call, calls')
    ensures out.node.counters == AfterBumps(start, |out.node.grants|) && GrantsHeld(start, out.node.grants, calls')
  {
    GrantsKept(start, s.node.grants, s.calls, c, call, out.call, calls');
    if !(out.node.grants == s.node.grants && out.node.counters == s.node.counters && out.call.grant == call.grant) {
      OneMoreGrant(start, s.node.counters, s.node.grants, c, calls');
    }
  }

  lemma OneMoreGrant(start: Counters, counters: Counters, grants: seq<Grant>, c: nat, calls: seq<Call>)
    requires counters == AfterBumps(start, |grants|) && GrantsHeld(start, grants, calls)
    requires c < |calls| && calls[c].grant == Some(|grants|)
    ensures BumpAll(counters) == AfterBumps(start, |grants| + 1)
    ensures GrantsHeld(start, grants + [Grant(c, TakeAll(counters))], calls)
  {
    HandOut(start, |grants|);
    GrantNext(start, grants, c, calls);
  }

  lemma GrantNext(start: Counters, grants: seq<Grant>, c: nat, calls: seq<Call>)
    requires GrantsHeld(start, grants, calls) && c < |calls| && calls[c].grant == Some(|grants|)
    ensures GrantsHeld(start, grants + [Grant(c, NthAll(start, |grants|))], calls)
  {
    var all := grants + [Grant(c, NthAll(start, |grants|))];
    forall i | 0 <= i < |all|
      ensures all[i].counters == NthAll(start, i) && all[i].call < |calls| && calls[all[i].call].grant == Some(i)
    {
      if i < |grants| { assert all[i] == grants[i]; }
    }
  }

  lemma ServersAfter(s: State, c: nat, call: Call, out: Outcome, calls': seq<Call>)
    requires ServersHeld(s.node.servers, s.calls)
    requires MineServer(s.node.servers, c, call.server, out.node.servers, out.call.server)
    requires After(s.calls, c, call, out.call, calls')
    ensures ServersHeld(out.node.servers, calls')
  {}

  lemma LedgerAfter(start: Counters, s: State, c: nat, call: Call, out: Outcome, calls': seq<Call>)
    requires Ledger(start, s) && Mine(s.node, c, call, out) && After(s.calls, c, call, out.call, calls')
    ensures Ledger(start, State(out.node, calls'))
  {
    CallsAfter(s, c, call, out, calls');
    GrantsAfter(start, s, c, call, out, calls');
    ServersAfter(s, c, call, out, calls');
  }

  lemma LedgerManage(start: Counters, s: State, e: Event)
    requires Ledger(start, s) && Enabled(s, e) && !Starts(e) && !Moves(e)
    ensures Ledger(start, Step(s, e))
  {
    var m := Manage(s.node, e);
    forall a | 0 <= a < |s.calls| ensures CallLedger(m, a, s.calls[a]) {
      OthersKeep(s.node, m, |s.calls|, a, s.calls[a]);
    }
  }

  lemma LedgerStep(start: Counters, s: State, e: Event)
    requires WellFormed(s) && Ledger(start, s) && Enabled(s, e)
    ensures Ledger(start, Step(s, e))
  {
    if Starts(e) {
      var c, blank := |s.calls|, NewCall(Booting, Refused);
      var out := Entry(s.node, c, e);
      EntryMine(s.node, c, e);
      LedgerAfter(start, s, c, blank, out, s.calls + [out.call]);
    } else if Moves(e) {
      var call := s.calls[e.call];
      var out := Move(s.node, call, e);
      assert PhaseFits(call);
      MoveMine(s.node, call, e);
      LedgerAfter(start, s, e.call, call, out, s.calls[e.call := out.call]);
    } else {
      LedgerManage(start, s, e);
    }
  }

  lemma {:induction false} LedgerRun(start: Counters, s: State, es: seq<Event>)
    requires WellFormed(s) && Ledger(start, s) && IsRun(s, es)
    ensures Ledger(start, Exec(s, es))
    decreases |es|
  {
    if es != [] {
      WellFormedStep(s, es[0]);
      LedgerStep(start, s, es[0]);
      LedgerRun(start, Step(s, es[0]), es[1..]);
    }
  }

  // ---------- the theorems ----------

  /** The state before any call. */
  ghost predicate Fresh(s: State) {
    Unique(s.node.registry) && s.calls == [] && s.node.grants == [] && s.node.servers == []
  }

  /** The place, in the order of hand-outs, of the grant behind a server node. */
  function GrantOf(s: State, j: nat): nat
    requires j < |s.node.servers|
  {
    var c := s.node.servers[j].call;
    if c < |s.calls| then s.calls[c].grant.GetOr(0) else 0
  }

  /** Every server node, own or of a dependant, is commissioned from one hand-out of this node's
      counters, and no two share one: the `k`-th hand-out counts up from the start. */
  lemma EachServerHasItsGrant(s: State, es: seq<Event>)
    requires Fresh(s) && IsRun(s, es)
    ensures var t, start := Exec(s, es), s.node.counters;
            && (forall k :: 0 <= k < |t.node.grants| ==> t.node.grants[k].counters == NthAll(start, k))
            && (forall j :: 0 <= j < |t.node.servers| ==>
                  && GrantOf(t, j) < |t.node.grants|
                  && t.node.grants[GrantOf(t, j)].call == t.node.servers[j].call
                  && ServerFrom(t.node.servers[j], NthAll(start, GrantOf(t, j))))
            && (forall i, j :: 0 <= i < j < |t.node.servers| ==> GrantOf(t, i) != GrantOf(t, j))
  {
    var t, start := Exec(s, es), s.node.counters;
    LedgerRun(start, s, es);
    forall j | 0 <= j < |t.node.servers|
      ensures GrantOf(t, j) < |t.node.grants| && t.node.grants[GrantOf(t, j)].call == t.node.servers[j].call
      ensures t.node.servers[j].call < |t.calls| && t.calls[t.node.servers[j].call].server == Some(j)
      ensures ServerFrom(t.node.servers[j], NthAll(start, GrantOf(t, j)))
    {
      var c := t.node.servers[j].call;
      assert CallLedger(t.node, c, t.calls[c]);
    }
  }

  ghost predicate DistinctPorts(servers: seq<ServerNode>) {
    forall i, j :: 0 <= i < j < |servers| ==> servers[i].port != servers[j].port
  }

  /** Was server node `j` created while the port counter was unset (undefined or zero)? */
  ghost predicate Defaulted(start: Counters, t: State, j: nat)
    requires j < |t.node.servers|
  {
    Nth(start.port, GrantOf(t, j)).None?
  }

  /** Exactly when ports collide, for every start value and every interleaving: the ports of all
      server nodes, own and of dependants, are pairwise distinct if and only if at most one
      of them was created with the counter unset. */
  lemma PortsDistinctExactly(s: State, es: seq<Event>)
    requires Fresh(s) && IsRun(s, es)
    ensures var t := Exec(s, es);
            DistinctPorts(t.node.servers) <==>
            forall i, j :: 0 <= i < j < |t.node.servers| ==>
              !(Defaulted(s.node.counters, t, i) && Defaulted(s.node.counters, t, j))
  {
    var t, start := Exec(s, es), s.node.counters;
    EachServerHasItsGrant(s, es);
    forall i, j | 0 <= i < j < |t.node.servers|
      ensures t.node.servers[i].port == t.node.servers[j].port <==> Defaulted(start, t, i) && Defaulted(start, t, j)
    {
      var p, q := Nth(start.port, GrantOf(t, i)), Nth(start.port, GrantOf(t, j));
      assert ServerFrom(t.node.servers[i], NthAll(start, GrantOf(t, i)));
      assert ServerFrom(t.node.servers[j], NthAll(start, GrantOf(t, j)));
      assert t.node.servers[i].port == p.GetOr(5540);
      assert t.node.servers[j].port == q.GetOr(5540);
    }
  }

  /** With a positive start the hand-outs are the contiguous range from it, and no two server nodes,
      own or of dependants, share a port. */
  lemma PortsContiguous(s: State, es: seq<Event>)
    requires Fresh(s) && IsRun(s, es)
    requires s.node.counters.port.Some? && s.node.counters.port.value > 0
    ensures var t, port := Exec(s, es), s.node.counters.port.value;
            && DistinctPorts(t.node.servers)
            && t.node.counters.port == Some(port + |t.node.grants|)
            && (forall k :: 0 <= k < |t.node.grants| ==> t.node.grants[k].counters.port == Some(port + k))
            && (forall j :: 0 <= j < |t.node.servers| ==> t.node.servers[j].port == port + GrantOf(t, j))
  {
    EachServerHasItsGrant(s, es);
    PortsDistinctExactly(s, es);
    FinalCounters(s, es);
  }

  lemma FinalCounters(s: State, es: seq<Event>)
    requires Fresh(s) && IsRun(s, es)
    ensures Exec(s, es).node.counters.port == Stuck(s.node.counters.port, |Exec(s, es).node.grants|)
  {
    LedgerRun(s.node.counters, s, es);
    BumpsClosedForm(s.node.counters, |Exec(s, es).node.grants|);
  }

  /** With an unset start (undefined or zero) every server node is on the default port, so any two of them collide. */
  lemma PortsUnset(s: State, es: seq<Event>)
    requires Fresh(s) && IsRun(s, es) && (s.node.counters.port.None? || s.node.counters.port.value == 0)
    ensures var t := Exec(s, es);
            && (forall j :: 0 <= j < |t.node.servers| ==> t.node.servers[j].port == 5540)
            && (DistinctPorts(t.node.servers) <==> |t.node.servers| <= 1)
  {
    EachServerHasItsGrant(s, es);
    var t, start := Exec(s, es), s.node.counters;
    forall j | 0 <= j < |t.node.servers| ensures t.node.servers[j].port == 5540 {
      assert ServerFrom(t.node.servers[j], NthAll(start, GrantOf(t, j)));
    }
    if |t.node.servers| > 1 { assert t.node.servers[0].port == t.node.servers[1].port; }
  }

  /** However far the counters have run, every server node has a valid passcode and discriminator, a start in range is
      used unchanged until the range is exhausted, and an unset one gives the default. */
  lemma CommissioningInRange(s: State, es: seq<Event>, j: nat)
    requires Fresh(s) && IsRun(s, es) && j < |Exec(s, es).node.servers|
    ensures var t := Exec(s, es); var node, k, start := t.node.servers[j], GrantOf(t, j), s.node.counters;
            && 0 <= node.passcode <= 99999999
            && 0 <= node.discriminator <= 4095
            && (start.passcode.Some? && start.passcode.value > 0 && k <= 99999999 - start.passcode.value ==>
                  node.passcode == start.passcode.value + k)
            && (start.discriminator.Some? && start.discriminator.value > 0 &&
                k <= 4095 - start.discriminator.value ==>
                  node.discriminator == start.discriminator.value + k)
            && (start.passcode.None? || start.passcode.value == 0 ==> node.passcode == 20252026)
            && (start.discriminator.None? || start.discriminator.value == 0 ==> node.discriminator == 3850)
  {
    EachServerHasItsGrant(s, es);
  }

  /** The first 4096 - d discriminators handed out from a start d are pairwise distinct as used. */
  lemma DiscriminatorsDistinct(s: State, es: seq<Event>, i: nat, j: nat)
    requires Fresh(s) && IsRun(s, es) && i < j < |Exec(s, es).node.servers|
    requires s.node.counters.discriminator.Some? && s.node.counters.discriminator.value > 0
    requires GrantOf(Exec(s, es), i) < 4096 - s.node.counters.discriminator.value
    requires GrantOf(Exec(s, es), j) < 4096 - s.node.counters.discriminator.value
    ensures Exec(s, es).node.servers[i].discriminator != Exec(s, es).node.servers[j].discriminator
  {
    EachServerHasItsGrant(s, es);
    CommissioningInRange(s, es, i);
    CommissioningInRange(s, es, j);
  }
}
