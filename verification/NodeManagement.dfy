/**
 A plugin's lock and its counter through shutdowns and loads (packages/core/src/matterNode.ts and
 packages/core/src/pluginManager.ts): each is read off the history of the run.
 */
module NodeManagement {
  import opened NodeProtocol
  import opened NodeAccounting
  import opened NodeLocks
  import opened NodeShapes
  import opened NodeOrphans

  predicate Locked(n: Shared, p: string) {
    p in n.plugins && n.plugins[p].locked
  }

  /** From call `from` on, some call has taken the lock of `p`. */
  ghost predicate TakenFrom(calls: seq<Call>, from: nat, p: string) {
    exists c: nat :: from <= c && MadeUnder(calls, c, p)
  }

  lemma LockChange(start: Counters, s: State, e: Event, p: string)
    requires Sound(start, s) && Enabled(s, e) && e != Unlock(p)
    ensures Locked(Step(s, e).node, p) <==> Locked(s.node, p) || MadeUnder(Step(s, e).calls, |s.calls|, p)
  {
    if Starts(e) {
      EntryLock(s, e);
    } else if Moves(e) {
      assert PhaseFits(s.calls[e.call]) && CallLock(s.node, s.calls[e.call]);
      MoveLock(s.node, s.calls[e.call], e);
    }
  }

  lemma Unlocked(s: State, p: string)
    requires Enabled(s, Unlock(p))
    ensures !Locked(Step(s, Unlock(p)).node, p) && Step(s, Unlock(p)).calls == s.calls
  {}

  lemma UnderStays(start: Counters, s: State, es: seq<Event>, c: nat, p: string)
    requires Sound(start, s) && IsRun(s, es) && c < |s.calls|
    ensures MadeUnder(Exec(s, es).calls, c, p) <==> MadeUnder(s.calls, c, p)
  {
    JobPersists(start, s, es, c);
  }

  lemma {:induction false} LockedSince(start: Counters, s: State, es: seq<Event>, p: string)
    requires Sound(start, s) && IsRun(s, es) && Unlock(p) !in es
    ensures Locked(Exec(s, es).node, p) <==> Locked(s.node, p) || TakenFrom(Exec(s, es).calls, |s.calls|, p)
    decreases |es|
  {
    if es != [] {
      var s1, c := Step(s, es[0]), |s.calls|;
      LockChange(start, s, es[0], p);
      SoundStep(start, s, es[0]);
      LockedSince(start, s1, es[1..], p);
      JobsStay(s, es[0]);
      if c < |s1.calls| { UnderStays(start, s1, es[1..], c, p); }
    }
  }

  /** In every run, up to any event after which the plugin is not shut down any more: its lock is taken if and only if
      some call has taken it since then. */
  lemma LockIsHistory(s: State, es: seq<Event>, i: nat, p: string)
    requires Untouched(s) && IsRun(s, es) && i <= |es| && Unlock(p) !in es[i..]
    requires if i == 0 then !Locked(s.node, p) else es[i - 1] == Unlock(p)
    ensures Locked(Exec(s, es).node, p) <==> TakenFrom(Exec(s, es).calls, |Exec(s, es[..i]).calls|, p)
  {
    var start, u := s.node.counters, Exec(s, es[..i]);
    UntouchedSound(s);
    RunSplit(s, es, i);
    SoundRun(start, s, es[..i]);
    if i > 0 {
      assert es[..i][..i - 1] == es[..i - 1];
      RunLast(s, es[..i]);
      Unlocked(Exec(s, es[..i - 1]), p);
    }
    LockedSince(start, u, es[i..], p);
  }

  // ---------- the counter ----------

  lemma {:induction false} CountedSince(s: State, es: seq<Event>, p: string)
    requires WellFormed(s) && IsRun(s, es) && Load(p) !in es && Uncount(p) !in es
    ensures Counted(Exec(s, es).node, p) <==> Counted(s.node, p)
    decreases |es|
  {
    if es != [] {
      WellFormedStep(s, es[0]);
      CountedKept(s, es[0], p);
      CountedSince(Step(s, es[0]), es[1..], p);
    }
  }

  lemma CountedKept(s: State, e: Event, p: string)
    requires WellFormed(s) && Enabled(s, e) && !Resets(e, p)
    ensures Counted(Step(s, e).node, p) <==> Counted(s.node, p)
  {
    if Starts(e) {
      EntryCounts(s.node, |s.calls|, e, p);
    } else if e.Resume? {
      AdvanceCounts(s.node, e.call, s.calls[e.call], e.ok, e.rp, e.rd, p);
    }
  }

  lemma Reset(s: State, e: Event, p: string)
    requires Enabled(s, e) && Resets(e, p)
    ensures Counted(Step(s, e).node, p) <==> e == Load(p)
    ensures Counter(Step(s, e).node, p) == 0
  {}

  /** In every run: after its last load or shutdown a plugin has a counter if and only if it was a load, and either
      leaves the counter at zero. */
  lemma CounterIsHistory(s: State, es: seq<Event>, i: nat, p: string)
    requires WellFormed(s) && IsRun(s, es) && i < |es| && Resets(es[i], p)
    requires Load(p) !in es[i + 1..] && Uncount(p) !in es[i + 1..]
    ensures Counter(Exec(s, es[..i + 1]).node, p) == 0
    ensures Counted(Exec(s, es).node, p) <==> es[i] == Load(p)
  {
    RunSplit(s, es, i + 1);
    assert es[..i + 1][..i] == es[..i];
    RunLast(s, es[..i + 1]);
    Reset(Exec(s, es[..i]), es[i], p);
    WellFormedStep(Exec(s, es[..i]), es[i]);
    CountedSince(Exec(s, es[..i + 1]), es[i + 1..], p);
  }
}
