/**
 Authorised addresses, connected clients and pending timers after any run, read off its events
 (packages/core/src/frontend.ts and packages/core/src/backendWsServer.ts).
 */
module SessionHistory {
  import opened Optional
  import opened Sessions

  /** Event `i` of the run meets this state. */
  ghost function Before(s: State, es: seq<Event>, i: nat, cancels: bool): State
    requires i <= |es|
  {
    Exec(s, es[..i], cancels)
  }

  lemma {:induction false} LastStep(s: State, es: seq<Event>, cancels: bool)
    requires IsRun(s, es, cancels) && es != []
    ensures var n := |es| - 1; var u := Before(s, es, n, cancels);
            IsRun(s, es[..n], cancels) && Enabled(u, es[n]) && Exec(s, es, cancels) == Step(u, es[n], cancels)
    decreases |es|
  {
    var n := |es| - 1;
    if n > 0 {
      LastStep(Step(s, es[0], cancels), es[1..], cancels);
      var head := es[..n];
      assert head[0] == es[0] && head[1..] == es[1..][..n - 1];
    } else {
      assert es[1..] == [];
    }
  }

  lemma SamePrefix(s: State, es: seq<Event>, i: nat, cancels: bool)
    requires es != [] && i < |es|
    ensures Before(s, es[..|es| - 1], i, cancels) == Before(s, es, i, cancels)
  {
    assert es[..|es| - 1][..i] == es[..i];
  }

  // ---------- authorised addresses ----------

  /** A timer fires at event `j` and the running server has no client. */
  ghost predicate ClearsAt(s: State, es: seq<Event>, j: nat, cancels: bool) {
    && j < |es| && es[j].Fire?
    && var u := Before(s, es, j, cancels);
    && u.running && forall c :: c in u.clients ==> u.clients[c].server != u.server
  }

  /** In every state a timer empties the set of authorised addresses if the running server has no client, and otherwise
      leaves it alone; it changes nothing else but the count of timers. */
  lemma FireExactly(s: State, cancels: bool)
    requires s.timers > 0
    ensures var t := Step(s, Fire, cancels);
            && t == s.(timers := s.timers - 1, auth := t.auth)
            && t.auth == if s.running && forall c :: c in s.clients ==> s.clients[c].server != s.server
                         then {} else s.auth
  {}

  /** Event `i` is a login or an upgrade with this address. */
  predicate NamesAt(es: seq<Event>, i: nat, a: string) {
    i < |es| && (es[i].Login? || es[i].Upgrade?) && es[i].address == Some(a) && a != ""
  }

  ghost predicate UnclearedSince(s: State, es: seq<Event>, i: nat, cancels: bool) {
    forall j: nat :: i <= j < |es| ==> !ClearsAt(s, es, j, cancels)
  }

  ghost predicate GrantedAt(s: State, es: seq<Event>, i: nat, a: string, cancels: bool) {
    NamesAt(es, i, a) && UnclearedSince(s, es, i, cancels)
  }

  lemma UnclearedPrefix(s: State, es: seq<Event>, i: nat, cancels: bool)
    requires es != [] && i < |es|
    ensures UnclearedSince(s, es, i, cancels) <==>
            UnclearedSince(s, es[..|es| - 1], i, cancels) && !ClearsAt(s, es, |es| - 1, cancels)
  {
    var n := |es| - 1;
    forall j: nat | i <= j < n ensures ClearsAt(s, es[..n], j, cancels) <==> ClearsAt(s, es, j, cancels) {
      SamePrefix(s, es, j, cancels);
    }
  }

  /** The last event decides: it clears, or names the address, or leaves it as it was. */
  lemma LastDecides(s: State, es: seq<Event>, a: string, cancels: bool)
    requires IsRun(s, es, cancels) && es != []
    ensures var n := |es| - 1;
            a in Exec(s, es, cancels).auth <==>
            NamesAt(es, n, a) || (!ClearsAt(s, es, n, cancels) && a in Before(s, es, n, cancels).auth)
  {
    LastStep(s, es, cancels);
  }

  lemma GrantsShorter(s: State, es: seq<Event>, a: string, cancels: bool)
    requires es != []
    ensures var n := |es| - 1;
            (exists i: nat :: GrantedAt(s, es, i, a, cancels)) <==>
            NamesAt(es, n, a)
            || (!ClearsAt(s, es, n, cancels) && exists i: nat :: GrantedAt(s, es[..n], i, a, cancels))
  {
    var n := |es| - 1;
    if NamesAt(es, n, a) { assert GrantedAt(s, es, n, a, cancels); }
    forall i: nat | i < n
      ensures GrantedAt(s, es, i, a, cancels) <==>
              GrantedAt(s, es[..n], i, a, cancels) && !ClearsAt(s, es, n, cancels)
    {
      UnclearedPrefix(s, es, i, cancels);
    }
    if i: nat :| GrantedAt(s, es[..n], i, a, cancels) { assert i < n; }
  }

  /** In every run, with one cancelled timer or any number of uncancelled ones: an address is authorised if and only if
      a login or an upgrade with it came after the last time a timer found the running server without clients, or it
      was authorised at the start and no timer ever did. */
  lemma {:induction false} AuthorisedIsHistory(s: State, es: seq<Event>, a: string, cancels: bool)
    requires IsRun(s, es, cancels)
    ensures a in Exec(s, es, cancels).auth <==>
            (exists i: nat :: GrantedAt(s, es, i, a, cancels)) || (a in s.auth && UnclearedSince(s, es, 0, cancels))
    decreases |es|
  {
    if es != [] {
      LastStep(s, es, cancels);
      AuthorisedIsHistory(s, es[..|es| - 1], a, cancels);
      LastDecides(s, es, a, cancels);
      GrantsShorter(s, es, a, cancels);
      UnclearedPrefix(s, es, 0, cancels);
    }
  }

  // ---------- connected clients ----------

  /** Event `i` connects socket `c` to the server then running, and it has not closed since. */
  ghost predicate ConnectedAt(s: State, es: seq<Event>, i: nat, c: nat, cancels: bool) {
    && i < |es| && es[i].Upgrade? && es[i].id == c
    && Before(s, es, i, cancels).running
    && Close(c) !in es[i..]
  }

  lemma ConnectedPrefix(s: State, es: seq<Event>, i: nat, c: nat, cancels: bool)
    requires es != [] && i < |es| - 1
    ensures ConnectedAt(s, es, i, c, cancels) <==>
            ConnectedAt(s, es[..|es| - 1], i, c, cancels) && es[|es| - 1] != Close(c)
  {
    SamePrefix(s, es, i, cancels);
    assert es[i..] == es[..|es| - 1][i..] + [es[|es| - 1]];
  }

  /** In every run from the beginning: a socket is connected if and only if it was upgraded while a server was running
      and has not closed since, and then it has the address it came with and belongs to that server. */
  lemma {:induction false} ConnectedIsHistory(es: seq<Event>, c: nat, cancels: bool)
    requires IsRun(FRESH, es, cancels)
    ensures var t := Exec(FRESH, es, cancels);
            && (c in t.clients <==> exists i: nat :: ConnectedAt(FRESH, es, i, c, cancels))
            && (forall i: nat :: ConnectedAt(FRESH, es, i, c, cancels) ==>
                  c in t.clients && t.clients[c] == Client(es[i].address, Before(FRESH, es, i, cancels).server))
    decreases |es|
  {
    if es != [] {
      var n := |es| - 1;
      var u, t := Before(FRESH, es, n, cancels), Exec(FRESH, es, cancels);
      LastStep(FRESH, es, cancels);
      ConnectedIsHistory(es[..n], c, cancels);
      forall i: nat | i < n
        ensures ConnectedAt(FRESH, es, i, c, cancels) <==>
                ConnectedAt(FRESH, es[..n], i, c, cancels) && es[n] != Close(c)
        ensures Before(FRESH, es[..n], i, cancels) == Before(FRESH, es, i, cancels)
      {
        ConnectedPrefix(FRESH, es, i, c, cancels);
        SamePrefix(FRESH, es, i, cancels);
      }
      assert es[n..] == [es[n]];
      LastConnects(u, es[n], c, cancels);
      if c in t.clients {
        if es[n].Upgrade? && es[n].id == c && u.running {
          assert ConnectedAt(FRESH, es, n, c, cancels);
        } else {
          var i: nat :| ConnectedAt(FRESH, es[..n], i, c, cancels);
          assert ConnectedAt(FRESH, es, i, c, cancels);
        }
      }
    }
  }

  lemma LastConnects(u: State, e: Event, c: nat, cancels: bool)
    requires Enabled(u, e)
    ensures var t := Step(u, e, cancels); var joins := e.Upgrade? && e.id == c && u.running;
            && (c in t.clients <==> joins || (c in u.clients && e != Close(c)))
            && (joins ==> c !in u.clients && t.clients[c] == Client(e.address, u.server))
            && (c in t.clients && !joins ==> t.clients[c] == u.clients[c])
  {}

  // ---------- servers ----------

  function Starts(es: seq<Event>): nat {
    if es == [] then 0 else Starts(es[..|es| - 1]) + if es[|es| - 1].Start? then 1 else 0
  }

  function Stops(es: seq<Event>): nat {
    if es == [] then 0 else Stops(es[..|es| - 1]) + if es[|es| - 1].Stop? then 1 else 0
  }

  /** In every run from the beginning: the server has the number of the starts there have been, and is running if and
      only if one of them has not been stopped. */
  lemma {:induction false} ServerIsHistory(es: seq<Event>, cancels: bool)
    requires IsRun(FRESH, es, cancels)
    ensures var t := Exec(FRESH, es, cancels);
            t.server == Starts(es) && Starts(es) == Stops(es) + if t.running then 1 else 0
    decreases |es|
  {
    if es != [] {
      LastStep(FRESH, es, cancels);
      ServerIsHistory(es[..|es| - 1], cancels);
    }
  }

  // ---------- timers ----------

  /** The socket that closes at event `i` leaves the running server without clients. */
  ghost predicate DesertsAt(s: State, es: seq<Event>, i: nat, cancels: bool) {
    && i < |es| && es[i].Close?
    && var u := Before(s, es, i, cancels);
    && u.running && forall c :: c in u.clients && c != es[i].id ==> u.clients[c].server != u.server
  }

  /** Any number of timers: each desertion sets one, each firing ends one, nothing else counts. */
  ghost function Set(s: State, es: seq<Event>): nat {
    if es == [] then 0
    else Set(s, es[..|es| - 1]) + if DesertsAt(s, es, |es| - 1, false) then 1 else 0
  }

  function Fired(es: seq<Event>): nat {
    if es == [] then 0 else Fired(es[..|es| - 1]) + if es[|es| - 1].Fire? then 1 else 0
  }

  lemma {:induction false} UncancelledTimers(s: State, es: seq<Event>)
    requires IsRun(s, es, false)
    ensures Exec(s, es, false).timers + Fired(es) == s.timers + Set(s, es)
    decreases |es|
  {
    if es != [] {
      LastStep(s, es, false);
      UncancelledTimers(s, es[..|es| - 1]);
      LastTimer(s, es, false);
    }
  }

  lemma LastTimer(s: State, es: seq<Event>, cancels: bool)
    requires IsRun(s, es, cancels) && es != []
    ensures var n := |es| - 1; var u := Before(s, es, n, cancels);
            Exec(s, es, cancels).timers ==
            if DesertsAt(s, es, n, cancels) then (if cancels then 1 else u.timers + 1)
            else if es[n].Fire? then u.timers - 1
            else if es[n].Destroy? && cancels then 0
            else u.timers
  {
    LastStep(s, es, cancels);
    var n := |es| - 1;
    var u := Before(s, es, n, cancels);
    if es[n].Close? {
      var t := u.(clients := u.clients - {es[n].id});
      forall c | c in u.clients && c != es[n].id ensures c in t.clients && t.clients[c] == u.clients[c] {}
      assert DesertsAt(s, es, n, cancels) <==> Deserted(t);
    }
  }

  ghost predicate SetAt(s: State, es: seq<Event>, i: nat) {
    DesertsAt(s, es, i, true) && Fire !in es[i..] && Destroy !in es[i..]
  }

  lemma SetPrefix(s: State, es: seq<Event>, i: nat)
    requires es != [] && i < |es| - 1
    ensures SetAt(s, es, i) <==>
            SetAt(s, es[..|es| - 1], i) && !es[|es| - 1].Fire? && !es[|es| - 1].Destroy?
  {
    SamePrefix(s, es, i, true);
    assert es[i..] == es[..|es| - 1][i..] + [es[|es| - 1]];
  }

  /** One timer: in every run from the beginning it is pending if and only if the running server has been deserted since
      the timer last fired or the server was last destroyed. */
  lemma {:induction false} SingleTimer(es: seq<Event>)
    requires IsRun(FRESH, es, true)
    ensures Exec(FRESH, es, true).timers <= 1
    ensures Exec(FRESH, es, true).timers == 1 <==> exists i: nat :: SetAt(FRESH, es, i)
    decreases |es|
  {
    if es != [] {
      var n := |es| - 1;
      LastStep(FRESH, es, true);
      SingleTimer(es[..n]);
      LastTimer(FRESH, es, true);
      assert es[n..] == [es[n]];
      forall i: nat | i < n
        ensures SetAt(FRESH, es, i) <==> SetAt(FRESH, es[..n], i) && !es[n].Fire? && !es[n].Destroy?
      {
        SetPrefix(FRESH, es, i);
      }
      if DesertsAt(FRESH, es, n, true) { assert SetAt(FRESH, es, n); }
      if i: nat :| SetAt(FRESH, es[..n], i) { assert i < n; }
    }
  }
}
