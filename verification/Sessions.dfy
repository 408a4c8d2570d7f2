/**
 Authorised addresses and WebSocket clients: the `authClients` set with its delayed clearing, in
 packages/core/src/frontend.ts (one timer, cancelled and replaced) and in
 packages/core/src/backendWsServer.ts (any number of timers, never cancelled).
 */
module Sessions {
  import opened Optional

  /** A connected socket: its address, if known, and which WebSocketServer it belongs to. */
  datatype Client = Client(address: Option<string>, server: nat)

  /** `running`: `webSocketServer` is defined; it is the one with number `server`. */
  datatype State = State(
    running: bool,
    server: nat,
    clients: map<nat, Client>,
    auth: set<string>,
    timers: nat)

  const FRESH := State(false, 0, map[], {}, 0)

  datatype Event =
    | Login(address: Option<string>)              // a valid password on /api/login
    | Upgrade(id: nat, address: Option<string>)   // a valid WebSocket upgrade
    | Close(id: nat)                              // a socket closes
    | Fire                                        // a timer fires
    | Stop                                        // stop() lets go of the WebSocketServer
    | Start                                       // start() creates a new one
    | Destroy                                     // destroy() cancels the timer

  /** `webSocketServer?.clients.size === 0`. */
  ghost predicate Deserted(s: State) {
    s.running && forall c :: c in s.clients ==> s.clients[c].server != s.server
  }

  function Known(address: Option<string>): set<string> {
    if address.Some? && address.value != "" then {address.value} else {}
  }

  ghost predicate Enabled(s: State, e: Event) {
    match e
    case Upgrade(c, _) => c !in s.clients
    case Close(c) => c in s.clients
    case Fire => s.timers > 0
    case Stop => s.running
    case Start => !s.running
    case _ => true
  }

  /** One event; `cancels` tells the frontend, which keeps a single timer, from the backend. */
  ghost function Step(s: State, e: Event, cancels: bool): State
    requires Enabled(s, e)
  {
    match e
    case Login(a) => s.(auth := s.auth + Known(a))
    case Upgrade(c, a) =>
      s.(auth := s.auth + Known(a),
         clients := if s.running then s.clients[c := Client(a, s.server)] else s.clients)
    case Close(c) =>
      var t := s.(clients := s.clients - {c});
      if Deserted(t) then t.(timers := if cancels then 1 else s.timers + 1) else t
    case Fire =>
      var t := s.(timers := s.timers - 1);
      if Deserted(s) then t.(auth := {}) else t
    case Stop => s.(running := false)
    case Start => s.(running := true, server := s.server + 1)
    case Destroy => if cancels then s.(timers := 0) else s
  }

  ghost predicate IsRun(s: State, es: seq<Event>, cancels: bool)
    decreases |es|
  {
    es == [] || (Enabled(s, es[0]) && IsRun(Step(s, es[0], cancels), es[1..], cancels))
  }

  ghost function Exec(s: State, es: seq<Event>, cancels: bool): State
    decreases |es|
  {
    if es == [] || !Enabled(s, es[0]) then s else Exec(Step(s, es[0], cancels), es[1..], cancels)
  }

  /** Clients of the current server are authorised; clients of older ones never count as current. */
  ghost predicate Inv(s: State, cancels: bool) {
    && (forall c :: c in s.clients ==> s.clients[c].server <= s.server)
    && (s.running ==> forall c :: c in s.clients && s.clients[c].server == s.server ==>
        Known(s.clients[c].address) <= s.auth)
    && (cancels ==> s.timers <= 1)
  }

  lemma InvStep(s: State, e: Event, cancels: bool)
    requires Inv(s, cancels) && Enabled(s, e)
    ensures Inv(Step(s, e, cancels), cancels)
  {}

  /** In every run of logins, upgrades, closes, timers, stops and restarts, with one cancelled timer as with any
      number of uncancelled ones, the address of every client of the running server is authorised. */
  lemma {:induction false} CurrentClientsAuthorised(s: State, es: seq<Event>, cancels: bool)
    requires Inv(s, cancels) && IsRun(s, es, cancels)
    ensures Inv(Exec(s, es, cancels), cancels)
    decreases |es|
  {
    if es != [] {
      InvStep(s, es[0], cancels);
      CurrentClientsAuthorised(Step(s, es[0], cancels), es[1..], cancels);
    }
  }

  // ---------- clients left over by a stop ----------

  /** No stop leaves a client connected. */
  ghost predicate CleanStops(s: State, es: seq<Event>, cancels: bool)
    decreases |es|
  {
    es == [] ||
    (&& Enabled(s, es[0])
     && (es[0].Stop? ==> s.clients == map[])
     && CleanStops(Step(s, es[0], cancels), es[1..], cancels))
  }

  ghost predicate AllAuthorised(s: State) {
    forall c :: c in s.clients ==> Known(s.clients[c].address) <= s.auth
  }

  ghost predicate AllCurrent(s: State) {
    forall c :: c in s.clients ==> s.running && s.clients[c].server == s.server
  }

  lemma {:induction false} CleanRunsStayCurrent(s: State, es: seq<Event>, cancels: bool)
    requires AllCurrent(s) && CleanStops(s, es, cancels)
    ensures IsRun(s, es, cancels) && AllCurrent(Exec(s, es, cancels))
    decreases |es|
  {
    if es != [] {
      CleanRunsStayCurrent(Step(s, es[0], cancels), es[1..], cancels);
    }
  }

  /** If every stop waits until all clients are gone, every connected client is authorised at all times. */
  lemma CleanStopsAuthoriseAll(es: seq<Event>, cancels: bool)
    requires CleanStops(FRESH, es, cancels)
    ensures AllAuthorised(Exec(FRESH, es, cancels))
  {
    CleanRunsStayCurrent(FRESH, es, cancels);
    CurrentClientsAuthorised(FRESH, es, cancels);
  }

  /** A timer fires, the running server has no client, and a client of an older one has a known address. */
  ghost predicate ClearsLeftover(s: State, e: Event) {
    e.Fire? && Deserted(s) && exists c :: c in s.clients && Known(s.clients[c].address) != {}
  }

  lemma LostExactly(s: State, e: Event, cancels: bool)
    requires AllAuthorised(s) && Enabled(s, e)
    ensures AllAuthorised(Step(s, e, cancels)) <==> !ClearsLeftover(s, e)
  {
    var t := Step(s, e, cancels);
    if ClearsLeftover(s, e) {
      var c :| c in s.clients && Known(s.clients[c].address) != {};
      assert c in t.clients && t.auth == {};
    } else if e.Fire? && Deserted(s) {
      forall c | c in t.clients ensures Known(t.clients[c].address) <= t.auth {
        assert Known(s.clients[c].address) == {};
      }
    }
  }

  ghost predicate AuthorisedThroughout(s: State, es: seq<Event>, cancels: bool)
    decreases |es|
  {
    AllAuthorised(s) && (es == [] || !Enabled(s, es[0]) ||
        AuthorisedThroughout(Step(s, es[0], cancels), es[1..], cancels))
  }

  ghost predicate NeverClearsLeftover(s: State, es: seq<Event>, cancels: bool)
    decreases |es|
  {
    es == [] || !Enabled(s, es[0])
    || (!ClearsLeftover(s, es[0]) && NeverClearsLeftover(Step(s, es[0], cancels), es[1..], cancels))
  }

  /** Every connected client is authorised throughout a run exactly when no timer fires while only clients of
      earlier servers, one of them with a known address, are connected. */
  lemma {:induction false} AuthorisedThroughoutExactly(s: State, es: seq<Event>, cancels: bool)
    requires AllAuthorised(s) && IsRun(s, es, cancels)
    ensures AuthorisedThroughout(s, es, cancels) <==> NeverClearsLeftover(s, es, cancels)
    decreases |es|
  {
    if es != [] {
      LostExactly(s, es[0], cancels);
      if !ClearsLeftover(s, es[0]) { AuthorisedThroughoutExactly(Step(s, es[0], cancels), es[1..], cancels); }
    }
  }

  lemma RunCons(s: State, e: Event, es: seq<Event>, cancels: bool)
    requires Enabled(s, e) && IsRun(Step(s, e, cancels), es, cancels)
    ensures IsRun(s, [e] + es, cancels) && Exec(s, [e] + es, cancels) == Exec(Step(s, e, cancels), es, cancels)
  {
    assert ([e] + es)[1..] == es;
  }

  /** Otherwise it can go wrong: whenever a stop has left a client with a known address connected, a restart, one
      visitor and one timer withdraw its authorisation while it stays connected. */
  lemma LeftoverLosesAuthorisation(s: State, c: nat, visitor: nat, cancels: bool)
    requires Inv(s, cancels) && !s.running && c in s.clients && Known(s.clients[c].address) != {}
    requires visitor !in s.clients
    ensures var es := [Start, Upgrade(visitor, None), Close(visitor), Fire];
            IsRun(s, es, cancels) && c in Exec(s, es, cancels).clients && !AllAuthorised(Exec(s, es, cancels))
  {
    var es := [Start, Upgrade(visitor, None), Close(visitor), Fire];
    var s1 := Step(s, Start, cancels);
    var s2 := Step(s1, Upgrade(visitor, None), cancels);
    var s3 := Step(s2, Close(visitor), cancels);
    assert s3.clients == s.clients;
    assert Deserted(s2.(clients := s2.clients - {visitor}));
    assert s3.timers > 0 && Deserted(s3);
    var s4 := Step(s3, Fire, cancels);
    RunCons(s3, Fire, [], cancels);
    RunCons(s2, Close(visitor), [Fire], cancels);
    RunCons(s1, Upgrade(visitor, None), [Close(visitor), Fire], cancels);
    RunCons(s, Start, [Upgrade(visitor, None), Close(visitor), Fire], cancels);
    assert [Fire] + [] == [Fire];
    assert [Close(visitor)] + [Fire] == [Close(visitor), Fire];
    assert [Upgrade(visitor, None)] + [Close(visitor), Fire] == [Upgrade(visitor, None), Close(visitor), Fire];
    assert [Start] + [Upgrade(visitor, None), Close(visitor), Fire] == es;
    assert s4.auth == {} && s4.clients[c] == s.clients[c];
  }

  /** Such a run from the beginning: a client with an address connects, a stop ends without it, and the rest follows. */
  lemma AuthorisationLostFromFresh(address: string, cancels: bool)
    requires address != ""
    ensures var es := [Start, Upgrade(0, Some(address)), Stop, Start, Upgrade(1, None), Close(1), Fire];
            IsRun(FRESH, es, cancels) && 0 in Exec(FRESH, es, cancels).clients &&
                !AllAuthorised(Exec(FRESH, es, cancels))
  {
    var s1 := Step(FRESH, Start, cancels);
    var s2 := Step(s1, Upgrade(0, Some(address)), cancels);
    var s3 := Step(s2, Stop, cancels);
    var rest := [Start, Upgrade(1, None), Close(1), Fire];
    assert s3.clients == map[0 := Client(Some(address), 1)];
    assert address in Known(Some(address));
    LeftoverLosesAuthorisation(s3, 0, 1, cancels);
    RunCons(s2, Stop, rest, cancels);
    RunCons(s1, Upgrade(0, Some(address)), [Stop] + rest, cancels);
    RunCons(FRESH, Start, [Upgrade(0, Some(address))] + ([Stop] + rest), cancels);
    assert [Start] + ([Upgrade(0, Some(address))] + ([Stop] + rest))
        == [Start, Upgrade(0, Some(address)), Stop, Start, Upgrade(1, None), Close(1), Fire];
  }

  // ---------- the handlers ----------

  class SessionServer {
    const cancels: bool
    var running: bool
    var server: nat
    var clients: map<nat, Client>
    var authClients: set<string>
    var timers: nat

    ghost function View(): State
      reads this
    {
      State(running, server, clients, authClients, timers)
    }

    ghost predicate Ready()
      reads this
    {
      Inv(View(), cancels)
    }

    constructor (cancels: bool)
      ensures this.cancels == cancels && View() == FRESH && Ready()
    {
      this.cancels := cancels;
      running, server, clients, authClients, timers := false, 0, map[], {}, 0;
    }

    method OnLogin(ip: Option<string>)
      requires Ready()
      modifies this
      ensures Ready() && View() == Step(old(View()), Login(ip), cancels)
    {
      if ip.Some? && ip.value != "" { authClients := authClients + {ip.value}; }
      InvStep(old(View()), Login(ip), cancels);
    }

    method OnUpgrade(id: nat, address: Option<string>)
      requires Ready() && id !in clients
      modifies this
      ensures Ready() && View() == Step(old(View()), Upgrade(id, address), cancels)
    {
      if address.Some? && address.value != "" { authClients := authClients + {address.value}; }
      if running { clients := clients[id := Client(address, server)]; }
      InvStep(old(View()), Upgrade(id, address), cancels);
    }

    /** The number of clients of the current server. */
    method ClientCount() returns (n: nat)
      ensures n == |set c | c in clients && clients[c].server == server|
    {
      n := |set c | c in clients && clients[c].server == server|;
    }

    method OnClose(id: nat)
      requires Ready() && id in clients
      modifies this
      ensures Ready() && View() == Step(old(View()), Close(id), cancels)
    {
      clients := clients - {id};
      var n := ClientCount();
      CountIsDeserted(View());
      if running && n == 0 {
        if cancels { timers := 0; }
        timers := timers + 1;
      }
      InvStep(old(View()), Close(id), cancels);
    }

    method OnTimer()
      requires Ready() && timers > 0
      modifies this
      ensures Ready() && View() == Step(old(View()), Fire, cancels)
    {
      CountIsDeserted(View());
      timers := timers - 1;
      var n := ClientCount();
      if running && n == 0 { authClients := {}; }
      InvStep(old(View()), Fire, cancels);
    }

    /** The end of `stop`: every client has been told to close, and whoever is still there is no longer counted. */
    method OnStopped()
      requires Ready() && running
      modifies this
      ensures Ready() && View() == Step(old(View()), Stop, cancels)
    {
      running := false;
    }

    method OnStart()
      requires Ready() && !running
      modifies this
      ensures Ready() && View() == Step(old(View()), Start, cancels)
    {
      running, server := true, server + 1;
      InvStep(old(View()), Start, cancels);
    }

    /** `destroy` of the frontend cancels its timer; the backend has none to cancel. */
    method OnDestroy()
      requires Ready()
      modifies this
      ensures Ready() && View() == Step(old(View()), Destroy, cancels)
    {
      if cancels { timers := 0; }
      InvStep(old(View()), Destroy, cancels);
    }
  }

  lemma CountIsDeserted(s: State)
    ensures Deserted(s) <==> s.running && |set c | c in s.clients && s.clients[c].server == s.server| == 0
  {
    var mine := set c | c in s.clients && s.clients[c].server == s.server;
    assert |mine| == 0 <==> mine == {};
    if Deserted(s) { assert mine == {}; }
    if mine == {} {
      forall c | c in s.clients ensures s.clients[c].server != s.server { assert c !in mine; }
    }
  }
}
