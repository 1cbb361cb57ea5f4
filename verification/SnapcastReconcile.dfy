/**
 The group reconciler (src/audio/snapcast_router.rs, `reconcile`). One pass reads the server's
 status once and then issues calls against a server whose groups change under that snapshot.
 */
module SnapcastReconcile {
  import opened Wrappers
  import opened SnapcastControl

  /** The stream a zone's group should play, and the clients that should be in it. */
  datatype ZoneRouting = ZoneRouting(stream: StreamId, clients: seq<ClientId>)

  /** The entry's clients that `connected` contains, in the entry's order. */
  function PresentIn(clients: seq<ClientId>, connected: set<ClientId>): (r: seq<ClientId>)
    ensures forall c :: c in r <==> c in clients && c in connected
  {
    if clients == [] then []
    else if clients[0] in connected then [clients[0]] + PresentIn(clients[1..], connected)
    else PresentIn(clients[1..], connected)
  }

  function Present(e: ZoneRouting, connected: set<ClientId>): set<ClientId> {
    set c | c in e.clients && c in connected
  }

  /** The group, in the snapshot, of the entry's first present client. */
  ghost predicate Addresses(snapshot: Server, e: ZoneRouting, g: GroupId) {
    var present := PresentIn(e.clients, snapshot.connected);
    present != [] && InGroup(snapshot, g, present[0])
  }

  /** Client `i` of the entry is connected, and none listed before it is. */
  predicate IsFirstPresent(e: ZoneRouting, connected: set<ClientId>, i: int) {
    0 <= i < |e.clients| && e.clients[i] in connected && forall j :: 0 <= j < i ==> e.clients[j] !in connected
  }

  lemma {:induction false} FirstPresentIsFirst(clients: seq<ClientId>, connected: set<ClientId>, i: nat)
    requires i < |clients| && clients[i] in connected && forall j :: 0 <= j < i ==> clients[j] !in connected
    ensures PresentIn(clients, connected) != [] && PresentIn(clients, connected)[0] == clients[i]
    decreases i
  {
    if i > 0 {
      assert clients[0] !in connected;
      FirstPresentIsFirst(clients[1..], connected, i - 1);
    }
  }

  lemma {:induction false} SomeFirstPresent(clients: seq<ClientId>, connected: set<ClientId>) returns (i: nat)
    requires PresentIn(clients, connected) != []
    ensures i < |clients| && clients[i] in connected && forall j :: 0 <= j < i ==> clients[j] !in connected
  {
    i := 0;
    if clients[0] !in connected {
      i := SomeFirstPresent(clients[1..], connected);
      i := i + 1;
      forall j | 0 <= j < i ensures clients[j] !in connected {
        assert j > 0 ==> clients[j] == clients[1..][j - 1];
      }
    }
  }

  /** The group addressed is that of the first listed client that is connected. */
  lemma {:induction false} AddressesFirstPresent(snapshot: Server, e: ZoneRouting, g: GroupId)
    ensures Addresses(snapshot, e, g) <==>
            exists i :: IsFirstPresent(e, snapshot.connected, i) && InGroup(snapshot, g, e.clients[i])
  {
    if Addresses(snapshot, e, g) {
      var i := SomeFirstPresent(e.clients, snapshot.connected);
      FirstPresentIsFirst(e.clients, snapshot.connected, i);
      assert IsFirstPresent(e, snapshot.connected, i);
    }
    if i :| IsFirstPresent(e, snapshot.connected, i) && InGroup(snapshot, g, e.clients[i]) {
      FirstPresentIsFirst(e.clients, snapshot.connected, i);
    }
  }

  /** The two calls issued for one entry: `SetClients` followed by `SetStream`. */
  ghost predicate EntryStep(snapshot: Server, e: ZoneRouting, s: Server, s': Server) {
    var clients := Present(e, snapshot.connected);
    if clients == {} then s' == s
    else
      exists g, m :: Addresses(snapshot, e, g) && g in s.groups
                     && ClientsSet(s, g, clients, m) && g in m.groups && s' == WithStream(m, g, e.stream)
  }

  /** `e` addresses a group that no longer exists: the call fails and the pass ends. */
  ghost predicate EntryFails(snapshot: Server, e: ZoneRouting, s: Server) {
    exists g :: Addresses(snapshot, e, g) && g !in s.groups
  }

  /**
   A pass over `es` that starts in `states[0]`, the state its snapshot shows, and goes through
   `states`. It either handles every entry (`ok`) or stops at the first failing call.
   */
  ghost predicate IsPass(es: seq<ZoneRouting>, states: seq<Server>, ok: bool) {
    && 1 <= |states| <= |es| + 1
    && (forall i :: 0 <= i < |states| - 1 ==> EntryStep(states[0], es[i], states[i], states[i + 1]))
    && (ok <==> |states| == |es| + 1)
    && (!ok ==> EntryFails(states[0], es[|states| - 1], states[|states| - 1]))
  }

  /** The first of the two calls for an entry. */
  ghost predicate HalfStep(snapshot: Server, e: ZoneRouting, s: Server, s': Server) {
    var clients := Present(e, snapshot.connected);
    clients != {} && exists g :: Addresses(snapshot, e, g) && g in s.groups && ClientsSet(s, g, clients, s')
  }

  /**
   A pass that breaks off because the connection does: between two entries, or between the two calls for one, or
   after them when only the reply is lost.
   */
  ghost predicate IsCutPass(es: seq<ZoneRouting>, states: seq<Server>, last: Server) {
    && 1 <= |states| <= |es| + 1
    && (forall i :: 0 <= i < |states| - 1 ==> EntryStep(states[0], es[i], states[i], states[i + 1]))
    && (last == states[|states| - 1]
        || (|states| <= |es| && BreaksOff(states[0], es[|states| - 1], states[|states| - 1], last)))
  }

  ghost predicate BreaksOff(snapshot: Server, e: ZoneRouting, s: Server, s': Server) {
    HalfStep(snapshot, e, s, s') || EntryStep(snapshot, e, s, s')
  }

  /**
   What a pass with this outcome leaves: it went through, a group was gone, the connection broke, or the status made
   no sense and nothing was called.
   */
  ghost predicate PassGives(es: seq<ZoneRouting>, states: seq<Server>, r: Result<(), ControlError>, last: Server) {
    match r
    case Err(Unanswered) => IsCutPass(es, states, last)
    case Err(Malformed) => states == [last]
    case _ => IsPass(es, states, r.Ok?) && last == states[|states| - 1]
  }

  /** What the calls for one entry leave. */
  ghost predicate EntryGives(snapshot: Server, e: ZoneRouting, s: Server, r: Result<(), ControlError>, s': Server) {
    match r
    case Ok(_) => EntryStep(snapshot, e, s, s')
    case Err(Refused) => s' == s && EntryFails(snapshot, e, s)
    case Err(Unanswered) => s' == s || BreaksOff(snapshot, e, s, s')
    case Err(Malformed) => false
  }

  /** The first entries have been handled, and the server is in the last of `states`. */
  ghost predicate PassSoFar(es: seq<ZoneRouting>, states: seq<Server>) {
    && 1 <= |states| <= |es| + 1
    && forall i :: 0 <= i < |states| - 1 ==> EntryStep(states[0], es[i], states[i], states[i + 1])
  }

  lemma {:induction false} PassGoesOn(es: seq<ZoneRouting>, states: seq<Server>, s: Server)
    requires PassSoFar(es, states) && |states| <= |es|
    requires EntryStep(states[0], es[|states| - 1], states[|states| - 1], s)
    ensures PassSoFar(es, states + [s])
  {
  }

  lemma {:induction false} PassEnds(es: seq<ZoneRouting>, states: seq<Server>, r: Result<(), ControlError>,
                                    last: Server)
    requires PassSoFar(es, states) && |states| <= |es| && r.Err?
    requires EntryGives(states[0], es[|states| - 1], states[|states| - 1], r, last)
    ensures PassGives(es, states, r, last)
  {
  }

  /** A pass asks at most once for the status and twice for each entry; over a dead connection it does nothing. */
  method Reconcile(server: Snapserver, es: seq<ZoneRouting>)
    returns (r: Result<(), ControlError>, ghost states: seq<Server>)
    requires server.Valid()
    modifies server
    ensures server.Valid()
    ensures states != [] && states[0] == old(server.state) && PassGives(es, states, r, server.state)
    ensures |old(server.replies)| > 2 * |es| ==> r != Err(Unanswered)
    ensures r == Err(Malformed) <==> old(server.replies) != [] && old(server.replies)[0].Garbled?
    ensures old(server.replies) == [] ==>
              r == Err(Unanswered) && server.replies == [] && server.state == old(server.state)
  {
    ghost var snapshot := server.state;
    states := [snapshot];
    var asked := server.GetStatus();
    if asked.Err? {
      return Err(asked.error), states;
    }
    var status := asked.value;
    for i := 0 to |es|
      invariant SameClients(snapshot, server.state)
      invariant |states| == i + 1 && states[0] == snapshot && states[i] == server.state && PassSoFar(es, states)
      invariant |server.replies| + 2 * i + 1 >= |old(server.replies)| > 0 && old(server.replies)[0].Proper?
    {
      r := ReconcileEntry(server, status, es[i], snapshot);
      if r.Err? {
        PassEnds(es, states, r, server.state);
        return;
      }
      PassGoesOn(es, states, server.state);
      states := states + [server.state];
    }
    r := Ok(());
  }

  /** `s` is a valid server with the clients and connections of `snapshot`. */
  ghost predicate SameClients(snapshot: Server, s: Server) {
    && ValidServer(snapshot) && ValidServer(s)
    && s.connected == snapshot.connected
    && forall c :: Known(s, c) <==> Known(snapshot, c)
  }

  lemma {:induction false} HalfDone(snapshot: Server, e: ZoneRouting, g: GroupId, s: Server, m: Server)
    requires SameClients(snapshot, s) && Addresses(snapshot, e, g) && g in s.groups
    requires ClientsSet(s, g, Present(e, snapshot.connected), m) && Present(e, snapshot.connected) != {}
    ensures HalfStep(snapshot, e, s, m) && SameClients(snapshot, m) && g in m.groups
  {
    ClientsSetKeeps(s, g, Present(e, snapshot.connected), m);
  }

  lemma {:induction false} WholeDone(snapshot: Server, e: ZoneRouting, g: GroupId, s: Server, m: Server)
    requires SameClients(snapshot, s) && Addresses(snapshot, e, g) && g in s.groups
    requires ClientsSet(s, g, Present(e, snapshot.connected), m) && Present(e, snapshot.connected) != {}
    ensures g in m.groups && SameClients(snapshot, m)
    ensures EntryStep(snapshot, e, s, WithStream(m, g, e.stream)) && SameClients(snapshot, WithStream(m, g, e.stream))
  {
    HalfDone(snapshot, e, g, s, m);
    RebindKeepsValid(m, g, e.stream);
  }

  /** The body of the loop: one entry, handled from the snapshot. */
  method ReconcileEntry(server: Snapserver, status: ServerStatus, e: ZoneRouting, ghost snapshot: Server)
    returns (r: Result<(), ControlError>)
    requires Describes(status, snapshot) && SameClients(snapshot, server.state)
    modifies server
    ensures SameClients(snapshot, server.state) && EntryGives(snapshot, e, old(server.state), r, server.state)
    ensures r == Err(Unanswered) ==> |old(server.replies)| < 2
    ensures |server.replies| + 2 >= |old(server.replies)|
  {
    var connected := set c | c in status.connected;
    assert connected == snapshot.connected;
    var present := PresentIn(e.clients, connected);
    assert Present(e, snapshot.connected) == set c | c in present;
    if present == [] {
      return Ok(());
    }
    GroupOfFindsTheGroup(status, snapshot, present[0]);
    assert present[0] in Present(e, snapshot.connected);
    var group := status.GroupOf(present[0]);
    if group.None? {
      return Ok(());
    }
    assert Addresses(snapshot, e, group.value);
    r := CallsFor(server, group.value, present, e, snapshot);
  }

  /** The two calls: the second only when the first succeeded. */
  method CallsFor(server: Snapserver, g: GroupId, present: seq<ClientId>, e: ZoneRouting, ghost snapshot: Server)
    returns (r: Result<(), ControlError>)
    requires SameClients(snapshot, server.state) && Addresses(snapshot, e, g)
    requires present != [] && (set c | c in present) == Present(e, snapshot.connected)
    modifies server
    ensures SameClients(snapshot, server.state) && EntryGives(snapshot, e, old(server.state), r, server.state)
    ensures r == Err(Unanswered) ==> |old(server.replies)| < 2
    ensures |server.replies| + 2 >= |old(server.replies)|
  {
    ghost var before, clients := server.state, Present(e, snapshot.connected);
    assert present[0] in clients;
    assert forall c :: c in clients ==> Known(before, c);
    r := server.SetGroupClients(g, present);
    ghost var mid := server.state;
    if mid != before {
      HalfDone(snapshot, e, g, before, mid);
    }
    if r.Err? {
      return;
    }
    WholeDone(snapshot, e, g, before, mid);
    r := server.SetGroupStream(g, e.stream);
    HalfDone(snapshot, e, g, before, mid);
  }
}
