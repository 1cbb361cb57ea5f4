/**
 Passes of the reconciler that overlap (src/audio/snapcast_router.rs, `reconcile_now`): no lock is held across a
 pass, and the listener thread starts one whenever the server reports a change, so the calls of several passes
 interleave. Each call is made for what its own pass read of the server at some earlier moment.
 */
module SnapcastOverlap {
  import opened Wrappers
  import opened SnapcastControl
  import opened SnapcastReconcile
  import opened SnapcastConvergence

  /** One of the two calls for an entry, by a pass that read the server's status in state number `read`. */
  datatype Call = Call(read: nat, entry: ZoneRouting, second: bool)

  /** The group the call addresses is gone. */
  ghost predicate Refused(snapshot: Server, call: Call, s: Server) { EntryFails(snapshot, call.entry, s) }

  /** What the call makes of `s`: nothing when it is refused, or not made for lack of present clients. */
  ghost predicate Makes(snapshot: Server, call: Call, s: Server, s': Server) {
    var clients := Present(call.entry, snapshot.connected);
    if clients == {} then s' == s
    else exists g :: Addresses(snapshot, call.entry, g) && MakesAt(call, clients, g, s, s')
  }

  ghost predicate MakesAt(call: Call, clients: set<ClientId>, g: GroupId, s: Server, s': Server) {
    if g !in s.groups then s' == s
    else if call.second then s' == WithStream(s, g, call.entry.stream)
    else ClientsSet(s, g, clients, s')
  }

  /** The states the server goes through; every interleaving of the calls of any passes is such a sequence. */
  ghost predicate IsOverlap(calls: seq<Call>, states: seq<Server>) {
    && |states| == |calls| + 1 && ValidServer(states[0])
    && forall n :: 0 <= n < |calls| ==>
         calls[n].read <= n && Makes(states[calls[n].read], calls[n], states[n], states[n + 1])
  }

  lemma {:induction false} MadeAt(snapshot: Server, call: Call, g: GroupId, s: Server, s': Server)
    requires Present(call.entry, snapshot.connected) != {} && Addresses(snapshot, call.entry, g)
    requires MakesAt(call, Present(call.entry, snapshot.connected), g, s, s')
    ensures Makes(snapshot, call, s, s')
  {
  }

  /** A pass of its own makes both calls for each entry. */
  lemma {:induction false} EntryIsTwoCalls(snapshot: Server, read: nat, e: ZoneRouting, s: Server, s': Server)
    returns (mid: Server)
    requires EntryStep(snapshot, e, s, s')
    ensures Makes(snapshot, Call(read, e, false), s, mid) && Makes(snapshot, Call(read, e, true), mid, s')
  {
    var clients := Present(e, snapshot.connected);
    if clients == {} {
      mid := s;
    } else {
      var g, m :| Addresses(snapshot, e, g) && g in s.groups
                  && ClientsSet(s, g, clients, m) && g in m.groups && s' == WithStream(m, g, e.stream);
      mid := m;
      MadeAt(snapshot, Call(read, e, false), g, s, mid);
      MadeAt(snapshot, Call(read, e, true), g, mid, s');
    }
  }

  // ----- The server stays valid -------------------------------------------------------------------

  lemma {:induction false} CallKeepsClients(snapshot: Server, call: Call, s: Server, s': Server)
    requires SameClients(snapshot, s) && Makes(snapshot, call, s, s')
    ensures SameClients(snapshot, s')
  {
    var clients := Present(call.entry, snapshot.connected);
    if clients != {} {
      var g :| Addresses(snapshot, call.entry, g) && MakesAt(call, clients, g, s, s');
      if g in s.groups {
        if call.second {
          RebindKeepsValid(s, g, call.entry.stream);
        } else {
          assert forall c :: c in clients ==> c in snapshot.connected;
          ClientsSetKeeps(s, g, clients, s');
        }
      }
    }
  }

  lemma {:induction false} SameClientsThrough(a: Server, b: Server, c: Server)
    requires SameClients(a, b) && SameClients(a, c)
    ensures SameClients(b, c)
  {
  }

  /** However the calls of any passes interleave, the server stays valid, with the same clients. */
  lemma {:induction false} OverlapKeepsClients(calls: seq<Call>, states: seq<Server>, n: nat)
    requires IsOverlap(calls, states) && n <= |calls|
    ensures SameClients(states[0], states[n])
  {
    if n == 0 {
    } else {
      OverlapKeepsClients(calls, states, n - 1);
      var call := calls[n - 1];
      assert Makes(states[call.read], call, states[n - 1], states[n]);
      OverlapKeepsClients(calls, states, call.read);
      SameClientsThrough(states[0], states[call.read], states[n - 1]);
      CallKeepsClients(states[call.read], call, states[n - 1], states[n]);
      SameClientsBack(states[0], states[call.read], states[n]);
    }
  }

  lemma {:induction false} SameClientsBack(a: Server, b: Server, c: Server)
    requires SameClients(a, b) && SameClients(b, c)
    ensures SameClients(a, c)
  {
  }

  /** Whatever an overlap left, two passes run alone afterwards settle every zone. */
  lemma {:induction false} OverlapIsMadeGood(calls: seq<Call>, states: seq<Server>, es: seq<ZoneRouting>,
                                             first: seq<Server>, ok: bool, second: seq<Server>, ok': bool)
    requires IsOverlap(calls, states) && Disjoint(es, states[0].connected)
    requires IsPass(es, first, ok) && first[0] == states[|calls|]
    requires IsPass(es, second, ok') && second[0] == first[|first| - 1]
    ensures ok && ok' && AllSettled(second[|es|], es) && SameClients(states[0], second[|es|])
  {
    OverlapKeepsClients(calls, states, |calls|);
    TwoPassesSettle(es, first, ok, es, second, ok');
  }

  // ----- Refused calls ----------------------------------------------------------------------------

  /** A call makes a group vanish exactly when it addresses another and takes all of its clients. */
  lemma {:induction false} VanishesExactly(s: Server, g: GroupId, clients: set<ClientId>, s': Server, h: GroupId)
    requires g in s.groups && ClientsSet(s, g, clients, s') && h in s.groups
    ensures h !in s'.groups <==> h != g && s.groups[h].clients <= clients
  {
  }

  /** Where entry `e` of passes that all read `snapshot` will find its group. */
  ghost predicate Reachable(snapshot: Server, es: seq<ZoneRouting>, e: ZoneRouting, s: Server)
    requires ValidServer(snapshot) && Present(e, snapshot.connected) != {}
  {
    var g := Target(snapshot, e);
    && g in s.groups
    && (InGroup(s, g, PresentIn(e.clients, snapshot.connected)[0])
        || exists m :: 0 <= m < |es| && HoldsOf(snapshot, es[m], g, s))
  }

  /** Group `g` is the one the entry addresses, and holds just its clients. */
  ghost predicate HoldsOf(snapshot: Server, e: ZoneRouting, g: GroupId, s: Server)
    requires ValidServer(snapshot)
  {
    && Present(e, snapshot.connected) != {} && Target(snapshot, e) == g
    && g in s.groups && s.groups[g].clients == Present(e, snapshot.connected)
  }

  ghost predicate AllReachable(snapshot: Server, es: seq<ZoneRouting>, s: Server) {
    && SameClients(snapshot, s)
    && forall k :: 0 <= k < |es| && Present(es[k], snapshot.connected) != {} ==> Reachable(snapshot, es, es[k], s)
  }

  lemma {:induction false} ClientsKeepReachable(snapshot: Server, es: seq<ZoneRouting>, i: nat, k: nat, g: GroupId,
                                                s: Server, s': Server)
    requires i < |es| && k < |es| && Disjoint(es, snapshot.connected) && SameClients(snapshot, s)
    requires Present(es[i], snapshot.connected) != {} && Present(es[k], snapshot.connected) != {}
    requires g == Target(snapshot, es[i]) && g in s.groups
    requires ClientsSet(s, g, Present(es[i], snapshot.connected), s') && Reachable(snapshot, es, es[k], s)
    ensures Reachable(snapshot, es, es[k], s')
  {
    var mine, h := Present(es[i], snapshot.connected), Target(snapshot, es[k]);
    var added :| FreshGroups(s, g, mine, added) && s' == Regrouped(s, g, mine, added);
    if h == g {
      assert HoldsOf(snapshot, es[i], g, s');
    } else if InGroup(s, h, PresentIn(es[k].clients, snapshot.connected)[0]) {
      FirstStays(snapshot, es, i, k, g, added, s);
    } else {
      OtherStays(snapshot, es, i, k, g, added, s);
    }
  }

  lemma {:induction false} OtherStays(snapshot: Server, es: seq<ZoneRouting>, i: nat, k: nat, g: GroupId,
                                      added: map<GroupId, Evicted>, s: Server)
    requires i < |es| && k < |es| && Disjoint(es, snapshot.connected) && ValidServer(snapshot) && g in s.groups
    requires Present(es[i], snapshot.connected) != {} && Present(es[k], snapshot.connected) != {}
    requires Target(snapshot, es[i]) == g != Target(snapshot, es[k])
    requires FreshGroups(s, g, Present(es[i], snapshot.connected), added)
    requires exists m :: 0 <= m < |es| && HoldsOf(snapshot, es[m], Target(snapshot, es[k]), s)
    ensures Reachable(snapshot, es, es[k], Regrouped(s, g, Present(es[i], snapshot.connected), added))
  {
    var m :| 0 <= m < |es| && HoldsOf(snapshot, es[m], Target(snapshot, es[k]), s);
    OtherHeldStays(snapshot, es, i, m, g, added, Target(snapshot, es[k]), s);
  }

  lemma {:induction false} FirstStays(snapshot: Server, es: seq<ZoneRouting>, i: nat, k: nat, g: GroupId,
                                      added: map<GroupId, Evicted>, s: Server)
    requires i < |es| && k < |es| && Disjoint(es, snapshot.connected) && ValidServer(snapshot) && g in s.groups
    requires Present(es[i], snapshot.connected) != {} && Present(es[k], snapshot.connected) != {}
    requires Target(snapshot, es[i]) == g != Target(snapshot, es[k])
    requires FreshGroups(s, g, Present(es[i], snapshot.connected), added)
    requires InGroup(s, Target(snapshot, es[k]), PresentIn(es[k].clients, snapshot.connected)[0])
    ensures InGroup(Regrouped(s, g, Present(es[i], snapshot.connected), added), Target(snapshot, es[k]),
                    PresentIn(es[k].clients, snapshot.connected)[0])
  {
    var first := PresentIn(es[k].clients, snapshot.connected)[0];
    assert first in Present(es[k], snapshot.connected) && i != k;
    CallMoves(s, g, Present(es[i], snapshot.connected), added, Target(snapshot, es[k]), first);
  }

  lemma {:induction false} OtherHeldStays(snapshot: Server, es: seq<ZoneRouting>, i: nat, m: nat, g: GroupId,
                                          added: map<GroupId, Evicted>, h: GroupId, s: Server)
    requires i < |es| && m < |es| && Disjoint(es, snapshot.connected) && ValidServer(snapshot)
    requires h != g && g in s.groups
    requires Present(es[i], snapshot.connected) != {} && Target(snapshot, es[i]) == g
    requires FreshGroups(s, g, Present(es[i], snapshot.connected), added) && HoldsOf(snapshot, es[m], h, s)
    ensures HoldsOf(snapshot, es[m], h, Regrouped(s, g, Present(es[i], snapshot.connected), added))
  {
    assert m != i && Present(es[m], snapshot.connected) !! Present(es[i], snapshot.connected);
    OthersSurvive(s, es[i], Present(es[i], snapshot.connected), g, added, h);
  }

  lemma {:induction false} StreamKeepsReachable(snapshot: Server, es: seq<ZoneRouting>, k: nat, g: GroupId,
                                                stream: StreamId, s: Server)
    requires k < |es| && ValidServer(snapshot) && Present(es[k], snapshot.connected) != {} && g in s.groups
    requires Reachable(snapshot, es, es[k], s)
    ensures Reachable(snapshot, es, es[k], WithStream(s, g, stream))
  {
    var h, s' := Target(snapshot, es[k]), WithStream(s, g, stream);
    if m :| 0 <= m < |es| && HoldsOf(snapshot, es[m], h, s) {
      assert HoldsOf(snapshot, es[m], h, s');
    }
  }

  lemma {:induction false} CallKeepsReachable(snapshot: Server, es: seq<ZoneRouting>, call: Call, s: Server, s': Server)
    requires Disjoint(es, snapshot.connected) && AllReachable(snapshot, es, s)
    requires call.entry in es && Makes(snapshot, call, s, s')
    ensures AllReachable(snapshot, es, s')
  {
    CallKeepsClients(snapshot, call, s, s');
    var clients := Present(call.entry, snapshot.connected);
    if clients != {} {
      var i :| 0 <= i < |es| && es[i] == call.entry;
      var g :| Addresses(snapshot, call.entry, g) && MakesAt(call, clients, g, s, s');
      assert Reachable(snapshot, es, es[i], s);
      forall k | 0 <= k < |es| && Present(es[k], snapshot.connected) != {} ensures Reachable(snapshot, es, es[k], s') {
        if call.second {
          StreamKeepsReachable(snapshot, es, k, g, call.entry.stream, s);
        } else {
          ClientsKeepReachable(snapshot, es, i, k, g, s, s');
        }
      }
    }
  }

  lemma {:induction false} OneReadingReaches(calls: seq<Call>, states: seq<Server>, es: seq<ZoneRouting>, n: nat)
    requires IsOverlap(calls, states) && n <= |calls| && Disjoint(es, states[0].connected)
    requires forall m :: 0 <= m < |calls| ==> calls[m].read == 0 && calls[m].entry in es
    ensures AllReachable(states[0], es, states[n])
  {
    if n == 0 {
    } else {
      OneReadingReaches(calls, states, es, n - 1);
      assert Makes(states[0], calls[n - 1], states[n - 1], states[n]);
      CallKeepsReachable(states[0], es, calls[n - 1], states[n - 1], states[n]);
    }
  }

  /** Passes that all read the status before any of their calls are never refused one, in any interleaving. */
  lemma {:induction false} OneReadingIsNeverRefused(calls: seq<Call>, states: seq<Server>, es: seq<ZoneRouting>, n: nat)
    requires IsOverlap(calls, states) && n < |calls| && Disjoint(es, states[0].connected)
    requires forall m :: 0 <= m < |calls| ==> calls[m].read == 0 && calls[m].entry in es
    ensures !Refused(states[0], calls[n], states[n])
  {
    OneReadingReaches(calls, states, es, n);
    var e := calls[n].entry;
    var k :| 0 <= k < |es| && es[k] == e;
    PresentInIsPresent(e, states[0].connected);
    if Present(e, states[0].connected) != {} {
      assert Reachable(states[0], es, es[k], states[n]);
    }
  }

  /** A call that is refused was made after another had taken all clients of the group, for a group of their own. */
  lemma {:induction false} RefusedOnlyAfterTaking(calls: seq<Call>, states: seq<Server>, h: GroupId, r: nat, n: nat)
    returns (m: nat, g: GroupId)
    requires IsOverlap(calls, states) && r < n <= |calls| && h in states[r].groups && h !in states[n].groups
    ensures r <= m < n && !calls[m].second && Addresses(states[calls[m].read], calls[m].entry, g)
    ensures g != h && h in states[m].groups && h !in states[m + 1].groups
    ensures states[m].groups[h].clients <= Present(calls[m].entry, states[calls[m].read].connected)
  {
    if h in states[n - 1].groups {
      m := n - 1;
      var snapshot, call := states[calls[m].read], calls[m];
      assert Makes(snapshot, call, states[m], states[m + 1]);
      var clients := Present(call.entry, snapshot.connected);
      g :| Addresses(snapshot, call.entry, g) && MakesAt(call, clients, g, states[m], states[m + 1]);
      VanishesExactly(states[m], g, clients, states[m + 1], h);
    } else {
      m, g := RefusedOnlyAfterTaking(calls, states, h, r, n - 1);
    }
  }

  // ----- A refused call ---------------------------------------------------------------------------

  /** Two zones: the first client of PAIR shares a group with LONE's, and its second is alone. */
  const PAIR := ZoneRouting(0, [Id(0), Id(1)])
  const LONE := ZoneRouting(1, [Id(2)])
  const ALL := {Id(0), Id(1), Id(2)}

  function Groups(groups: map<GroupId, Group>): (s: Server) { Server(groups, ALL) }

  const START := Groups(map[GroupId(0) := Group({Id(0), Id(2)}, 9), GroupId(1) := Group({Id(1)}, 9)])
  /** LONE has the common group, and PAIR's first client was evicted. */
  const EVICTED := Groups(
    map[GroupId(0) := Group({Id(2)}, 9), GroupId(1) := Group({Id(1)}, 9), GroupId(2) := Group({Id(0)}, 9)])
  const BOUND := Groups(
    map[GroupId(0) := Group({Id(2)}, 1), GroupId(1) := Group({Id(1)}, 9), GroupId(2) := Group({Id(0)}, 9)])
  /** A second pass has read that, and gathered PAIR where its first client is now. */
  const GATHERED := Groups(map[GroupId(0) := Group({Id(2)}, 1), GroupId(2) := Group({Id(0), Id(1)}, 9)])
  /** The first pass gathers PAIR in the common group, of which it read in the beginning. */
  const TAKEN := Groups(map[GroupId(0) := Group({Id(0), Id(1)}, 1), GroupId(3) := Group({Id(2)}, 1)])

  lemma {:induction false} PresentInAll()
    ensures Present(PAIR, ALL) == {Id(0), Id(1)} && Present(LONE, ALL) == {Id(2)}
    ensures PresentIn(PAIR.clients, ALL) != [] && PresentIn(PAIR.clients, ALL)[0] == Id(0)
    ensures PresentIn(LONE.clients, ALL) != [] && PresentIn(LONE.clients, ALL)[0] == Id(2)
  {
    assert PAIR.clients[0] == Id(0) && PAIR.clients[1] == Id(1) && LONE.clients[0] == Id(2);
  }

  /** What a call leaves, group by group. */
  lemma {:induction false} Regroups(s: Server, g: GroupId, clients: set<ClientId>, added: map<GroupId, Evicted>,
                                    s': Server)
    requires g in s.groups && FreshGroups(s, g, clients, added) && s'.connected == s.connected
    requires forall h :: h in s'.groups <==>
                         h in added || h == g || (h in s.groups && !(s.groups[h].clients <= clients))
    requires s'.groups[g] == Group(clients, s.groups[g].stream)
    requires forall h :: h in added ==> s'.groups[h] == Group({added[h].client}, added[h].stream)
    requires forall h :: h in s.groups && h != g && h in s'.groups ==>
               s'.groups[h] == Group(s.groups[h].clients - clients, s.groups[h].stream)
    ensures ClientsSet(s, g, clients, s')
  {
    assert s'.groups == Regrouped(s, g, clients, added).groups;
  }

  lemma {:induction false} FirstEvicts(lone: ZoneRouting, s: Server, s': Server)
    requires lone == LONE && s == START && s' == EVICTED
    ensures Makes(s, Call(0, lone, false), s, s')
  {
    PresentInAll();
    var added := map[GroupId(2) := Evicted(Id(0), 9)];
    assert added[GroupId(2)].client == Id(0);
    assert Id(1) in s.groups[GroupId(1)].clients && {Id(1)} - {Id(2)} == {Id(1)};
    Regroups(s, GroupId(0), {Id(2)}, added, s');
    MadeAt(s, Call(0, lone, false), GroupId(0), s, s');
  }

  lemma {:induction false} FirstBinds(lone: ZoneRouting, snapshot: Server, s: Server, s': Server)
    requires lone == LONE && snapshot == START && s == EVICTED && s' == BOUND
    ensures Makes(snapshot, Call(0, lone, true), s, s')
  {
    PresentInAll();
    MadeAt(snapshot, Call(0, lone, true), GroupId(0), s, s');
  }

  lemma {:induction false} SecondGathers(pair: ZoneRouting, s: Server, s': Server)
    requires pair == PAIR && s == BOUND && s' == GATHERED
    ensures Makes(s, Call(2, pair, false), s, s')
  {
    PresentInAll();
    assert Id(2) in s.groups[GroupId(0)].clients && {Id(2)} - {Id(0), Id(1)} == {Id(2)};
    Regroups(s, GroupId(2), {Id(0), Id(1)}, map[], s');
    MadeAt(s, Call(2, pair, false), GroupId(2), s, s');
  }

  lemma {:induction false} TakesFresh(s: Server)
    requires s == GATHERED
    ensures FreshGroups(s, GroupId(0), {Id(0), Id(1)}, map[GroupId(3) := Evicted(Id(2), 1)])
  {
    var added := map[GroupId(3) := Evicted(Id(2), 1)];
    assert EvictedFrom(s, GroupId(0), {Id(0), Id(1)}) == {Id(2)} && added[GroupId(3)].client == Id(2);
  }

  lemma {:induction false} TakesPair(s: Server, s': Server)
    requires s == GATHERED && s' == TAKEN
    ensures ClientsSet(s, GroupId(0), {Id(0), Id(1)}, s')
  {
    TakesFresh(s);
    Regroups(s, GroupId(0), {Id(0), Id(1)}, map[GroupId(3) := Evicted(Id(2), 1)], s');
  }

  lemma {:induction false} FirstTakes(pair: ZoneRouting, snapshot: Server, s: Server, s': Server)
    requires pair == PAIR && snapshot == START && s == GATHERED && s' == TAKEN
    ensures Makes(snapshot, Call(0, pair, false), s, s')
  {
    PresentInAll();
    TakesPair(s, s');
    MadeAt(snapshot, Call(0, pair, false), GroupId(0), s, s');
  }

  lemma {:induction false} SecondIsRefused(pair: ZoneRouting, snapshot: Server, s: Server)
    requires pair == PAIR && snapshot == BOUND && s == TAKEN
    ensures Refused(snapshot, Call(2, pair, true), s) && Makes(snapshot, Call(2, pair, true), s, s)
  {
    PresentInAll();
    assert Addresses(snapshot, pair, GroupId(2)) && GroupId(2) !in s.groups;
    MadeAt(snapshot, Call(2, pair, true), GroupId(2), s, s);
  }

  lemma {:induction false} StartIsValid()
    ensures ValidServer(START) && Disjoint([LONE, PAIR], START.connected)
  {
    PresentInAll();
    assert InGroup(START, GroupId(0), Id(0)) && InGroup(START, GroupId(1), Id(1)) && InGroup(START, GroupId(0), Id(2));
  }

  /** The first pass makes both calls for its first entry; a second joins; the first takes its second entry. */
  function JoinedCalls(lone: ZoneRouting, pair: ZoneRouting): (calls: seq<Call>) {
    [Call(0, lone, false), Call(0, lone, true), Call(2, pair, false), Call(0, pair, false)]
  }

  lemma {:induction false} PassesJoin(lone: ZoneRouting, pair: ZoneRouting, calls: seq<Call>, s: seq<Server>)
    requires calls == JoinedCalls(lone, pair) && |s| == 5 && ValidServer(s[0])
    requires Makes(s[0], calls[0], s[0], s[1]) && Makes(s[0], calls[1], s[1], s[2])
    requires Makes(s[2], calls[2], s[2], s[3]) && Makes(s[0], calls[3], s[3], s[4])
    ensures IsOverlap(calls, s)
  {
    forall n | 0 <= n < 4 ensures calls[n].read <= n && Makes(s[calls[n].read], calls[n], s[n], s[n + 1]) {
      assert n == 0 || n == 1 || n == 2 || n == 3;
    }
  }

  /**
   A second pass that starts between the entries of a first one can have its call refused, although no client is
   wanted twice: the group it read of is emptied by the first pass, which read of another.
   */
  lemma {:induction false} OverlappedCallIsRefused(lone: ZoneRouting, pair: ZoneRouting, states: seq<Server>)
    requires lone == LONE && pair == PAIR && states == [START, EVICTED, BOUND, GATHERED, TAKEN]
    ensures Disjoint([LONE, PAIR], START.connected)
    ensures IsOverlap(JoinedCalls(lone, pair), states) && Refused(states[2], Call(2, pair, true), states[4])
  {
    StartIsValid();
    FirstEvicts(lone, states[0], states[1]);
    FirstBinds(lone, states[0], states[1], states[2]);
    SecondGathers(pair, states[2], states[3]);
    FirstTakes(pair, states[0], states[3], states[4]);
    SecondIsRefused(pair, states[2], states[4]);
    PassesJoin(lone, pair, JoinedCalls(lone, pair), states);
  }
}
