/**
 What passes of the reconciler achieve (src/audio/snapcast_router.rs, `reconcile`): two passes
 settle every zone exactly when no client is wanted by two zones, and a settled server is a
 fixpoint. Every statement is about all passes the assumed server allows.
 */
module SnapcastConvergence {
  import opened Wrappers
  import opened SnapcastControl
  import opened SnapcastReconcile

  /** No connected client is wanted by two entries. */
  ghost predicate Disjoint(es: seq<ZoneRouting>, connected: set<ClientId>) {
    forall i, j :: 0 <= i < j < |es| ==> Present(es[i], connected) !! Present(es[j], connected)
  }

  /** The entry's present clients, if any, form exactly one group, bound to the entry's stream. */
  ghost predicate Settled(s: Server, e: ZoneRouting) {
    var clients := Present(e, s.connected);
    clients != {} ==> exists g :: g in s.groups && s.groups[g] == Group(clients, e.stream)
  }

  ghost predicate AllSettled(s: Server, es: seq<ZoneRouting>) {
    forall i :: 0 <= i < |es| ==> Settled(s, es[i])
  }

  /** Every group with a client of `clients` is a group of that client alone. */
  ghost predicate Scattered(s: Server, clients: set<ClientId>) {
    forall g, c :: InGroup(s, g, c) && c in clients ==> s.groups[g].clients == {c}
  }

  /** The entry's clients are either settled already or scattered. */
  ghost predicate HalfSettled(s: Server, e: ZoneRouting) {
    Settled(s, e) || Scattered(s, Present(e, s.connected))
  }

  /** No group holds a client of `clients` together with a client outside it. */
  ghost predicate Isolated(s: Server, clients: set<ClientId>) {
    forall g, c :: InGroup(s, g, c) && c in clients ==> s.groups[g].clients <= clients
  }

  /** The group that contains the entry's first present client. */
  ghost function Target(s: Server, e: ZoneRouting): (g: GroupId)
    requires ValidServer(s) && Present(e, s.connected) != {}
    ensures Addresses(s, e, g) && forall h :: Addresses(s, e, h) ==> h == g
  {
    var c :| c in Present(e, s.connected);
    var present := PresentIn(e.clients, s.connected);
    assert c in present;
    assert Known(s, present[0]);
    var g :| InGroup(s, g, present[0]);
    g
  }

  /** The effect of the calls for one entry with present clients, spelled out. */
  lemma {:induction false} EntryEffect(snapshot: Server, e: ZoneRouting, s: Server, s': Server)
    returns (g: GroupId, added: map<GroupId, Evicted>)
    requires SameClients(snapshot, s) && EntryStep(snapshot, e, s, s')
    requires Present(e, snapshot.connected) != {}
    ensures g == Target(snapshot, e) && g in s.groups
    ensures FreshGroups(s, g, Present(e, snapshot.connected), added)
    ensures s' == WithStream(Regrouped(s, g, Present(e, snapshot.connected), added), g, e.stream)
    ensures SameClients(snapshot, s')
  {
    var clients := Present(e, snapshot.connected);
    var m;
    g, m :| Addresses(snapshot, e, g) && g in s.groups
            && ClientsSet(s, g, clients, m) && g in m.groups && s' == WithStream(m, g, e.stream);
    added :| FreshGroups(s, g, clients, added) && m == Regrouped(s, g, clients, added);
    assert forall c :: c in clients ==> c in snapshot.connected;
    CallKeepsValid(s, g, clients, added);
    RebindKeepsValid(m, g, e.stream);
  }

  /** Groups with no client of the entry are left alone, apart from the addressed one. */
  lemma {:induction false} OthersSurvive(s: Server, e: ZoneRouting, clients: set<ClientId>, g: GroupId,
                                         added: map<GroupId, Evicted>, h: GroupId)
    requires g in s.groups && FreshGroups(s, g, clients, added)
    requires h in s.groups && h != g && s.groups[h].clients !! clients && s.groups[h].clients != {}
    ensures var s' := WithStream(Regrouped(s, g, clients, added), g, e.stream);
            h in s'.groups && s'.groups[h] == s.groups[h]
  {
    assert s.groups[h].clients - clients == s.groups[h].clients;
  }

  /** Scattered clients the entry does not want stay scattered, and evicted ones become so. */
  lemma {:induction false} StaysScattered(s: Server, e: ZoneRouting, clients: set<ClientId>, g: GroupId,
                                          added: map<GroupId, Evicted>, others: set<ClientId>)
    requires ValidServer(s) && g in s.groups && FreshGroups(s, g, clients, added)
    requires clients !! others
    requires Scattered(s, others) || s.groups[g].clients == others
    ensures Scattered(WithStream(Regrouped(s, g, clients, added), g, e.stream), others)
  {
    var s' := WithStream(Regrouped(s, g, clients, added), g, e.stream);
    forall h, c | InGroup(s', h, c) && c in others ensures s'.groups[h].clients == {c} {
      CallMoves(s, g, clients, added, h, c);
      if h !in added {
        assert InGroup(s, h, c) && h != g;
        assert Scattered(s, others) by {
          if s.groups[g].clients == others {
            assert InGroup(s, g, c);
          }
        }
      }
    }
  }

  /** Some entry after `k` and before `i` addresses the same group as entry `k`. */
  ghost predicate Contested(snapshot: Server, es: seq<ZoneRouting>, k: int, i: int)
    requires ValidServer(snapshot) && 0 <= k < i <= |es| && Present(es[k], snapshot.connected) != {}
  {
    exists m :: k < m < i && Present(es[m], snapshot.connected) != {}
      && Target(snapshot, es[m]) == Target(snapshot, es[k])
  }

  /** What entry `k` has achieved once the first `i > k` entries are handled. */
  ghost predicate Achieved(snapshot: Server, es: seq<ZoneRouting>, k: int, i: int, s: Server)
    requires ValidServer(snapshot) && 0 <= k < i <= |es| && Present(es[k], snapshot.connected) != {}
  {
    var clients := Present(es[k], snapshot.connected);
    var g := Target(snapshot, es[k]);
    if Contested(snapshot, es, k, i) then Scattered(s, clients)
    else g in s.groups && s.groups[g] == Group(clients, es[k].stream)
  }

  /** The group entry `k` will address still exists, even if it now holds another zone's clients. */
  ghost predicate Alive(snapshot: Server, es: seq<ZoneRouting>, k: int, i: int, s: Server)
    requires ValidServer(snapshot) && 0 <= i <= k < |es| && Present(es[k], snapshot.connected) != {}
  {
    var g := Target(snapshot, es[k]);
    && g in s.groups
    && (InGroup(s, g, PresentIn(es[k].clients, snapshot.connected)[0])
        || exists m :: 0 <= m < i && s.groups[g].clients == Present(es[m], snapshot.connected))
  }

  ghost predicate Progress(snapshot: Server, es: seq<ZoneRouting>, i: int, s: Server)
    requires 0 <= i <= |es|
  {
    && SameClients(snapshot, s)
    && (forall k :: 0 <= k < i && Present(es[k], snapshot.connected) != {} ==> Achieved(snapshot, es, k, i, s))
    && (forall k :: i <= k < |es| && Present(es[k], snapshot.connected) != {} ==> Alive(snapshot, es, k, i, s))
  }

  /** An entry without present clients changes nothing. */
  lemma {:induction false} ProgressSkip(snapshot: Server, es: seq<ZoneRouting>, i: int, s: Server, s': Server)
    requires 0 <= i < |es| && Present(es[i], snapshot.connected) == {}
    requires Progress(snapshot, es, i, s) && EntryStep(snapshot, es[i], s, s')
    ensures Progress(snapshot, es, i + 1, s')
  {
    PresentInIsPresent(es[i], snapshot.connected);
    assert s' == s;
    forall k | 0 <= k <= i && Present(es[k], snapshot.connected) != {}
      ensures Achieved(snapshot, es, k, i + 1, s)
    {
      assert Achieved(snapshot, es, k, i, s);
      SkipDoesNotContest(snapshot, es, k, i);
    }
    forall k | i < k < |es| && Present(es[k], snapshot.connected) != {}
      ensures Alive(snapshot, es, k, i + 1, s)
    {
      assert Alive(snapshot, es, k, i, s);
    }
  }

  lemma {:induction false} SkipDoesNotContest(snapshot: Server, es: seq<ZoneRouting>, k: int, i: int)
    requires ValidServer(snapshot) && 0 <= k < i < |es| && Present(es[k], snapshot.connected) != {}
    requires Present(es[i], snapshot.connected) == {}
    ensures Contested(snapshot, es, k, i + 1) == Contested(snapshot, es, k, i)
  {
  }

  lemma {:induction false} ProgressStep(snapshot: Server, es: seq<ZoneRouting>, i: int, s: Server, s': Server)
    requires 0 <= i < |es| && Disjoint(es, snapshot.connected)
    requires Progress(snapshot, es, i, s) && EntryStep(snapshot, es[i], s, s')
    ensures Progress(snapshot, es, i + 1, s')
  {
    if Present(es[i], snapshot.connected) == {} {
      ProgressSkip(snapshot, es, i, s, s');
      return;
    }
    var g, added := EntryEffect(snapshot, es[i], s, s');
    forall k | 0 <= k <= i && Present(es[k], snapshot.connected) != {}
      ensures Achieved(snapshot, es, k, i + 1, s')
    {
      if k < i {
        assert Achieved(snapshot, es, k, i, s);
        AchievedStep(snapshot, es, k, i, s, s', g, added);
      }
    }
    forall k | i < k < |es| && Present(es[k], snapshot.connected) != {}
      ensures Alive(snapshot, es, k, i + 1, s')
    {
      assert Alive(snapshot, es, k, i, s);
      AliveStep(snapshot, es, k, i, s, s', g, added);
    }
  }

  lemma {:induction false} AchievedStep(snapshot: Server, es: seq<ZoneRouting>, k: int, i: int, s: Server, s': Server,
                     g: GroupId, added: map<GroupId, Evicted>)
    requires 0 <= k < i < |es| && Disjoint(es, snapshot.connected) && SameClients(snapshot, s)
    requires Present(es[k], snapshot.connected) != {} && Present(es[i], snapshot.connected) != {}
    requires g == Target(snapshot, es[i]) && g in s.groups
    requires FreshGroups(s, g, Present(es[i], snapshot.connected), added)
    requires s' == WithStream(Regrouped(s, g, Present(es[i], snapshot.connected), added), g, es[i].stream)
    requires Achieved(snapshot, es, k, i, s)
    ensures Achieved(snapshot, es, k, i + 1, s')
  {
    var mine, theirs := Present(es[i], snapshot.connected), Present(es[k], snapshot.connected);
    var h := Target(snapshot, es[k]);
    if Contested(snapshot, es, k, i) || h == g {
      assert Contested(snapshot, es, k, i + 1);
      StaysScattered(s, es[i], mine, g, added, theirs);
    } else {
      assert !Contested(snapshot, es, k, i + 1);
      OthersSurvive(s, es[i], mine, g, added, h);
    }
  }

  lemma {:induction false} AliveStep(snapshot: Server, es: seq<ZoneRouting>, k: int, i: int, s: Server, s': Server,
                  g: GroupId, added: map<GroupId, Evicted>)
    requires 0 <= i < k < |es| && Disjoint(es, snapshot.connected) && SameClients(snapshot, s)
    requires Present(es[k], snapshot.connected) != {} && Present(es[i], snapshot.connected) != {}
    requires g == Target(snapshot, es[i]) && g in s.groups
    requires FreshGroups(s, g, Present(es[i], snapshot.connected), added)
    requires s' == WithStream(Regrouped(s, g, Present(es[i], snapshot.connected), added), g, es[i].stream)
    requires Alive(snapshot, es, k, i, s)
    ensures Alive(snapshot, es, k, i + 1, s')
  {
    var mine := Present(es[i], snapshot.connected);
    var h := Target(snapshot, es[k]);
    var first := PresentIn(es[k].clients, snapshot.connected)[0];
    if h == g {
      assert s'.groups[h].clients == mine;
    } else if InGroup(s, h, first) {
      assert first in Present(es[k], snapshot.connected);
      CallMoves(s, g, mine, added, h, first);
    } else {
      var m :| 0 <= m < i && s.groups[h].clients == Present(es[m], snapshot.connected);
      OthersSurvive(s, es[i], mine, g, added, h);
    }
  }

  lemma {:induction false} ProgressAt(es: seq<ZoneRouting>, states: seq<Server>, ok: bool, i: int)
    requires IsPass(es, states, ok) && ValidServer(states[0]) && Disjoint(es, states[0].connected)
    requires 0 <= i < |states|
    ensures Progress(states[0], es, i, states[i])
  {
    if i == 0 {
      forall k | 0 <= k < |es| && Present(es[k], states[0].connected) != {}
        ensures Alive(states[0], es, k, 0, states[0])
      {
      }
    } else {
      ProgressAt(es, states, ok, i - 1);
      ProgressStep(states[0], es, i - 1, states[i - 1], states[i]);
    }
  }

  lemma {:induction false} HalfSettledIsolates(s: Server, e: ZoneRouting)
    requires ValidServer(s) && HalfSettled(s, e)
    ensures Isolated(s, Present(e, s.connected))
  {
    var clients := Present(e, s.connected);
    if !Scattered(s, clients) && clients != {} {
      var h :| h in s.groups && s.groups[h] == Group(clients, e.stream);
      assert forall c :: c in clients ==> InGroup(s, h, c);
    }
  }

  lemma {:induction false} AliveEntryDoesNotFail(snapshot: Server, es: seq<ZoneRouting>, i: int, s: Server)
    requires 0 <= i < |es| && Progress(snapshot, es, i, s)
    ensures !EntryFails(snapshot, es[i], s)
  {
    if Present(es[i], snapshot.connected) != {} {
      assert Alive(snapshot, es, i, i, s);
    } else {
      PresentInIsPresent(es[i], snapshot.connected);
    }
  }

  lemma {:induction false} PresentInIsPresent(e: ZoneRouting, connected: set<ClientId>)
    ensures Present(e, connected) == set c | c in PresentIn(e.clients, connected)
    ensures Present(e, connected) == {} ==> PresentIn(e.clients, connected) == []
  {
    var present := PresentIn(e.clients, connected);
    assert present == [] || present[0] in Present(e, connected);
  }

  /**
   A pass over disjoint entries never addresses a group that an earlier call made vanish, so it
   always runs to its end; and from the moment an entry is handled, no group mixes one of its
   present clients with anybody else.
   */
  lemma {:induction false} PassNeverAddressesAVanishedGroup(es: seq<ZoneRouting>, states: seq<Server>, ok: bool)
    requires IsPass(es, states, ok) && ValidServer(states[0]) && Disjoint(es, states[0].connected)
    ensures ok
    ensures forall i, k :: 0 <= k < i < |states| ==> Isolated(states[i], Present(es[k], states[0].connected))
    ensures forall i :: 0 <= i < |states| ==> SameClients(states[0], states[i])
  {
    forall i | 0 <= i < |states| ensures Progress(states[0], es, i, states[i]) {
      ProgressAt(es, states, ok, i);
    }
    if |states| <= |es| {
      AliveEntryDoesNotFail(states[0], es, |states| - 1, states[|states| - 1]);
    }
    forall i, k | 0 <= k < i < |states| ensures Isolated(states[i], Present(es[k], states[0].connected)) {
      if Present(es[k], states[0].connected) != {} {
        assert Achieved(states[0], es, k, i, states[i]);
        HalfSettledIsolates(states[i], es[k]);
      }
    }
  }

  /**
   What each single pass does to a zone with at least two present clients: it settles the zone iff no later
   entry's first present client shares a group with this zone's in the snapshot.
   */
  lemma {:induction false} EachPassSettlesExactly(es: seq<ZoneRouting>, states: seq<Server>, k: int)
    requires IsPass(es, states, true) && ValidServer(states[0]) && Disjoint(es, states[0].connected)
    requires 0 <= k < |es| && |Present(es[k], states[0].connected)| >= 2
    ensures Settled(states[|es|], es[k]) <==> !Contested(states[0], es, k, |es|)
  {
    ProgressAt(es, states, true, |es|);
    var s, clients := states[|es|], Present(es[k], states[0].connected);
    assert Achieved(states[0], es, k, |es|, s);
    if Settled(s, es[k]) {
      SettledIsNotScattered(s, es[k]);
    }
  }

  lemma {:induction false} SettledIsNotScattered(s: Server, e: ZoneRouting)
    requires Settled(s, e) && |Present(e, s.connected)| >= 2
    ensures !Scattered(s, Present(e, s.connected))
  {
    var g :| g in s.groups && s.groups[g] == Group(Present(e, s.connected), e.stream);
    var c :| c in Present(e, s.connected);
    assert |{c}| == 1;
    assert InGroup(s, g, c) && s.groups[g].clients != {c};
  }

  /** Every entry is settled or scattered after one pass, whatever the order of the entries. */
  lemma {:induction false} OnePassHalfSettles(es: seq<ZoneRouting>, states: seq<Server>)
    requires IsPass(es, states, true) && ValidServer(states[0]) && Disjoint(es, states[0].connected)
    ensures forall e :: e in es ==> HalfSettled(states[|es|], e)
  {
    ProgressAt(es, states, true, |es|);
    forall e | e in es ensures HalfSettled(states[|es|], e) {
      var k :| 0 <= k < |es| && es[k] == e;
      if Present(e, states[0].connected) != {} {
        assert Achieved(states[0], es, k, |es|, states[|es|]);
      }
    }
  }

  /** A half settled entry: settled once it is `done`, and until then addressing what it will address. */
  ghost predicate EntrySettling(snapshot: Server, e: ZoneRouting, done: bool, s: Server)
    requires ValidServer(snapshot)
  {
    && HalfSettled(s, e)
    && (done ==> Settled(s, e))
    && (!done && Present(e, snapshot.connected) != {} ==>
          var g := Target(snapshot, e);
          g in s.groups && s.groups[g].clients == snapshot.groups[g].clients)
  }

  ghost predicate Settling(snapshot: Server, es: seq<ZoneRouting>, i: int, s: Server) {
    && SameClients(snapshot, s)
    && forall k :: 0 <= k < |es| ==> EntrySettling(snapshot, es[k], k < i, s)
  }

  lemma {:induction false} SettlingStep(snapshot: Server, es: seq<ZoneRouting>, i: int, s: Server, s': Server)
    requires 0 <= i < |es| && Disjoint(es, snapshot.connected)
    requires Settling(snapshot, es, i, s) && EntryStep(snapshot, es[i], s, s')
    ensures Settling(snapshot, es, i + 1, s')
  {
    assert EntrySettling(snapshot, es[i], false, s);
    if Present(es[i], snapshot.connected) == {} {
      forall k | 0 <= k < |es| ensures EntrySettling(snapshot, es[k], k < i + 1, s') {
        assert EntrySettling(snapshot, es[k], k < i, s);
      }
      return;
    }
    var g, added := EntryEffect(snapshot, es[i], s, s');
    HalfSettledIsolates(s, es[i]);
    assert InGroup(s, g, PresentIn(es[i].clients, snapshot.connected)[0]);
    forall k | 0 <= k < |es| ensures EntrySettling(snapshot, es[k], k < i + 1, s') {
      assert EntrySettling(snapshot, es[k], k < i, s);
      if k == i {
        assert s'.groups[g] == Group(Present(es[i], snapshot.connected), es[i].stream);
      } else {
        assert Present(es[i], snapshot.connected) !! Present(es[k], snapshot.connected);
        OtherKeepsSettling(snapshot, es[i], es[k], k < i, s, g, added);
      }
    }
  }

  lemma {:induction false} OtherKeepsSettling(snapshot: Server, e: ZoneRouting, other: ZoneRouting, done: bool,
                                              s: Server,
                           g: GroupId, added: map<GroupId, Evicted>)
    requires SameClients(snapshot, s)
    requires g in s.groups && FreshGroups(s, g, Present(e, s.connected), added)
    requires s.groups[g].clients <= Present(e, s.connected)
    requires Present(e, s.connected) !! Present(other, s.connected)
    requires EntrySettling(snapshot, other, done, s)
    ensures EntrySettling(snapshot, other, done,
            WithStream(Regrouped(s, g, Present(e, s.connected), added), g, e.stream))
  {
    if Present(other, s.connected) != {} {
      OtherEntryUndisturbed(s, e, other, g, added);
      if !done {
        var c := PresentIn(other.clients, snapshot.connected)[0];
        assert c in s.groups[Target(snapshot, other)].clients * Present(other, snapshot.connected);
        TargetUndisturbed(s, e, other, g, added, Target(snapshot, other));
      }
    }
  }

  lemma {:induction false} OtherEntryUndisturbed(s: Server, e: ZoneRouting, other: ZoneRouting, g: GroupId,
                                                 added: map<GroupId, Evicted>)
    requires ValidServer(s) && g in s.groups && FreshGroups(s, g, Present(e, s.connected), added)
    requires s.groups[g].clients <= Present(e, s.connected)
    requires Present(e, s.connected) !! Present(other, s.connected) && Present(other, s.connected) != {}
    requires HalfSettled(s, other)
    ensures var s' := WithStream(Regrouped(s, g, Present(e, s.connected), added), g, e.stream);
            HalfSettled(s', other) && (Settled(s, other) ==> Settled(s', other))
  {
    var mine, theirs := Present(e, s.connected), Present(other, s.connected);
    if Settled(s, other) {
      var h :| h in s.groups && s.groups[h] == Group(theirs, other.stream);
      OthersSurvive(s, e, mine, g, added, h);
    } else {
      StaysScattered(s, e, mine, g, added, theirs);
    }
  }

  lemma {:induction false} TargetUndisturbed(s: Server, e: ZoneRouting, other: ZoneRouting, g: GroupId,
                                             added: map<GroupId, Evicted>, h: GroupId)
    requires ValidServer(s) && g in s.groups && FreshGroups(s, g, Present(e, s.connected), added)
    requires s.groups[g].clients <= Present(e, s.connected)
    requires Present(e, s.connected) !! Present(other, s.connected)
    requires HalfSettled(s, other) && h in s.groups && s.groups[h].clients * Present(other, s.connected) != {}
    ensures var s' := WithStream(Regrouped(s, g, Present(e, s.connected), added), g, e.stream);
            h in s'.groups && s'.groups[h] == s.groups[h]
  {
    HalfSettledIsolates(s, other);
    var c :| c in s.groups[h].clients && c in Present(other, s.connected);
    assert InGroup(s, h, c);
    OthersSurvive(s, e, Present(e, s.connected), g, added, h);
  }

  lemma {:induction false} SettlingAt(es: seq<ZoneRouting>, states: seq<Server>, ok: bool, i: int)
    requires IsPass(es, states, ok) && ValidServer(states[0]) && Disjoint(es, states[0].connected)
    requires forall k :: 0 <= k < |es| ==> HalfSettled(states[0], es[k])
    requires 0 <= i < |states|
    ensures Settling(states[0], es, i, states[i])
  {
    if i == 0 {
    } else {
      SettlingAt(es, states, ok, i - 1);
      SettlingStep(states[0], es, i - 1, states[i - 1], states[i]);
    }
  }

  /** A pass over a settled server changes nothing, not even for a moment. */
  lemma {:induction false} SettledIsFixpoint(es: seq<ZoneRouting>, states: seq<Server>, ok: bool, i: int)
    requires IsPass(es, states, ok) && ValidServer(states[0])
    requires AllSettled(states[0], es)
    requires 0 <= i < |states|
    ensures states[i] == states[0]
  {
    if i == 0 {
    } else {
      SettledIsFixpoint(es, states, ok, i - 1);
      var s, e := states[0], es[i - 1];
      var clients := Present(e, s.connected);
      if clients != {} {
        var g, added := EntryEffect(s, e, s, states[i]);
        var h :| h in s.groups && s.groups[h] == Group(clients, e.stream);
        var first := PresentIn(e.clients, s.connected)[0];
        assert first in clients && InGroup(s, h, first) && InGroup(s, g, first);
        SettledCallsAreNoOps(s, e, g, added);
      }
    }
  }

  lemma {:induction false} SettledCallsAreNoOps(s: Server, e: ZoneRouting, g: GroupId, added: map<GroupId, Evicted>)
    requires ValidServer(s) && g in s.groups
    requires var clients := Present(e, s.connected);
             clients != {} && s.groups[g] == Group(clients, e.stream) && FreshGroups(s, g, clients, added)
    ensures WithStream(Regrouped(s, g, Present(e, s.connected), added), g, e.stream) == s
  {
    var clients := Present(e, s.connected);
    var s' := WithStream(Regrouped(s, g, clients, added), g, e.stream);
    assert added == map[];
    forall h | h in s.groups ensures h in s'.groups && s'.groups[h] == s.groups[h] {
      if h != g {
        forall c | c in s.groups[h].clients ensures c !in clients {
          assert c in clients ==> InGroup(s, g, c) && InGroup(s, h, c);
        }
        OthersSurvive(s, e, clients, g, added, h);
      }
    }
    assert s'.groups == s.groups;
  }

  /** Two passes over the same disjoint entries, in any two orders, settle every zone. */
  lemma {:induction false} TwoPassesSettle(es: seq<ZoneRouting>, states: seq<Server>, ok: bool,
                        es': seq<ZoneRouting>, states': seq<Server>, ok': bool)
    requires IsPass(es, states, ok) && IsPass(es', states', ok')
    requires ValidServer(states[0]) && states'[0] == states[|states| - 1]
    requires forall e :: e in es' ==> e in es
    requires Disjoint(es, states[0].connected) && Disjoint(es', states[0].connected)
    ensures ok && ok' && AllSettled(states'[|es'|], es')
    ensures SameClients(states[0], states'[|es'|])
  {
    PassNeverAddressesAVanishedGroup(es, states, ok);
    OnePassHalfSettles(es, states);
    PassNeverAddressesAVanishedGroup(es', states', ok');
    SettlingAt(es', states', ok', |es'|);
  }

  lemma {:induction false} StepKeepsClients(snapshot: Server, e: ZoneRouting, s: Server, s': Server)
    requires SameClients(snapshot, s) && (EntryStep(snapshot, e, s, s') || HalfStep(snapshot, e, s, s'))
    ensures SameClients(snapshot, s')
  {
    var clients := Present(e, snapshot.connected);
    if EntryStep(snapshot, e, s, s') {
      if clients != {} {
        var g, m :| Addresses(snapshot, e, g) && g in s.groups
                    && ClientsSet(s, g, clients, m) && g in m.groups && s' == WithStream(m, g, e.stream);
        ClientsSetKeeps(s, g, clients, m);
        RebindKeepsValid(m, g, e.stream);
      }
    } else {
      var g :| Addresses(snapshot, e, g) && g in s.groups && ClientsSet(s, g, clients, s');
      ClientsSetKeeps(s, g, clients, s');
    }
  }

  lemma {:induction false} CutPassKeepsClients(es: seq<ZoneRouting>, states: seq<Server>, last: Server, n: nat)
    requires IsCutPass(es, states, last) && ValidServer(states[0]) && n < |states|
    ensures SameClients(states[0], states[n])
    decreases n
  {
    if n == 0 {
    } else {
      CutPassKeepsClients(es, states, last, n - 1);
      StepKeepsClients(states[0], es[n - 1], states[n - 1], states[n]);
    }
  }

  /** A pass broken off anywhere does no lasting harm: two passes that go through settle every zone all the same. */
  lemma {:induction false} CutPassIsMadeGood(es: seq<ZoneRouting>, cut: seq<Server>, last: Server,
                                             first: seq<Server>, ok: bool, second: seq<Server>, ok': bool)
    requires IsCutPass(es, cut, last) && ValidServer(cut[0]) && Disjoint(es, cut[0].connected)
    requires IsPass(es, first, ok) && first[0] == last
    requires IsPass(es, second, ok') && second[0] == first[|first| - 1]
    ensures ok && ok' && AllSettled(second[|es|], es) && SameClients(cut[0], second[|es|])
  {
    var n := |cut| - 1;
    CutPassKeepsClients(es, cut, last, n);
    if last != cut[n] {
      StepKeepsClients(cut[0], es[n], cut[n], last);
    }
    TwoPassesSettle(es, first, ok, es, second, ok');
  }

  /** No two entries ask for the same stream; the router's entries are like this. */
  ghost predicate DistinctStreams(es: seq<ZoneRouting>) {
    forall i, j :: 0 <= i < j < |es| ==> es[i].stream != es[j].stream
  }

  /** A server can be settled only for disjoint entries: groups partition the clients. */
  lemma {:induction false} SettledNeedsDisjoint(es: seq<ZoneRouting>, s: Server)
    requires ValidServer(s) && AllSettled(s, es) && DistinctStreams(es)
    ensures Disjoint(es, s.connected)
  {
    forall i, j | 0 <= i < j < |es| ensures Present(es[i], s.connected) !! Present(es[j], s.connected) {
      if c :| c in Present(es[i], s.connected) && c in Present(es[j], s.connected) {
        assert Settled(s, es[i]) && Settled(s, es[j]);
        var g :| g in s.groups && s.groups[g] == Group(Present(es[i], s.connected), es[i].stream);
        var h :| h in s.groups && s.groups[h] == Group(Present(es[j], s.connected), es[j].stream);
        assert InGroup(s, g, c) && InGroup(s, h, c);
        assert false;
      }
    }
  }

  lemma {:induction false} DisjointInAnyOrder(es: seq<ZoneRouting>, order: seq<ZoneRouting>, connected: set<ClientId>)
    requires forall e :: e in order ==> e in es
    requires DistinctStreams(order) && Disjoint(es, connected)
    ensures Disjoint(order, connected)
  {
    forall i, j | 0 <= i < j < |order| ensures Present(order[i], connected) !! Present(order[j], connected) {
      assert order[i] in es && order[j] in es;
      var k :| 0 <= k < |es| && es[k] == order[i];
      var l :| 0 <= l < |es| && es[l] == order[j];
      assert k != l;
    }
  }

  /** Some pass over the entries of `es`, in some order, leads from `s` to `s'`. */
  ghost predicate PassOver(es: seq<ZoneRouting>, s: Server, s': Server) {
    exists order: seq<ZoneRouting>, states, ok ::
      && (forall e :: e in order <==> e in es) && DistinctStreams(order)
      && IsPass(order, states, ok) && states[0] == s && states[|states| - 1] == s'
  }

  /** The server's states after each of a series of passes, each over its own ordering of `es`. */
  ghost predicate IsSeries(es: seq<ZoneRouting>, after: seq<Server>) {
    |after| > 0 && ValidServer(after[0]) && forall n :: 0 < n < |after| ==> PassOver(es, after[n - 1], after[n])
  }

  lemma {:induction false} EntriesKeepClients(es: seq<ZoneRouting>, states: seq<Server>, ok: bool, i: int)
    requires IsPass(es, states, ok) && ValidServer(states[0]) && 0 <= i < |states|
    ensures SameClients(states[0], states[i])
  {
    if i == 0 {
    } else {
      EntriesKeepClients(es, states, ok, i - 1);
      if Present(es[i - 1], states[0].connected) != {} {
        var g, added := EntryEffect(states[0], es[i - 1], states[i - 1], states[i]);
      }
    }
  }

  lemma {:induction false} SeriesKeepsClients(es: seq<ZoneRouting>, after: seq<Server>, n: int)
    requires IsSeries(es, after) && 0 <= n < |after|
    ensures SameClients(after[0], after[n])
  {
    if n == 0 {
    } else {
      SeriesKeepsClients(es, after, n - 1);
      assert PassOver(es, after[n - 1], after[n]);
      var order, states, ok :|
        && (forall e :: e in order <==> e in es) && DistinctStreams(order)
        && IsPass(order, states, ok) && states[0] == after[n - 1] && states[|states| - 1] == after[n];
      EntriesKeepClients(order, states, ok, |states| - 1);
    }
  }

  lemma {:induction false} SecondPassSettles(es: seq<ZoneRouting>, after: seq<Server>)
    requires IsSeries(es, after) && |after| == 3 && Disjoint(es, after[0].connected)
    ensures AllSettled(after[2], es)
  {
    assert PassOver(es, after[0], after[1]) && PassOver(es, after[1], after[2]);
    var order, states, ok :|
      && (forall e :: e in order <==> e in es) && DistinctStreams(order)
      && IsPass(order, states, ok) && states[0] == after[0] && states[|states| - 1] == after[1];
    var order', states', ok' :|
      && (forall e :: e in order' <==> e in es) && DistinctStreams(order')
      && IsPass(order', states', ok') && states'[0] == after[1] && states'[|states'| - 1] == after[2];
    DisjointInAnyOrder(es, order, after[0].connected);
    DisjointInAnyOrder(es, order', after[0].connected);
    TwoPassesSettle(order, states, ok, order', states', ok');
    forall i | 0 <= i < |es| ensures Settled(after[2], es[i]) {
      assert es[i] in order';
    }
  }

  lemma {:induction false} PassOverSettled(es: seq<ZoneRouting>, s: Server, s': Server)
    requires ValidServer(s) && AllSettled(s, es) && PassOver(es, s, s')
    ensures s' == s
  {
    var order, states, ok :|
      && (forall e :: e in order <==> e in es) && DistinctStreams(order)
      && IsPass(order, states, ok) && states[0] == s && states[|states| - 1] == s';
    forall i | 0 <= i < |order| ensures Settled(s, order[i]) {
      assert order[i] in es;
    }
    SettledIsFixpoint(order, states, ok, |states| - 1);
  }

  /**
   Convergence, exactly: with a stable set of connected clients, from any server state and with any
   entry order in each pass, all zones are settled from the second pass on, in a state that never
   changes again, if and only if no connected client is wanted by two zones.
   */
  lemma {:induction false} PassesConvergeExactly(es: seq<ZoneRouting>, after: seq<Server>, n: int)
    requires IsSeries(es, after) && DistinctStreams(es) && 2 <= n < |after|
    ensures AllSettled(after[n], es) <==> Disjoint(es, after[0].connected)
    ensures Disjoint(es, after[0].connected) ==> after[n] == after[2]
  {
    SeriesKeepsClients(es, after, n);
    if AllSettled(after[n], es) {
      SettledNeedsDisjoint(es, after[n]);
    }
    if Disjoint(es, after[0].connected) {
      if n == 2 {
        SecondPassSettles(es, after[..3]);
      } else {
        SeriesKeepsClients(es, after, n - 1);
        PassesConvergeExactly(es, after, n - 1);
        assert PassOver(es, after[n - 1], after[n]);
        PassOverSettled(es, after[n - 1], after[n]);
      }
    }
  }

  /** Two zones whose three clients all start in one group. */
  const SHARED_START := Server(map[GroupId(0) := Group({Id(0), Id(1), Id(2)}, 99)], {Id(0), Id(1), Id(2)})
  const TWO_CLIENTS := ZoneRouting(0, [Id(0), Id(1)])
  const ONE_CLIENT := ZoneRouting(1, [Id(2)])

  /** One pass is not enough there: the first zone is thrown apart by the second zone's call. */
  lemma {:induction false} OnePassCanFail(states: seq<Server>, ok: bool)
    requires IsPass([TWO_CLIENTS, ONE_CLIENT], states, ok) && states[0] == SHARED_START
    ensures ok && !Settled(states[2], TWO_CLIENTS)
  {
    var es, s := [TWO_CLIENTS, ONE_CLIENT], SHARED_START;
    SharedStartIsValid();
    PresentAtStart();
    PassNeverAddressesAVanishedGroup(es, states, ok);
    var g, h := Target(s, es[0]), Target(s, es[1]);
    assert g == GroupId(0) && h == GroupId(0);
    assert Contested(s, es, 0, 2);
    EachPassSettlesExactly(es, states, 0);
  }

  lemma {:induction false} SharedStartIsValid()
    ensures ValidServer(SHARED_START)
  {
    forall c | c in SHARED_START.connected ensures Known(SHARED_START, c) {
      assert InGroup(SHARED_START, GroupId(0), c);
    }
  }

  lemma {:induction false} PresentAtStart()
    ensures |Present(TWO_CLIENTS, SHARED_START.connected)| == 2
    ensures Present(ONE_CLIENT, SHARED_START.connected) != {}
    ensures Disjoint([TWO_CLIENTS, ONE_CLIENT], SHARED_START.connected)
  {
    var first, second := Present(TWO_CLIENTS, SHARED_START.connected), Present(ONE_CLIENT, SHARED_START.connected);
    assert first == {Id(0), Id(1)};
    assert Id(2) in ONE_CLIENT.clients && Id(2) in second;
    assert first !! second;
  }
}
