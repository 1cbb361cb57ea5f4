/**
 When one pass of the reconciler is enough (src/audio/snapcast_router.rs, `reconcile`): exactly when no later
 entry addresses the group a zone's first present client is in. The other way round a pass is built, entry by
 entry, that the assumed server allows and that leaves a contested zone on a wrong stream.
 */
module SnapcastOnePass {
  import opened Wrappers
  import opened Reachability
  import opened SnapcastControl
  import opened SnapcastReconcile
  import opened SnapcastConvergence

  // ----- A call that throws its evicted clients to one stream --------------------------------------

  /** The calls for one entry, with every evicted client put on `stray`. */
  ghost predicate Strays(snapshot: Server, e: ZoneRouting, s: Server, s': Server, stray: StreamId) {
    var clients := Present(e, snapshot.connected);
    if clients == {} then s' == s
    else exists g, added :: StraysFrom(snapshot, e, s, s', stray, g, added)
  }

  ghost predicate StraysFrom(snapshot: Server, e: ZoneRouting, s: Server, s': Server, stray: StreamId,
                             g: GroupId, added: map<GroupId, Evicted>)
  {
    && Addresses(snapshot, e, g) && g in s.groups && FreshGroups(s, g, Present(e, snapshot.connected), added)
    && (forall h :: h in added ==> added[h].stream == stray)
    && s' == WithStream(Regrouped(s, g, Present(e, snapshot.connected), added), g, e.stream)
  }

  /** Some number is larger than all ids. */
  lemma {:induction false} FreshNumber(ids: set<GroupId>) returns (next: nat)
    ensures forall g :: g in ids ==> g.number < next
  {
    if ids == {} {
      next := 0;
    } else {
      var g :| g in ids;
      var rest := FreshNumber(ids - {g});
      next := if rest <= g.number then g.number + 1 else rest;
      forall h | h in ids ensures h.number < next {
        assert h == g || h in ids - {g};
      }
    }
  }

  /** A new group id for a client, and the client of such an id. */
  function NewId(c: ClientId, next: nat): (h: GroupId)
    ensures h.number >= next && ClientFor(h, next) == c
  {
    GroupId(next + c.number)
  }

  function ClientFor(h: GroupId, next: nat): (c: ClientId) {
    Id(if h.number < next then 0 else h.number - next)
  }

  function NewGroups(evicted: set<ClientId>, next: nat, stray: StreamId): (added: map<GroupId, Evicted>)
    ensures added.Keys == set c | c in evicted :: NewId(c, next)
    ensures forall h :: h in added ==> added[h] == Evicted(ClientFor(h, next), stray)
  {
    map h | h in (set c | c in evicted :: NewId(c, next)) :: Evicted(ClientFor(h, next), stray)
  }

  lemma {:induction false} NewGroupsAreFresh(s: Server, g: GroupId, clients: set<ClientId>, next: nat, stray: StreamId)
    requires g in s.groups && forall h :: h in s.groups ==> h.number < next
    ensures FreshGroups(s, g, clients, NewGroups(EvictedFrom(s, g, clients), next, stray))
  {
    var evicted := EvictedFrom(s, g, clients);
    var added := NewGroups(evicted, next, stray);
    forall c | c in evicted ensures Rehomed(added, c) {
      assert NewId(c, next) in added;
    }
  }

  lemma {:induction false} StraysIsAStep(snapshot: Server, e: ZoneRouting, s: Server, s': Server, stray: StreamId)
    requires Strays(snapshot, e, s, s', stray)
    ensures EntryStep(snapshot, e, s, s')
  {
    var clients := Present(e, snapshot.connected);
    if clients != {} {
      var g, added :| StraysFrom(snapshot, e, s, s', stray, g, added);
      assert ClientsSet(s, g, clients, Regrouped(s, g, clients, added));
    }
  }

  /** The server may answer an entry in this way whenever the group addressed is still there. */
  lemma {:induction false} StrayStep(snapshot: Server, es: seq<ZoneRouting>, i: nat, s: Server, stray: StreamId)
    returns (s': Server)
    requires i < |es| && Progress(snapshot, es, i, s)
    ensures Strays(snapshot, es[i], s, s', stray)
  {
    var clients := Present(es[i], snapshot.connected);
    if clients == {} {
      return s;
    }
    assert Alive(snapshot, es, i, i, s);
    var g := Target(snapshot, es[i]);
    var next := FreshNumber(s.groups.Keys);
    var added := NewGroups(EvictedFrom(s, g, clients), next, stray);
    NewGroupsAreFresh(s, g, clients, next, stray);
    s' := WithStream(Regrouped(s, g, clients, added), g, es[i].stream);
    assert StraysFrom(snapshot, es[i], s, s', stray, g, added);
  }

  // ----- What it does to a contested zone ----------------------------------------------------------

  /** Every group with a client of `clients` plays another stream. */
  ghost predicate Astray(s: Server, clients: set<ClientId>, stream: StreamId) {
    forall h, c :: InGroup(s, h, c) && c in clients ==> s.groups[h].stream != stream
  }

  /** Clients on other streams stay there, and those evicted from the group addressed come to `stray`. */
  lemma {:induction false} StaysAstray(snapshot: Server, e: ZoneRouting, s: Server, s': Server, stray: StreamId,
                                       clients: set<ClientId>, stream: StreamId)
    requires SameClients(snapshot, s) && Strays(snapshot, e, s, s', stray) && stray != stream
    requires Present(e, snapshot.connected) !! clients
    requires Astray(s, clients, stream)
             || (Present(e, snapshot.connected) != {} && var g := Target(snapshot, e);
                 g in s.groups && s.groups[g].clients == clients)
    ensures Astray(s', clients, stream)
  {
    var mine := Present(e, snapshot.connected);
    if mine != {} {
      var g, added :| StraysFrom(snapshot, e, s, s', stray, g, added);
      assert g == Target(snapshot, e);
      forall h, c | InGroup(s', h, c) && c in clients ensures s'.groups[h].stream != stream {
        CallMoves(s, g, mine, added, h, c);
        if h !in added {
          assert InGroup(s, h, c) && h != g;
          assert s.groups[g].clients == clients ==> InGroup(s, g, c);
        }
      }
    }
  }

  lemma {:induction false} FirstContest(s: Server, es: seq<ZoneRouting>, k: nat, n: nat)
    requires ValidServer(s) && k < n < |es| && Present(es[k], s.connected) != {}
    requires Contested(s, es, k, n + 1) && !Contested(s, es, k, n)
    ensures Present(es[n], s.connected) != {} && Target(s, es[n]) == Target(s, es[k])
  {
  }

  /** The call for entry `n`: the first to contest a zone throws its clients out, the later ones leave them out. */
  lemma {:induction false} ContestedStep(s: Server, es: seq<ZoneRouting>, k: nat, n: nat, a: Server, b: Server,
                                         stray: StreamId)
    requires k < n < |es| && Disjoint(es, s.connected) && SameClients(s, a)
    requires Present(es[k], s.connected) != {} && stray != es[k].stream && Strays(s, es[n], a, b, stray)
    requires Achieved(s, es, k, n, a) && Contested(s, es, k, n + 1)
    requires Contested(s, es, k, n) ==> Astray(a, Present(es[k], s.connected), es[k].stream)
    ensures Astray(b, Present(es[k], s.connected), es[k].stream)
  {
    if !Contested(s, es, k, n) {
      FirstContest(s, es, k, n);
    }
    StaysAstray(s, es[n], a, b, stray, Present(es[k], s.connected), es[k].stream);
  }

  /** What holds on the way: progress, and from the first call that contests the zone its clients are astray. */
  ghost predicate LeadsAstray(s: Server, es: seq<ZoneRouting>, k: nat, n: nat, a: Server)
    requires ValidServer(s) && k < |es| && Present(es[k], s.connected) != {}
  {
    && n <= |es| && Progress(s, es, n, a)
    && (k < n && Contested(s, es, k, n) ==> Astray(a, Present(es[k], s.connected), es[k].stream))
  }

  lemma {:induction false} LeadsOnAstray(s: Server, es: seq<ZoneRouting>, k: nat, n: nat, a: Server) returns (b: Server)
    requires ValidServer(s) && Disjoint(es, s.connected) && k < |es| && n < |es| && Present(es[k], s.connected) != {}
    requires LeadsAstray(s, es, k, n, a)
    ensures EntryStep(s, es[n], a, b) && LeadsAstray(s, es, k, n + 1, b)
  {
    var stray := es[k].stream + 1;
    b := StrayStep(s, es, n, a, stray);
    StraysIsAStep(s, es[n], a, b, stray);
    ProgressStep(s, es, n, a, b);
    if k < n && Contested(s, es, k, n + 1) {
      ContestedStep(s, es, k, n, a, b, stray);
    }
  }

  lemma {:induction false} StartsAstray(s: Server, es: seq<ZoneRouting>, k: nat)
    requires ValidServer(s) && k < |es| && Present(es[k], s.connected) != {}
    ensures LeadsAstray(s, es, k, 0, s)
  {
    forall i | 0 <= i < |es| && Present(es[i], s.connected) != {} ensures Alive(s, es, i, 0, s) {
    }
  }

  /** A pass that the server may make of it. */
  lemma {:induction false} AstrayPass(s: Server, es: seq<ZoneRouting>, k: nat) returns (states: seq<Server>)
    requires ValidServer(s) && Disjoint(es, s.connected) && k < |es| && Present(es[k], s.connected) != {}
    ensures IsPass(es, states, true) && states[0] == s && LeadsAstray(s, es, k, |es|, states[|es|])
  {
    var step := (i: nat, a: Server, b: Server) => i < |es| && EntryStep(s, es[i], a, b);
    var good := (i: nat, a: Server) => LeadsAstray(s, es, k, i, a);
    StartsAstray(s, es, k);
    forall i: nat, a | i < |es| && good(i, a) ensures GoesOn(step, good, i, a) {
      var b := LeadsOnAstray(s, es, k, i, a);
      assert step(i, a, b) && good(i + 1, b);
    }
    states := ChainExists(step, good, s, |es|);
    assert forall i: nat :: i < |es| ==> step(i, states[i], states[i + 1]);
  }

  lemma {:induction false} AstrayIsNotSettled(s: Server, e: ZoneRouting)
    requires Present(e, s.connected) != {} && Astray(s, Present(e, s.connected), e.stream)
    ensures !Settled(s, e)
  {
    var c :| c in Present(e, s.connected);
    forall g | g in s.groups ensures s.groups[g] != Group(Present(e, s.connected), e.stream) {
      assert s.groups[g].clients == Present(e, s.connected) ==> InGroup(s, g, c);
    }
  }

  // ----- Exactly when one pass is enough -----------------------------------------------------------

  /** Every pass over `es` from `s` runs to its end and settles entry `k`. */
  ghost predicate OnePassSettles(es: seq<ZoneRouting>, s: Server, k: nat)
    requires k < |es|
  {
    forall states, ok :: IsPass(es, states, ok) && states[0] == s ==> ok && Settled(states[|es|], es[k])
  }

  lemma {:induction false} UncontestedSettles(es: seq<ZoneRouting>, s: Server, k: nat)
    requires ValidServer(s) && Disjoint(es, s.connected) && k < |es|
    requires Present(es[k], s.connected) != {} ==> !Contested(s, es, k, |es|)
    ensures OnePassSettles(es, s, k)
  {
    forall states, ok | IsPass(es, states, ok) && states[0] == s ensures ok && Settled(states[|es|], es[k]) {
      PassNeverAddressesAVanishedGroup(es, states, ok);
      ProgressAt(es, states, ok, |es|);
      if Present(es[k], s.connected) != {} {
        assert Achieved(s, es, k, |es|, states[|es|]);
      }
    }
  }

  lemma {:induction false} ContestedNeedNotSettle(es: seq<ZoneRouting>, s: Server, k: nat)
    requires ValidServer(s) && Disjoint(es, s.connected) && k < |es|
    requires Present(es[k], s.connected) != {} && Contested(s, es, k, |es|)
    ensures !OnePassSettles(es, s, k)
  {
    var states := AstrayPass(s, es, k);
    AstrayIsNotSettled(states[|es|], es[k]);
  }

  /**
   When one pass is enough, for zones of any size: every pass over disjoint entries settles a zone exactly when
   none of its clients is present, or no later entry's first present client shares a group with its own.
   */
  lemma {:induction false} OnePassSettlesExactly(es: seq<ZoneRouting>, s: Server, k: nat)
    requires ValidServer(s) && Disjoint(es, s.connected) && k < |es|
    ensures OnePassSettles(es, s, k) <==> Present(es[k], s.connected) == {} || !Contested(s, es, k, |es|)
  {
    if Present(es[k], s.connected) == {} || !Contested(s, es, k, |es|) {
      UncontestedSettles(es, s, k);
    } else {
      ContestedNeedNotSettle(es, s, k);
    }
  }

  /** Every pass over `es` from `s` runs to its end and settles all of them. */
  ghost predicate OnePassSettlesAll(es: seq<ZoneRouting>, s: Server) {
    forall states, ok :: IsPass(es, states, ok) && states[0] == s ==> ok && AllSettled(states[|es|], es)
  }

  /** One pass settles all zones exactly when no later entry addresses the group of an earlier one. */
  lemma {:induction false} OnePassSettlesAllExactly(es: seq<ZoneRouting>, s: Server)
    requires ValidServer(s) && Disjoint(es, s.connected)
    ensures OnePassSettlesAll(es, s) <==>
            forall k: nat :: k < |es| ==> Present(es[k], s.connected) == {} || !Contested(s, es, k, |es|)
  {
    forall k: nat | k < |es| ensures OnePassSettles(es, s, k) <==>
                                     Present(es[k], s.connected) == {} || !Contested(s, es, k, |es|)
    {
      OnePassSettlesExactly(es, s, k);
    }
    if OnePassSettlesAll(es, s) {
      forall k: nat | k < |es| ensures OnePassSettles(es, s, k) {
      }
    } else {
      var states, ok :| IsPass(es, states, ok) && states[0] == s && !(ok && AllSettled(states[|es|], es));
      PassNeverAddressesAVanishedGroup(es, states, ok);
      var k: nat :| k < |es| && !Settled(states[|es|], es[k]);
      assert !OnePassSettles(es, s, k);
    }
  }
}
