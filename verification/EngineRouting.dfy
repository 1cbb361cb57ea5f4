/**
 Which zones hold a stream, and what the server makes of it (src/audio/engine.rs, src/audio/snapcast_router.rs): which
 calls give and take a stream, exactly, over runs; and that two passes group the clients of every zone that holds one.
 */
module EngineRouting {
  import opened Wrappers
  import opened StreamPools
  import opened SnapcastControl
  import opened SnapcastReconcile
  import opened SnapcastConvergence
  import opened SnapcastRouters
  import opened EngineState
  import opened EngineParts
  import opened EngineInvariants
  import opened EngineMembers

  /** A stream of the pool is the zone's. */
  ghost predicate HasStream(r: Routing, zone: ZoneId) { exists k :: Holds(r.pool, k, zone) }

  /** The call takes the zone's stream away. */
  predicate Releases(st: State, op: Op, zone: ZoneId) {
    match op
    case OpStop(z) => z == zone
    case OpDeleteZone(z) => z == zone && zone in st.zones
    case OpSessionEnded(s) => s in st.sources && st.sources[s].dest == zone
    case OpReroute(env, s, z) =>
      Reroute(st, env, s, z).Ok? && z != zone && st.sources[s].dest == zone && DrivenBy(st, zone, s)
    case _ => false
  }

  /** `r'` is `r` after a grant to one zone, if to any, and a release of another. */
  ghost predicate Moved(r: Routing, r': Routing, granted: Option<ZoneId>, released: ZoneId -> bool) {
    forall z :: HasStream(r', z) <==> granted == Some(z) || (HasStream(r, z) && !released(z))
  }

  lemma {:induction false} DroppedMoves(r: Routing, zone: ZoneId)
    requires Injective(r.pool)
    ensures Moved(r, Dropped(r, zone), None, z => z == zone)
    ensures Injective(Dropped(r, zone).pool) && (InStep(r) ==> InStep(Dropped(r, zone)))
    ensures |Dropped(r, zone).pool| == |r.pool|
  {
    ReleaseTakesOnlyOwn(r.pool, zone);
    if InStep(r) {
      DroppedKeepsInStep(r, zone);
    }
  }

  lemma {:induction false} RequestedMoves(r: Routing, zone: ZoneId, clients: seq<ClientId>)
    requires Injective(r.pool) && Requested(r, zone, clients, true).Ok?
    ensures var r' := Requested(r, zone, clients, true).value.0;
            && Moved(r, r', Some(zone), z => false) && |r'.pool| == |r.pool|
            && Injective(r'.pool) && (InStep(r) ==> InStep(r'))
  {
    AllocateGrants(r.pool, zone);
    var (r', k) := Requested(r, zone, clients, true).value;
    assert Holds(r'.pool, k, zone);
    if InStep(r) {
      RequestedKeepsInStep(r, zone, clients);
    }
    forall z ensures HasStream(r', z) <==> z == zone || HasStream(r, z) {
      if z != zone {
        assert forall j :: Holds(r'.pool, j, z) <==> Holds(r.pool, j, z);
      }
    }
  }

  lemma {:induction false} ResolvingMoves(st: State, env: Env, zone: ZoneId, outputs: seq<OutputId>)
    requires Injective(st.routing.pool) && ZoneSink(st, env, zone, outputs).Ok?
    ensures var (st', sink) := ZoneSink(st, env, zone, outputs).value;
            && Moved(st.routing, st'.routing, if sink.Stream? then Some(zone) else None, z => false)
            && |st'.routing.pool| == |st.routing.pool|
            && Injective(st'.routing.pool) && (InStep(st.routing) ==> InStep(st'.routing))
            && st'.zones == st.zones && st'.sources == st.sources
  {
    var (_, sink) := ZoneSink(st, env, zone, outputs).value;
    if sink.Stream? {
      RequestedMoves(st.routing, zone, Online(st.registry, Dongles(outputs)));
    }
  }

  /** What a call does to the streams that zones hold. */
  ghost predicate StepMoves(st: State, op: Op, st': State) {
    && |st'.routing.pool| == |st.routing.pool|
    && Injective(st'.routing.pool) && (InStep(st.routing) ==> InStep(st'.routing))
    && Moved(st.routing, st'.routing, Granted(st, op), z => Releases(st, op, z))
  }

  lemma {:induction false} PlayMoves(st: State, env: Env, zone: ZoneId)
    requires Injective(st.routing.pool)
    ensures StepMoves(st, OpPlay(env, zone), Step(st, OpPlay(env, zone)))
  {
    if zone in st.zones && ZoneSink(st, env, zone, st.zones[zone].outputs).Ok? {
      ResolvingMoves(st, env, zone, st.zones[zone].outputs);
      var (st1, _) := ZoneSink(st, env, zone, st.zones[zone].outputs).value;
      TakeReplaces(st1, zone);
    }
  }

  lemma {:induction false} SinkForSourceMoves(st: State, env: Env, s: ZoneId)
    requires Injective(st.routing.pool)
    ensures StepMoves(st, OpSinkForSource(env, s), Step(st, OpSinkForSource(env, s)))
  {
    if s in st.sources && st.sources[s].dest in st.zones {
      var dest := st.sources[s].dest;
      if ZoneSink(st, env, dest, st.zones[dest].outputs).Ok? {
        ResolvingMoves(st, env, dest, st.zones[dest].outputs);
      }
    }
  }

  lemma {:induction false} ReroutedRouting(st: State, s: ZoneId, zone: ZoneId, sink: Sink)
    requires s in st.sources && zone in st.zones && zone != st.sources[s].dest
    ensures var dest := st.sources[s].dest;
            Rerouted(st, s, zone, sink).routing ==
            if DrivenBy(st, dest, s) then Dropped(st.routing, dest) else st.routing
  {
    MovedEffect(st, s, zone, sink);
  }

  /** A grant to one zone and then a release of another. */
  lemma {:induction false} MovedTwice(r: Routing, mid: Routing, r': Routing, granted: Option<ZoneId>, zone: ZoneId,
                                      dropped: ZoneId -> bool, released: ZoneId -> bool)
    requires Moved(r, mid, granted, z => false) && Moved(mid, r', None, dropped)
    requires (granted.Some? ==> granted == Some(zone)) && !dropped(zone)
    requires forall z :: released(z) <==> dropped(z)
    ensures Moved(r, r', granted, released)
  {
  }

  lemma {:induction false} RerouteMoves(st: State, env: Env, s: ZoneId, zone: ZoneId)
    requires Injective(st.routing.pool)
    ensures StepMoves(st, OpReroute(env, s, zone), Step(st, OpReroute(env, s, zone)))
  {
    if Reroute(st, env, s, zone).Ok? && zone != st.sources[s].dest {
      ResolvingMoves(st, env, zone, st.zones[zone].outputs);
      var (st1, sink) := ZoneSink(st, env, zone, st.zones[zone].outputs).value;
      ReroutedRouting(st1, s, zone, sink);
      var dest, r' := st.sources[s].dest, Rerouted(st1, s, zone, sink).routing;
      assert DrivenBy(st1, dest, s) == DrivenBy(st, dest, s);
      DroppedMoves(st1.routing, dest);
      MovedTwice(st.routing, st1.routing, r', Granted(st, OpReroute(env, s, zone)), zone,
                 z => DrivenBy(st, dest, s) && z == dest, z => Releases(st, OpReroute(env, s, zone), z));
    }
  }

  lemma {:induction false} DeleteMoves(st: State, zone: ZoneId)
    requires Injective(st.routing.pool)
    ensures StepMoves(st, OpDeleteZone(zone), Step(st, OpDeleteZone(zone)))
  {
    if zone in st.zones {
      DetachedEffect(st.(zones := st.zones - {zone}), st.zones[zone].current);
      DroppedMoves(st.routing, zone);
    }
  }

  lemma {:induction false} TakingMoves(st: State, op: Op)
    requires Injective(st.routing.pool) && (op.OpStop? || op.OpDeleteZone? || op.OpSessionEnded? || op.OpSessionBegan?)
    ensures StepMoves(st, op, Step(st, op))
  {
    match op {
      case OpStop(zone) =>
        TakeReplaces(st, zone);
        DroppedMoves(st.routing, zone);
      case OpDeleteZone(zone) => DeleteMoves(st, zone);
      case OpSessionEnded(s) =>
        if s in st.sources {
          EndedEffect(st, s);
          DroppedMoves(st.routing, st.sources[s].dest);
        }
      case OpSessionBegan(s) =>
        if s in st.sources {
          BeganEffect(st, s);
        }
    }
  }

  lemma {:induction false} OthersMoveNothing(st: State, op: Op)
    requires !op.OpStop? && !op.OpDeleteZone? && !op.OpSessionEnded? && !op.OpSessionBegan?
    requires !op.OpPlay? && !op.OpReroute? && !op.OpSinkForSource?
    ensures Step(st, op).routing == st.routing && Granted(st, op) == None && forall z :: !Releases(st, op, z)
  {
  }

  /**
   After any call a zone holds a stream iff the call had one granted for it, or it held one and the call does not
   release it; and streams and desired clients stay in step.
   */
  lemma {:induction false} StepMovesStreamsExactly(st: State, op: Op)
    requires Injective(st.routing.pool)
    ensures StepMoves(st, op, Step(st, op))
  {
    match op {
      case OpPlay(env, zone) => PlayMoves(st, env, zone);
      case OpReroute(env, s, zone) => RerouteMoves(st, env, s, zone);
      case OpSinkForSource(env, s) => SinkForSourceMoves(st, env, s);
      case _ =>
        if op.OpStop? || op.OpDeleteZone? || op.OpSessionEnded? || op.OpSessionBegan? {
          TakingMoves(st, op);
        } else {
          OthersMoveNothing(st, op);
        }
    }
  }

  /** What the calls of a run do to one zone's stream. */
  datatype Effect = Grants | Releasing | Neither

  function EffectOn(st: State, op: Op, zone: ZoneId): (effect: Effect) {
    if Granted(st, op) == Some(zone) then Grants else if Releases(st, op, zone) then Releasing else Neither
  }

  function Effects(ops: seq<Op>, states: seq<State>, n: nat, zone: ZoneId): (effects: seq<Effect>)
    requires |states| == |ops| + 1 && n <= |ops|
    ensures |effects| == n && forall m :: 0 <= m < n ==> effects[m] == EffectOn(states[m], ops[m], zone)
  {
    seq(n, m requires 0 <= m < n => EffectOn(states[m], ops[m], zone))
  }

  /** Call `m` had a stream granted, and none since has released it. */
  predicate GrantedAt(effects: seq<Effect>, m: int) {
    0 <= m < |effects| && effects[m].Grants? && forall k :: m < k < |effects| ==> !effects[k].Releasing?
  }

  ghost predicate GrantedSince(effects: seq<Effect>) { exists m :: GrantedAt(effects, m) }

  lemma {:induction false} GrantedOnward(effects: seq<Effect>, last: Effect)
    ensures GrantedSince(effects + [last]) <==> last.Grants? || (GrantedSince(effects) && !last.Releasing?)
  {
    var n, more := |effects|, effects + [last];
    if last.Grants? {
      assert GrantedAt(more, n);
    } else {
      if m :| GrantedAt(more, m) {
        assert more[n] == last && forall k :: m < k < n ==> effects[k] == more[k] && !more[k].Releasing?;
        assert GrantedAt(effects, m);
      }
      if GrantedSince(effects) && !last.Releasing? {
        var m :| GrantedAt(effects, m);
        assert GrantedAt(more, m);
      }
    }
  }

  lemma {:induction false} RunStepMoves(ops: seq<Op>, states: seq<State>, n: nat)
    requires IsRun(ops, states) && n < |ops|
    ensures StepMoves(states[n], ops[n], states[n + 1])
  {
    RunsStayInStep(ops, states, n);
    StepMovesStreamsExactly(states[n], ops[n]);
  }

  /**
   In every run: a zone holds a stream iff some call had one granted for it and none since has released it; and these
   zones are exactly the ones with desired clients, and exist.
   */
  lemma {:induction false} StreamsFollowTheCalls(ops: seq<Op>, states: seq<State>, n: nat, zone: ZoneId)
    requires IsRun(ops, states) && n <= |ops|
    ensures HasStream(states[n].routing, zone) <==> GrantedSince(Effects(ops, states, n, zone))
    ensures HasStream(states[n].routing, zone) <==> zone in states[n].routing.desired
    ensures HasStream(states[n].routing, zone) ==> zone in states[n].zones
    ensures |states[n].routing.pool| == 16
  {
    RunsStayInStep(ops, states, n);
    RunsStayAnchored(ops, states, n);
    SlotOrNone(states[n].routing.pool, zone);
    if n == 0 {
    } else {
      StreamsFollowTheCalls(ops, states, n - 1, zone);
      RunStepMoves(ops, states, n - 1);
      var before := Effects(ops, states, n - 1, zone);
      GrantedOnward(before, EffectOn(states[n - 1], ops[n - 1], zone));
      assert Effects(ops, states, n, zone) == before + [EffectOn(states[n - 1], ops[n - 1], zone)];
    }
  }

  /** Sixteen streams, none held by two zones, and the zones that hold one are those with desired clients. */
  ghost predicate SoundRouting(r: Routing) { Injective(r.pool) && InStep(r) && |r.pool| == 16 }

  lemma {:induction false} RunsStayInStep(ops: seq<Op>, states: seq<State>, n: nat)
    requires IsRun(ops, states) && n <= |ops|
    ensures SoundRouting(states[n].routing)
  {
    var sound := (st: State) => SoundRouting(st.routing);
    NothingHeld();
    forall st, op | sound(st) ensures sound(Step(st, op)) {
      StepMovesStreamsExactly(st, op);
    }
    RunsKeep(ops, states, n, sound, _ => true);
  }

  lemma {:induction false} NothingHeld()
    ensures SoundRouting(Initial().routing)
    ensures forall zone :: !HasStream(Initial().routing, zone)
  {
  }

  // ----- What the server makes of it --------------------------------------------------------------

  /** The client is desired for the zone, and the zone holds a stream. */
  predicate Wants(r: Routing, zone: ZoneId, c: ClientId) {
    zone in r.desired && Some(zone) in r.pool && c in r.desired[zone]
  }

  /** No connected client is desired for two zones. */
  ghost predicate EachClientOnce(r: Routing, connected: set<ClientId>) {
    forall y, z, c :: c in connected && Wants(r, y, c) && Wants(r, z, c) ==> y == z
  }

  /** The zone's connected clients, if any, are one group, and it plays the zone's own stream. */
  ghost predicate Grouped(s: Server, r: Routing, zone: ZoneId) {
    zone in r.desired && Some(zone) in r.pool ==>
      var clients := set c | c in r.desired[zone] && c in s.connected;
      clients != {} ==>
        exists g :: g in s.groups && s.groups[g].clients == clients && Holds(r.pool, s.groups[g].stream, zone)
  }

  lemma {:induction false} EntriesAreDisjoint(r: Routing, zones: seq<ZoneId>, es: seq<ZoneRouting>,
                                              connected: set<ClientId>)
    requires IsEntries(r, zones, es) && EachClientOnce(r, connected)
    ensures Disjoint(es, connected)
  {
    forall i, j | 0 <= i < j < |es| ensures Present(es[i], connected) !! Present(es[j], connected) {
      assert IsEntry(r, zones[i], es[i]) && IsEntry(r, zones[j], es[j]) && zones[i] != zones[j];
      assert zones[i] in zones && zones[j] in zones;
      forall c ensures !(c in Present(es[i], connected) && c in Present(es[j], connected)) {
        assert c in Present(es[i], connected) ==> Wants(r, zones[i], c);
        assert c in Present(es[j], connected) ==> Wants(r, zones[j], c);
      }
    }
  }

  lemma {:induction false} SameEntries(r: Routing, zones: seq<ZoneId>, es: seq<ZoneRouting>, zones': seq<ZoneId>,
                                       es': seq<ZoneRouting>)
    requires IsEntries(r, zones, es) && IsEntries(r, zones', es')
    ensures forall e :: e in es' ==> e in es
  {
    forall e | e in es' ensures e in es {
      var i :| 0 <= i < |es'| && es'[i] == e;
      assert zones'[i] in zones' && zones'[i] in zones;
      var j :| 0 <= j < |zones| && zones[j] == zones'[i];
      assert IsEntry(r, zones[j], es[j]) && IsEntry(r, zones'[i], es'[i]);
    }
  }

  /**
   Two passes of the router, listing its zones in any two orders: afterwards the connected clients desired for each
   zone are one group and play the stream the zone holds, if no connected client is desired for two zones.
   */
  lemma {:induction false} TwoPassesGroup(
    r: Routing, zones: seq<ZoneId>, es: seq<ZoneRouting>, first: seq<Server>, ok: bool,
    zones': seq<ZoneId>, es': seq<ZoneRouting>, second: seq<Server>, ok': bool, zone: ZoneId)
    requires IsEntries(r, zones, es) && IsEntries(r, zones', es')
    requires IsPass(es, first, ok) && IsPass(es', second, ok') && ValidServer(first[0])
    requires second[0] == first[|first| - 1] && EachClientOnce(r, first[0].connected)
    ensures ok && ok' && Grouped(second[|es'|], r, zone)
  {
    EntriesAreDisjoint(r, zones, es, first[0].connected);
    EntriesAreDisjoint(r, zones', es', first[0].connected);
    SameEntries(r, zones, es, zones', es');
    TwoPassesSettle(es, first, ok, es', second, ok');
    if zone in r.desired && Some(zone) in r.pool {
      EntryIsGrouped(second[|es'|], r, zones', es', zone);
    }
  }

  lemma {:induction false} EntryIsGrouped(s: Server, r: Routing, zones: seq<ZoneId>, es: seq<ZoneRouting>, zone: ZoneId)
    requires IsEntries(r, zones, es) && AllSettled(s, es) && zone in r.desired && Some(zone) in r.pool
    ensures Grouped(s, r, zone)
  {
    var i :| 0 <= i < |zones| && zones[i] == zone;
    EntriesHaveDistinctStreams(r, zones, es);
    assert IsEntry(r, zone, es[i]) && Settled(s, es[i]) && Holds(r.pool, es[i].stream, zone);
    assert Present(es[i], s.connected) == set c | c in r.desired[zone] && c in s.connected;
  }
}
