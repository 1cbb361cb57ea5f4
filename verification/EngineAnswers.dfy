/**
 What the engine's calls answer (src/audio/engine.rs): which error exactly when, which sink a session is given, and
 what a call that succeeds leaves behind.
 */
module EngineAnswers {
  import opened Wrappers
  import opened StreamPools
  import opened SnapcastRouters
  import opened EngineState
  import opened EngineParts
  import opened EngineInvariants
  import opened EngineStreams

  // ----- Errors -----------------------------------------------------------------------------------

  /** The hub's device among the outputs, or a dongle. */
  predicate HasLocal(outputs: seq<OutputId>) { LOCAL_OUTPUT_ID in outputs }
  ghost predicate HasDongle(outputs: seq<OutputId>) { exists o :: o in outputs && o != LOCAL_OUTPUT_ID }

  /** A dongle among the outputs is online. */
  ghost predicate Reachable(st: State, outputs: seq<OutputId>) {
    exists o :: o in outputs && o != LOCAL_OUTPUT_ID && IsOnline(st.registry, o)
  }

  /** The hub's device is open. */
  predicate DeviceIsOpen(st: State) {
    LOCAL_OUTPUT_ID in st.registry && st.registry[LOCAL_OUTPUT_ID].direct && st.registry[LOCAL_OUTPUT_ID].online
  }

  /** Every stream of the pool is another zone's. */
  ghost predicate PoolTaken(st: State, zone: ZoneId) {
    forall k :: 0 <= k < |st.routing.pool| ==> st.routing.pool[k].Some? && st.routing.pool[k] != Some(zone)
  }

  lemma {:induction false} ReachableIsOnline(st: State, outputs: seq<OutputId>)
    ensures Online(st.registry, Dongles(outputs)) != [] <==> Reachable(st, outputs)
    ensures Dongles(outputs) != [] <==> HasDongle(outputs)
  {
    var dongles := Dongles(outputs);
    var online := Online(st.registry, dongles);
    if dongles != [] {
      assert dongles[0] in outputs;
    }
    if online != [] {
      assert online[0] in dongles;
    }
  }

  /** The one error that resolving a sink gives, if any, told from the outputs and the state. */
  ghost predicate FailsWith(st: State, env: Env, zone: ZoneId, outputs: seq<OutputId>, e: EngineError) {
    match e
    case MixedZoneUnsupported => HasLocal(outputs) && HasDongle(outputs)
    case DeviceUnavailable => HasLocal(outputs) && !HasDongle(outputs) && !DeviceIsOpen(st) && !env.deviceOpens
    case ZoneHasNoOutputs => !HasLocal(outputs) && !Reachable(st, outputs)
    case Router(ServerDown) => !HasLocal(outputs) && Reachable(st, outputs) && !env.serverUp
    case Router(NoFreeStream) =>
      !HasLocal(outputs) && Reachable(st, outputs) && env.serverUp && PoolTaken(st, zone)
    case _ => false
  }

  lemma {:induction false} RequestFailsExactly(st: State, zone: ZoneId, clients: seq<Id>, up: bool, e: RouterError)
    requires Injective(st.routing.pool)
    ensures Requested(st.routing, zone, clients, up) == Err(e) <==>
            if e.ServerDown? then !up else up && PoolTaken(st, zone)
  {
    AllocateGrants(st.routing.pool, zone);
  }

  /** Each error of resolving a sink is answered exactly when it should be, and no other is. */
  lemma {:induction false} ZoneSinkFailsExactly(st: State, env: Env, zone: ZoneId, outputs: seq<OutputId>,
                                                e: EngineError)
    requires Injective(st.routing.pool)
    ensures ZoneSink(st, env, zone, outputs) == Err(e) <==> FailsWith(st, env, zone, outputs, e)
  {
    ReachableIsOnline(st, outputs);
    if e.Router? {
      RequestFailsExactly(st, zone, Online(st.registry, Dongles(outputs)), env.serverUp, e.error);
    }
  }

  /** Where a sink is resolved to: the hub's device, then open, or a stream of the zone, which is all that changes. */
  lemma {:induction false} ZoneSinkGivesExactly(st: State, env: Env, zone: ZoneId, outputs: seq<OutputId>)
    requires Injective(st.routing.pool) && ZoneSink(st, env, zone, outputs).Ok?
    ensures var (st', sink) := ZoneSink(st, env, zone, outputs).value;
            if HasLocal(outputs) then
              sink == Local && DeviceIsOpen(st') && st' == st.(registry := st'.registry)
              && (forall o :: o != LOCAL_OUTPUT_ID && o in st.registry ==> o in st'.registry)
              && (forall o :: o != LOCAL_OUTPUT_ID && o in st'.registry ==>
                    o in st.registry && st'.registry[o] == st.registry[o])
              && (DeviceIsOpen(st) ==> st' == st)
            else
              sink.Stream? && Holds(st'.routing.pool, sink.slot, zone) && st' == st.(routing := st'.routing)
              && (forall k :: Holds(st.routing.pool, k, zone) ==>
                    sink == Stream(k) && st'.routing.pool == st.routing.pool)
  {
    AllocateGrants(st.routing.pool, zone);
  }

  /** `play` fails for an unknown zone, or as resolving the zone's sink does. */
  lemma {:induction false} PlayFailsExactly(st: State, env: Env, zone: ZoneId, e: EngineError)
    requires Injective(st.routing.pool)
    ensures Play(st, env, zone) == Err(e) <==>
            if zone !in st.zones then e == UnknownZone
            else FailsWith(st, env, zone, st.zones[zone].outputs, e)
  {
    if zone in st.zones {
      ZoneSinkFailsExactly(st, env, zone, st.zones[zone].outputs, e);
    }
  }

  /** `reroute` refuses a source not in session, does nothing towards the same zone, and else fails as `play`. */
  lemma {:induction false} RerouteFailsExactly(st: State, env: Env, s: ZoneId, zone: ZoneId, e: EngineError)
    requires Injective(st.routing.pool)
    ensures Reroute(st, env, s, zone) == Err(e) <==>
            if !(s in st.sources && st.sources[s].active) then e == UnknownSource
            else if zone !in st.zones then zone != st.sources[s].dest && e == UnknownZone
            else zone != st.sources[s].dest && FailsWith(st, env, zone, st.zones[zone].outputs, e)
    ensures s in st.sources && st.sources[s].active && zone == st.sources[s].dest ==>
              Reroute(st, env, s, zone) == Ok(st)
  {
    if zone in st.zones {
      ZoneSinkFailsExactly(st, env, zone, st.zones[zone].outputs, e);
    }
  }

  /** The zone's outputs are refused for the first of three reasons, or become just what was asked for. */
  lemma {:induction false} SetZoneOutputsFailsExactly(st: State, zone: ZoneId, outputs: seq<OutputId>)
    ensures var mixed := HasLocal(outputs) && HasDongle(outputs);
            var unknown := exists o :: o in outputs && o != LOCAL_OUTPUT_ID && o !in st.registry;
            var r := SetZoneOutputs(st, zone, outputs);
            && (r == Err(MixedZoneUnsupported) <==> mixed)
            && (r == Err(UnknownOutput) <==> !mixed && unknown)
            && (r == Err(UnknownZone) <==> !mixed && !unknown && zone !in st.zones)
            && (r.Ok? <==> !mixed && !unknown && zone in st.zones)
            && (r.Ok? ==> zone in r.value.zones && r.value.zones[zone].outputs == outputs)
  {
    ReachableIsOnline(st, outputs);
  }

  lemma {:induction false} ZoneCallsFailExactly(st: State, zone: ZoneId, name: Text, e: EngineError)
    ensures DeleteZone(st, zone) == Err(e) <==> zone !in st.zones && e == UnknownZone
    ensures RenameZone(st, zone, name) == Err(e) <==> zone !in st.zones && e == UnknownZone
  {
  }

  // ----- The sink of a session --------------------------------------------------------------------

  /** A source that is in session and routed. */
  predicate Plays(st: State, s: ZoneId) { s in st.sources && st.sources[s].active && st.sources[s].routed }

  /** A routed session is answered the sink it has cached after the call, any other source none. */
  lemma {:induction false} SinkIsTheCachedOne(st: State, env: Env, s: ZoneId)
    ensures var (st', sink) := SinkForSource(st, env, s);
            && (Plays(st', s) <==> Plays(st, s))
            && sink == (if Plays(st, s) then WriterSink(st', SourceWriter(s)) else None)
            && (sink == None ==> st' == st)
  {
    if Plays(st, s) && st.sources[s].dest in st.zones {
      var dest := st.sources[s].dest;
      if ZoneSink(st, env, dest, st.zones[dest].outputs).Ok? {
        var (st1, _) := ZoneSink(st, env, dest, st.zones[dest].outputs).value;
        assert st1.sources == st.sources;
      }
    }
  }

  /** A routed session with no sink yet is answered none only if its destination is gone or resolving it fails. */
  lemma {:induction false} NoSinkExactly(st: State, env: Env, s: ZoneId)
    ensures var dest := if s in st.sources then st.sources[s].dest else s;
            SinkForSource(st, env, s).1 == None <==>
            || !Plays(st, s)
            || (st.sources[s].sink == None
                && (dest !in st.zones || ZoneSink(st, env, dest, st.zones[dest].outputs).Err?))
  {
    SinkIsTheCachedOne(st, env, s);
  }

  /** What was answered once is answered again, whatever the world is like then, and nothing changes any more. */
  lemma {:induction false} SinkIsAnsweredAgain(st: State, env: Env, later: Env, s: ZoneId)
    requires SinkForSource(st, env, s).1.Some?
    ensures SinkForSource(SinkForSource(st, env, s).0, later, s) == SinkForSource(st, env, s)
  {
    SinkIsTheCachedOne(st, env, s);
  }

  /** Where writers own their streams, a stream answered is the destination's, and nobody else writes into it. */
  lemma {:induction false} SinkIsTheDestinations(st: State, env: Env, s: ZoneId, k: nat, w: Writer)
    requires Tidy(st) && Owned(st) && SinkForSource(st, env, s).1 == Some(Stream(k))
    ensures var st' := SinkForSource(st, env, s).0;
            && Holds(st'.routing.pool, k, st.sources[s].dest)
            && (WriterSink(st', w) == Some(Stream(k)) ==> w == SourceWriter(s))
  {
    var st' := SinkForSource(st, env, s).0;
    SinkIsTheCachedOne(st, env, s);
    SinkForSourceKeepsOwned(st, env, s);
    SinkForSourceStaysTidy(st, env, s);
    SameDestination(st, env, s);
    if WriterSink(st', w) == Some(Stream(k)) {
      NoTwoWritersPerStream(st', w, SourceWriter(s), k);
    }
  }

  lemma {:induction false} SameDestination(st: State, env: Env, s: ZoneId)
    requires SinkForSource(st, env, s).1.Some?
    ensures s in SinkForSource(st, env, s).0.sources
    ensures SinkForSource(st, env, s).0.sources[s].dest == st.sources[s].dest
  {
  }

  /** In runs: with calls that are safe for streams so far, each answer is the destination's own stream. */
  lemma {:induction false} AnswersAreOwned(ops: seq<Op>, states: seq<State>, n: nat, env: Env, s: ZoneId, k: nat)
    requires IsRun(ops, states) && n <= |ops| && Obeyed(ops, states, n, SafeForStreams)
    requires SinkForSource(states[n], env, s).1 == Some(Stream(k))
    ensures Holds(SinkForSource(states[n], env, s).0.routing.pool, k, states[n].sources[s].dest)
  {
    RunKeepsStreamsExactly(ops, states, n);
    RunsStayTidy(ops, states, n);
    SinkIsTheDestinations(states[n], env, s, k, SourceWriter(s));
  }

  // ----- What play and stop leave -----------------------------------------------------------------

  /** A `play` that succeeds leaves the zone running a new pipeline into the hub's device, or the zone's stream. */
  lemma {:induction false} PlayRuns(st: State, env: Env, zone: ZoneId)
    requires Injective(st.routing.pool) && Play(st, env, zone).Ok?
    ensures var st' := Play(st, env, zone).value;
            && Runs(st', zone, st.spawned) && st'.spawned == st.spawned + 1
            && WriterSink(st', UrlWriter(zone)).Some?
            && var sink := WriterSink(st', UrlWriter(zone)).value;
               if HasLocal(st.zones[zone].outputs) then sink == Local
               else sink.Stream? && Holds(st'.routing.pool, sink.slot, zone)
  {
    ZoneSinkGivesExactly(st, env, zone, st.zones[zone].outputs);
    var (st1, sink) := ZoneSink(st, env, zone, st.zones[zone].outputs).value;
    TakeReplaces(st1, zone);
    assert PlayTake(st1, zone).spawned == st.spawned;
  }

  /** The zone's driver is taken from `st`: stopped or unrouted; no other driver changes, and no other source. */
  ghost predicate OnlyTaken(st: State, zone: ZoneId, st': State) {
    && (forall id: nat :: st'.stops[id] == st.stops[id] + if Runs(st, zone, id) then 1 else 0)
    && (forall s :: s in st.sources ==> s in st'.sources && st'.sources[s] == DetachedSource(st, zone, s))
    && (forall z :: z in st.zones && z != zone ==> z in st'.zones && st'.zones[z] == st.zones[z])
  }

  lemma {:induction false} TakeOnlyTakes(st: State, st1: State, zone: ZoneId)
    requires st1.zones == st.zones && st1.sources == st.sources && st1.stops == st.stops
    ensures OnlyTaken(st, zone, PlayTake(st1, zone))
  {
    TakeReplaces(st1, zone);
    TakeStops(st1, zone);
    forall id: nat ensures Runs(st1, zone, id) == Runs(st, zone, id) {
    }
    forall s | s in st.sources ensures DetachedSource(st1, zone, s) == DetachedSource(st, zone, s) {
    }
  }

  lemma {:induction false} PlayOnlyTakes(st: State, env: Env, zone: ZoneId)
    requires Play(st, env, zone).Ok?
    ensures OnlyTaken(st, zone, Play(st, env, zone).value)
  {
    var (st1, sink) := ZoneSink(st, env, zone, st.zones[zone].outputs).value;
    TakeOnlyTakes(st, st1, zone);
    InstallOnlyInstalls(PlayTake(st1, zone), zone, sink);
  }

  lemma {:induction false} InstallOnlyInstalls(st: State, zone: ZoneId, sink: Sink)
    ensures var st' := PlayInstall(st, zone, sink);
            && st'.stops == st.stops && st'.sources == st.sources
            && forall z :: z in st.zones && z != zone ==> z in st'.zones && st'.zones[z] == st.zones[z]
  {
  }

  /** A `stop` leaves the zone without driver, stream and desired clients; it stops just the zone's own driver. */
  lemma {:induction false} StopLeaves(st: State, zone: ZoneId)
    requires Injective(st.routing.pool)
    ensures var st' := Stop(st, zone);
            && CurrentDriver(st', zone) == None && zone !in st'.routing.desired
            && (forall k, z :: Holds(st'.routing.pool, k, z) <==> z != zone && Holds(st.routing.pool, k, z))
            && OnlyTaken(st, zone, st')
  {
    TakeReplaces(st, zone);
    TakeOnlyTakes(st, st, zone);
    ReleaseTakesOnlyOwn(st.routing.pool, zone);
  }
}
