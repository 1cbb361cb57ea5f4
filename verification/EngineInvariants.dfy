/**
 What every call of the engine keeps (src/audio/engine.rs), part by part: sources at home and streams given
 out once are kept by every call; drivers, pipelines and stream ownership each exactly under the condition
 on a few calls that is stated here.
 */
module EngineInvariants {
  import opened Wrappers
  import opened StreamPools
  import opened SnapcastRouters
  import opened EngineState
  import opened EngineParts

  // ----- Sources at home, an injective pool: every call ------------------------------------------

  lemma {:induction false} ResolvedStaysTidy(st: State, st': State)
    requires Tidy(st) && Resolved(st, st')
    ensures Tidy(st')
  {
  }

  lemma {:induction false} TakeStaysTidy(st: State, zone: ZoneId)
    requires Tidy(st)
    ensures Tidy(PlayTake(st, zone)) && CurrentDriver(PlayTake(st, zone), zone) == None
  {
    TakeReplaces(st, zone);
  }

  lemma {:induction false} FreeStaysTidy(st: State, zone: ZoneId)
    requires Tidy(st)
    ensures Tidy(Freed(st, zone))
  {
    ReleaseTakesOnlyOwn(st.routing.pool, zone);
  }

  lemma {:induction false} BeganStaysTidy(st: State, s: ZoneId, st': State)
    requires Tidy(st) && s in st.sources && Began(st, s, st')
    ensures Tidy(st')
  {
  }

  lemma {:induction false} EndedStaysTidy(st: State, s: ZoneId, st': State)
    requires Tidy(st) && s in st.sources && Ended(st, s, st')
    ensures Tidy(st')
  {
    ReleaseTakesOnlyOwn(st.routing.pool, st.sources[s].dest);
  }

  lemma {:induction false} MovedStaysTidy(st: State, s: ZoneId, zone: ZoneId, sink: Sink, st': State)
    requires Tidy(st) && s in st.sources && st.sources[s].active && Moved(st, s, zone, sink, st')
    ensures Tidy(st')
  {
    ReleaseTakesOnlyOwn(st.routing.pool, st.sources[s].dest);
    assert Injective(st'.routing.pool);
    assert IdleAtHome(st') by {
      forall t | t in st'.sources && t != s ensures st'.sources[t] == DetachedSource(st, zone, t) {
      }
    }
  }

  lemma {:induction false} RoutesNothingStaysTidy(st: State, st': State)
    requires Tidy(st) && RoutesNothing(st, st')
    ensures Tidy(st')
  {
  }

  lemma {:induction false} CreatedStaysTidy(st: State, id: ZoneId, st': State)
    requires Tidy(st) && Created(st, id, st')
    ensures Tidy(st')
  {
  }

  lemma {:induction false} DeletedStaysTidy(st: State, zone: ZoneId, st': State)
    requires Tidy(st) && Deleted(st, zone, st')
    ensures Tidy(st')
  {
    ReleaseTakesOnlyOwn(st.routing.pool, zone);
  }

  lemma {:induction false} PlayStaysTidy(st: State, env: Env, zone: ZoneId)
    requires Tidy(st) && Play(st, env, zone).Ok?
    ensures Tidy(Play(st, env, zone).value)
  {
    ZoneSinkGrants(st, env, zone, st.zones[zone].outputs);
    var (st1, sink) := ZoneSink(st, env, zone, st.zones[zone].outputs).value;
    ResolvedStaysTidy(st, st1);
    TakeStaysTidy(st1, zone);
    InstallStaysTidy(PlayTake(st1, zone), zone, sink);
  }

  lemma {:induction false} InstallStaysTidy(st: State, zone: ZoneId, sink: Sink)
    requires Tidy(st)
    ensures Tidy(PlayInstall(st, zone, sink))
  {
  }

  lemma {:induction false} RerouteStaysTidy(st: State, env: Env, s: ZoneId, zone: ZoneId)
    requires Tidy(st) && Reroute(st, env, s, zone).Ok?
    ensures Tidy(Reroute(st, env, s, zone).value)
  {
    if zone != st.sources[s].dest {
      ZoneSinkGrants(st, env, zone, st.zones[zone].outputs);
      var (st1, sink) := ZoneSink(st, env, zone, st.zones[zone].outputs).value;
      ResolvedStaysTidy(st, st1);
      MovedEffect(st1, s, zone, sink);
      MovedStaysTidy(st1, s, zone, sink, Rerouted(st1, s, zone, sink));
    }
  }

  lemma {:induction false} SinkForSourceStaysTidy(st: State, env: Env, s: ZoneId)
    requires Tidy(st)
    ensures Tidy(SinkForSource(st, env, s).0)
  {
    if s in st.sources && st.sources[s].dest in st.zones {
      var dest := st.sources[s].dest;
      if ZoneSink(st, env, dest, st.zones[dest].outputs).Ok? {
        ZoneSinkGrants(st, env, dest, st.zones[dest].outputs);
        var (st1, sink) := ZoneSink(st, env, dest, st.zones[dest].outputs).value;
        ResolvedStaysTidy(st, st1);
        CachedStaysTidy(st1, s, Cached(sink, dest));
      }
    }
  }

  lemma {:induction false} CachedStaysTidy(st: State, s: ZoneId, cached: Cached)
    requires Tidy(st)
    ensures Tidy(SinkCached(st, s, cached).0)
  {
  }

  /** The calls that resolve sinks or stop what plays. */
  predicate IsPlayback(op: Op) { op.OpPlay? || op.OpStop? || op.OpReroute? || op.OpSinkForSource? }

  /** The calls that begin or end sessions, and those that make or remove zones. */
  predicate IsSessionOrZone(op: Op) {
    op.OpSessionBegan? || op.OpSessionEnded? || op.OpCreateZone? || op.OpDeleteZone?
  }

  lemma {:induction false} PlaybackStaysTidy(st: State, op: Op)
    requires Tidy(st) && IsPlayback(op)
    ensures Tidy(Step(st, op))
  {
    match op {
      case OpPlay(env, zone) => if Play(st, env, zone).Ok? { PlayStaysTidy(st, env, zone); }
      case OpStop(zone) => TakeStaysTidy(st, zone); FreeStaysTidy(PlayTake(st, zone), zone);
      case OpReroute(env, s, zone) => if Reroute(st, env, s, zone).Ok? { RerouteStaysTidy(st, env, s, zone); }
      case OpSinkForSource(env, s) => SinkForSourceStaysTidy(st, env, s);
    }
  }

  lemma {:induction false} SessionBeganStaysTidy(st: State, s: ZoneId)
    requires Tidy(st)
    ensures Tidy(SessionBegan(st, s))
  {
    if s in st.sources {
      BeganEffect(st, s);
      BeganStaysTidy(st, s, SessionBegan(st, s));
    }
  }

  lemma {:induction false} SessionEndedStaysTidy(st: State, s: ZoneId)
    requires Tidy(st)
    ensures Tidy(SessionEnded(st, s))
  {
    if s in st.sources {
      EndedEffect(st, s);
      EndedStaysTidy(st, s, SessionEnded(st, s));
    }
  }

  lemma {:induction false} CreateZoneStaysTidy(st: State, id: ZoneId, name: Text)
    requires Tidy(st)
    ensures Tidy(CreateZone(st, id, name))
  {
    CreatedEffect(st, id, name);
    CreatedStaysTidy(st, id, CreateZone(st, id, name));
  }

  lemma {:induction false} DeleteZoneStaysTidy(st: State, zone: ZoneId)
    requires Tidy(st)
    ensures Tidy(OrElse(DeleteZone(st, zone), st))
  {
    if zone in st.zones {
      DeletedEffect(st, zone);
      DeletedStaysTidy(st, zone, DeleteZone(st, zone).value);
    }
  }

  lemma {:induction false} SessionOrZoneStaysTidy(st: State, op: Op)
    requires Tidy(st) && IsSessionOrZone(op)
    ensures Tidy(Step(st, op))
  {
    match op {
      case OpSessionBegan(s) => SessionBeganStaysTidy(st, s);
      case OpSessionEnded(s) => SessionEndedStaysTidy(st, s);
      case OpCreateZone(id, name) => CreateZoneStaysTidy(st, id, name);
      case OpDeleteZone(zone) => DeleteZoneStaysTidy(st, zone);
    }
  }

  /** No call, safe or not, breaks this part: an idle source is at home, unrouted and without a sink. */
  lemma {:induction false} StepStaysTidy(st: State, op: Op)
    requires Tidy(st)
    ensures Tidy(Step(st, op))
  {
    if IsPlayback(op) {
      PlaybackStaysTidy(st, op);
    } else if IsSessionOrZone(op) {
      SessionOrZoneStaysTidy(st, op);
    } else {
      QuietStepRoutesNothing(st, op);
      RoutesNothingStaysTidy(st, Step(st, op));
    }
  }

  // ----- Drivers and routes agree -----------------------------------------------------------------

  /** The guard of `session_began`: a source that is not already some zone's driver, with a zone to drive. */
  predicate MayBegin(st: State, s: ZoneId) {
    s in st.sources ==> !st.sources[s].routed && st.sources[s].dest in st.zones
  }

  /** The guard that would make `delete_zone` safe: the zone's own source does not feed another zone. */
  predicate MayDelete(st: State, zone: ZoneId) {
    zone in st.zones && zone in st.sources && st.sources[zone].routed ==> st.sources[zone].dest == zone
  }

  /** No AirPlay source, or no URL, drives the zone whose id is generated. */
  predicate NoSourceDrives(st: State, id: ZoneId) { CurrentDriver(st, id).Some? ==> CurrentDriver(st, id).value.Url? }

  predicate NoUrlDrives(st: State, id: ZoneId) { CurrentDriver(st, id).Some? ==> CurrentDriver(st, id).value.Airplay? }

  /** The exact condition, checkable before the call, under which `op` keeps drivers and routes in agreement. */
  predicate SafeForDrivers(st: State, op: Op) {
    match op
    case OpSessionBegan(s) => MayBegin(st, s)
    case OpDeleteZone(zone) => MayDelete(st, zone)
    case OpCreateZone(id, _) => NoSourceDrives(st, id)
    case _ => true
  }

  /** Zones and sources route and drive as before. */
  ghost predicate SameDrivers(st: State, st': State) {
    && st'.zones.Keys == st.zones.Keys && st'.sources.Keys == st.sources.Keys
    && (forall z :: z in st.zones ==> st'.zones[z].current == st.zones[z].current)
    && (forall s :: s in st.sources ==>
          st'.sources[s].dest == st.sources[s].dest && st'.sources[s].active == st.sources[s].active
          && st'.sources[s].routed == st.sources[s].routed)
  }

  lemma {:induction false} SameDriversAgree(st: State, st': State)
    requires DriversAgree(st) && SameDrivers(st, st')
    ensures DriversAgree(st')
  {
    forall s | s in st'.sources && st'.sources[s].routed ensures DrivenBy(st', st'.sources[s].dest, s) {
      assert DrivenBy(st, st.sources[s].dest, s);
    }
    forall z | z in st'.zones && st'.zones[z].current.Some? && st'.zones[z].current.value.Airplay?
      ensures Feeds(st', st'.zones[z].current.value.source, z)
    {
      assert Feeds(st, st.zones[z].current.value.source, z);
    }
  }

  lemma {:induction false} TakeDrivers(st: State, zone: ZoneId)
    requires DriversAgree(st)
    ensures DriversAgree(PlayTake(st, zone))
  {
    var st' := PlayTake(st, zone);
    TakeReplaces(st, zone);
    TakenDrivers(st, zone, st');
  }

  lemma {:induction false} TakenDrivers(st: State, zone: ZoneId, st': State)
    requires DriversAgree(st) && DriverReplaced(st, zone, None, st')
    ensures DriversAgree(st')
  {
    forall s | s in st'.sources && st'.sources[s].routed ensures DrivenBy(st', st'.sources[s].dest, s) {
      assert st.sources[s].routed && !DrivenBy(st, zone, s);
    }
  }

  lemma {:induction false} InstallDrivers(st: State, zone: ZoneId, sink: Sink)
    requires DriversAgree(st) && NoSourceDrives(st, zone)
    ensures DriversAgree(PlayInstall(st, zone, sink))
  {
    var st' := PlayInstall(st, zone, sink);
    forall s | s in st'.sources && st'.sources[s].routed ensures DrivenBy(st', st'.sources[s].dest, s) {
      assert DrivenBy(st, st.sources[s].dest, s);
    }
  }

  lemma {:induction false} PlayDrivers(st: State, env: Env, zone: ZoneId)
    requires Tidy(st) && DriversAgree(st) && Play(st, env, zone).Ok?
    ensures DriversAgree(Play(st, env, zone).value)
  {
    ZoneSinkGrants(st, env, zone, st.zones[zone].outputs);
    var (st1, sink) := ZoneSink(st, env, zone, st.zones[zone].outputs).value;
    SameDriversAgree(st, st1);
    TakeDrivers(st1, zone);
    TakeReplaces(st1, zone);
    InstallDrivers(PlayTake(st1, zone), zone, sink);
  }

  lemma {:induction false} StopDrivers(st: State, zone: ZoneId)
    requires DriversAgree(st)
    ensures DriversAgree(Stop(st, zone))
  {
    TakeDrivers(st, zone);
    SameDriversAgree(PlayTake(st, zone), Stop(st, zone));
  }

  /** `session_began` is safe exactly when the source is not routed yet and its destination exists. */
  lemma {:induction false} SessionBeganKeepsExactly(st: State, s: ZoneId)
    requires DriversAgree(st)
    ensures DriversAgree(SessionBegan(st, s)) <==> MayBegin(st, s)
  {
    if s in st.sources {
      BeganEffect(st, s);
      if MayBegin(st, s) {
        BeganDrivers(st, s, SessionBegan(st, s));
      } else {
        BeginBreaks(st, s, SessionBegan(st, s));
      }
    }
  }

  /** A second begin detaches the source from the zone it drives; a begin without a zone drives nothing. */
  lemma {:induction false} BeginBreaks(st: State, s: ZoneId, st': State)
    requires DriversAgree(st) && s in st.sources && !MayBegin(st, s) && Began(st, s, st')
    ensures !DriversAgree(st')
  {
    var dest := st.sources[s].dest;
    if st.sources[s].routed {
      assert DrivenBy(st, dest, s);
      assert DrivenBy(st', dest, s) && !Feeds(st', s, dest);
    } else {
      assert st'.sources[s].routed && st'.sources[s].dest == dest && !DrivenBy(st', dest, s);
    }
  }

  lemma {:induction false} BeganDrivers(st: State, s: ZoneId, st': State)
    requires DriversAgree(st) && s in st.sources && MayBegin(st, s) && Began(st, s, st')
    ensures DriversAgree(st')
  {
    var dest := st.sources[s].dest;
    assert !DrivenBy(st, dest, s);
    forall t | t in st'.sources && st'.sources[t].routed ensures DrivenBy(st', st'.sources[t].dest, t) {
      if t != s {
        assert st.sources[t].routed && !DrivenBy(st, dest, t);
      }
    }
  }

  lemma {:induction false} EndedDrivers(st: State, s: ZoneId, st': State)
    requires DriversAgree(st) && s in st.sources && Ended(st, s, st')
    ensures DriversAgree(st')
  {
    forall t | t in st'.sources && st'.sources[t].routed ensures DrivenBy(st', st'.sources[t].dest, t) {
      assert t != s && st.sources[t].routed;
      assert DrivenBy(st, st.sources[t].dest, t);
    }
    forall z | z in st'.zones && st'.zones[z].current.Some? && st'.zones[z].current.value.Airplay?
      ensures Feeds(st', st'.zones[z].current.value.source, z)
    {
      assert Feeds(st, st.zones[z].current.value.source, z);
    }
  }

  lemma {:induction false} MovedDrivers(st: State, s: ZoneId, zone: ZoneId, sink: Sink, st': State)
    requires DriversAgree(st) && s in st.sources && st.sources[s].active
    requires zone in st.zones && zone != st.sources[s].dest && Moved(st, s, zone, sink, st')
    ensures DriversAgree(st')
  {
    DriverIffFeeds(st, zone, s);
    forall t | t in st'.sources && st'.sources[t].routed ensures DrivenBy(st', st'.sources[t].dest, t) {
      if t != s {
        assert st.sources[t].routed && !DrivenBy(st, zone, t);
        assert DrivenBy(st, st.sources[t].dest, t);
      }
    }
    forall z | z in st'.zones && st'.zones[z].current.Some? && st'.zones[z].current.value.Airplay?
      ensures Feeds(st', st'.zones[z].current.value.source, z)
    {
      if z != zone {
        assert Feeds(st, st.zones[z].current.value.source, z);
      }
    }
  }

  lemma {:induction false} RerouteDrivers(st: State, env: Env, s: ZoneId, zone: ZoneId)
    requires Tidy(st) && DriversAgree(st) && Reroute(st, env, s, zone).Ok?
    ensures DriversAgree(Reroute(st, env, s, zone).value)
  {
    if zone != st.sources[s].dest {
      ZoneSinkGrants(st, env, zone, st.zones[zone].outputs);
      var (st1, sink) := ZoneSink(st, env, zone, st.zones[zone].outputs).value;
      SameDriversAgree(st, st1);
      MovedEffect(st1, s, zone, sink);
      MovedDrivers(st1, s, zone, sink, Rerouted(st1, s, zone, sink));
    }
  }

  lemma {:induction false} SinkForSourceSameDrivers(st: State, env: Env, s: ZoneId)
    requires Tidy(st)
    ensures SameDrivers(st, SinkForSource(st, env, s).0)
  {
    if s in st.sources && st.sources[s].dest in st.zones {
      var dest := st.sources[s].dest;
      if ZoneSink(st, env, dest, st.zones[dest].outputs).Ok? {
        ZoneSinkGrants(st, env, dest, st.zones[dest].outputs);
      }
    }
  }

  lemma {:induction false} RoutesNothingDrivers(st: State, st': State)
    requires DriversAgree(st) && RoutesNothing(st, st')
    ensures DriversAgree(st')
  {
    forall s | s in st'.sources && st'.sources[s].routed ensures DrivenBy(st', st'.sources[s].dest, s) {
      assert DrivenBy(st, st.sources[s].dest, s);
    }
    forall z | z in st'.zones && st'.zones[z].current.Some? && st'.zones[z].current.value.Airplay?
      ensures Feeds(st', st'.zones[z].current.value.source, z)
    {
      assert Feeds(st, st.zones[z].current.value.source, z);
    }
  }

  lemma {:induction false} CreatedDrivers(st: State, id: ZoneId, st': State)
    requires Tidy(st) && DriversAgree(st) && Created(st, id, st')
    ensures DriversAgree(st') <==> NoSourceDrives(st, id)
  {
    if NoSourceDrives(st, id) {
      forall s | s in st'.sources && st'.sources[s].routed ensures DrivenBy(st', st'.sources[s].dest, s) {
        assert DrivenBy(st, st.sources[s].dest, s);
      }
      forall z | z in st'.zones && st'.zones[z].current.Some? && st'.zones[z].current.value.Airplay?
        ensures Feeds(st', st'.zones[z].current.value.source, z)
      {
        assert Feeds(st, st.zones[z].current.value.source, z);
      }
    } else {
      var s := CurrentDriver(st, id).value.source;
      assert Feeds(st, s, id) && SameRoute(st'.sources[s], st.sources[s]);
      assert !DrivenBy(st', id, s);
    }
  }

  lemma {:induction false} DeletedDrivers(st: State, zone: ZoneId, st': State)
    requires Tidy(st) && DriversAgree(st) && zone in st.zones && Deleted(st, zone, st')
    ensures DriversAgree(st') <==> MayDelete(st, zone)
  {
    forall s | s in st'.sources && st'.sources[s].routed ensures DrivenBy(st', st'.sources[s].dest, s) {
      assert s in st.sources && st.sources[s].routed && !DrivenBy(st, zone, s);
      assert DrivenBy(st, st.sources[s].dest, s);
    }
    if MayDelete(st, zone) {
      forall z | z in st'.zones && st'.zones[z].current.Some? && st'.zones[z].current.value.Airplay?
        ensures Feeds(st', st'.zones[z].current.value.source, z)
      {
        assert Feeds(st, st.zones[z].current.value.source, z);
      }
    } else {
      assert DrivenBy(st, st.sources[zone].dest, zone);
      assert !Feeds(st', zone, st.sources[zone].dest);
    }
  }

  /** `create_zone` is safe for the drivers exactly when its id is not that of a zone a source drives. */
  lemma {:induction false} CreateZoneKeepsExactly(st: State, id: ZoneId, name: Text)
    requires Tidy(st) && DriversAgree(st)
    ensures DriversAgree(CreateZone(st, id, name)) <==> NoSourceDrives(st, id)
  {
    CreatedEffect(st, id, name);
    CreatedDrivers(st, id, CreateZone(st, id, name));
  }

  /**
   Deleting a zone drops its own source; it is safe for the drivers exactly when that source was not
   feeding another zone, whose driver would then name a source that no longer exists.
   */
  lemma {:induction false} DeleteZoneKeepsExactly(st: State, zone: ZoneId)
    requires Tidy(st) && DriversAgree(st) && DeleteZone(st, zone).Ok?
    ensures DriversAgree(DeleteZone(st, zone).value) <==> MayDelete(st, zone)
  {
    DeletedEffect(st, zone);
    DeletedDrivers(st, zone, DeleteZone(st, zone).value);
  }

  lemma {:induction false} PlaybackKeepsDrivers(st: State, op: Op)
    requires Tidy(st) && DriversAgree(st) && IsPlayback(op)
    ensures DriversAgree(Step(st, op))
  {
    match op {
      case OpPlay(env, zone) => if Play(st, env, zone).Ok? { PlayDrivers(st, env, zone); }
      case OpStop(zone) => StopDrivers(st, zone);
      case OpReroute(env, s, zone) => if Reroute(st, env, s, zone).Ok? { RerouteDrivers(st, env, s, zone); }
      case OpSinkForSource(env, s) =>
        SinkForSourceSameDrivers(st, env, s);
        SameDriversAgree(st, SinkForSource(st, env, s).0);
    }
  }

  lemma {:induction false} SessionOrZoneKeepsDriversExactly(st: State, op: Op)
    requires Tidy(st) && DriversAgree(st) && IsSessionOrZone(op)
    ensures DriversAgree(Step(st, op)) <==> SafeForDrivers(st, op)
  {
    match op {
      case OpSessionBegan(s) => SessionBeganKeepsExactly(st, s);
      case OpSessionEnded(s) => if s in st.sources { EndedEffect(st, s); EndedDrivers(st, s, SessionEnded(st, s)); }
      case OpCreateZone(id, name) => CreateZoneKeepsExactly(st, id, name);
      case OpDeleteZone(zone) => if zone in st.zones { DeleteZoneKeepsExactly(st, zone); }
    }
  }

  /** A zone's driver is a source iff that source feeds it: every call keeps this exactly when it is safe for it. */
  lemma {:induction false} StepKeepsDriversExactly(st: State, op: Op)
    requires Tidy(st) && DriversAgree(st)
    ensures DriversAgree(Step(st, op)) <==> SafeForDrivers(st, op)
  {
    if IsPlayback(op) {
      PlaybackKeepsDrivers(st, op);
    } else if IsSessionOrZone(op) {
      SessionOrZoneKeepsDriversExactly(st, op);
    } else {
      QuietStepRoutesNothing(st, op);
      RoutesNothingDrivers(st, Step(st, op));
    }
  }

  // ----- Pipelines accounted for ------------------------------------------------------------------

  /** The exact condition under which `op` keeps every pipeline accounted for. */
  predicate SafeForPipelines(st: State, op: Op) {
    match op
    case OpCreateZone(id, _) => NoUrlDrives(st, id)
    case _ => true
  }

  /** Pipelines stay accounted for when no zone gains or loses one. */
  lemma {:induction false} SamePipelines(st: State, st': State)
    requires PipelinesAccounted(st) && st'.spawned == st.spawned && st'.stops == st.stops
    requires forall z, id: nat :: Runs(st', z, id) <==> Runs(st, z, id)
    ensures PipelinesAccounted(st')
  {
    forall y, z, id: nat | Runs(st', y, id) && Runs(st', z, id) ensures y == z {
      assert Runs(st, y, id) && Runs(st, z, id);
    }
    forall id: nat | id < st'.spawned ensures st'.stops[id] == 1 || exists z :: Runs(st', z, id) {
      if st.stops[id] != 1 {
        var z :| Runs(st, z, id);
        assert Runs(st', z, id);
      }
    }
  }

  lemma {:induction false} TakePipelines(st: State, zone: ZoneId)
    requires PipelinesAccounted(st)
    ensures PipelinesAccounted(PlayTake(st, zone))
  {
    var st' := PlayTake(st, zone);
    TakeStops(st, zone);
    TakeReplaces(st, zone);
    TakenPipelines(st, zone, st');
  }

  lemma {:induction false} TakenPipelines(st: State, zone: ZoneId, st': State)
    requires PipelinesAccounted(st) && DriverReplaced(st, zone, None, st') && st'.spawned == st.spawned
    requires forall id: nat :: st'.stops[id] == st.stops[id] + if Runs(st, zone, id) then 1 else 0
    ensures PipelinesAccounted(st')
  {
    forall z, id: nat ensures Runs(st', z, id) <==> z != zone && Runs(st, z, id) {
    }
    forall id: nat | id < st'.spawned ensures st'.stops[id] == 1 || exists z :: Runs(st', z, id) {
      if !Runs(st, zone, id) && st.stops[id] != 1 {
        var z :| Runs(st, z, id);
        assert Runs(st', z, id);
      }
    }
  }

  lemma {:induction false} InstallPipelines(st: State, zone: ZoneId, sink: Sink)
    requires PipelinesAccounted(st) && zone in st.zones && NoUrlDrives(st, zone)
    ensures PipelinesAccounted(PlayInstall(st, zone, sink))
  {
    var st' := PlayInstall(st, zone, sink);
    forall z, id: nat ensures Runs(st', z, id) <==> (z == zone && id == st.spawned) || Runs(st, z, id) {
    }
    forall id: nat | id < st'.spawned ensures st'.stops[id] == 1 || exists z :: Runs(st', z, id) {
      if id == st.spawned {
        assert Runs(st', zone, id);
      } else if st.stops[id] != 1 {
        var z :| Runs(st, z, id);
        assert Runs(st', z, id);
      }
    }
  }

  lemma {:induction false} PlayPipelines(st: State, env: Env, zone: ZoneId)
    requires Tidy(st) && PipelinesAccounted(st) && Play(st, env, zone).Ok?
    ensures PipelinesAccounted(Play(st, env, zone).value)
  {
    ZoneSinkGrants(st, env, zone, st.zones[zone].outputs);
    var (st1, sink) := ZoneSink(st, env, zone, st.zones[zone].outputs).value;
    SamePipelines(st, st1);
    TakePipelines(st1, zone);
    TakeReplaces(st1, zone);
    InstallPipelines(PlayTake(st1, zone), zone, sink);
  }

  lemma {:induction false} StopPipelines(st: State, zone: ZoneId)
    requires PipelinesAccounted(st)
    ensures PipelinesAccounted(Stop(st, zone))
  {
    TakePipelines(st, zone);
    SamePipelines(PlayTake(st, zone), Stop(st, zone));
  }

  /** Whatever replaces a zone's driver by a source detaches the old one as taking it would. */
  lemma {:induction false} ReplacedPipelines(st: State, zone: ZoneId, st': State)
    requires PipelinesAccounted(st) && st'.spawned == st.spawned && st'.stops == PlayTake(st, zone).stops
    requires forall z, id: nat :: Runs(st', z, id) <==> z != zone && Runs(st, z, id)
    ensures PipelinesAccounted(st')
  {
    var taken := PlayTake(st, zone);
    TakePipelines(st, zone);
    TakeReplaces(st, zone);
    TakeSpawnsNothing(st, zone);
    SamePipelines(taken, st');
  }

  lemma {:induction false} TakeSpawnsNothing(st: State, zone: ZoneId)
    ensures PlayTake(st, zone).spawned == st.spawned
  {
  }

  lemma {:induction false} BeganPipelines(st: State, s: ZoneId, st': State)
    requires PipelinesAccounted(st) && s in st.sources && Began(st, s, st')
    ensures PipelinesAccounted(st')
  {
    ReplacedPipelines(st, st.sources[s].dest, st');
  }

  lemma {:induction false} EndedPipelines(st: State, s: ZoneId, st': State)
    requires PipelinesAccounted(st) && s in st.sources && Ended(st, s, st')
    ensures PipelinesAccounted(st')
  {
    SamePipelines(st, st');
  }

  lemma {:induction false} RoutesNothingPipelines(st: State, st': State)
    requires PipelinesAccounted(st) && RoutesNothing(st, st')
    ensures PipelinesAccounted(st')
  {
    SamePipelines(st, st');
  }

  lemma {:induction false} MovedPipelines(st: State, s: ZoneId, zone: ZoneId, sink: Sink, st': State)
    requires PipelinesAccounted(st) && s in st.sources && zone in st.zones && Moved(st, s, zone, sink, st')
    ensures PipelinesAccounted(st')
  {
    ReplacedPipelines(st, zone, st');
  }

  lemma {:induction false} DeletedPipelines(st: State, zone: ZoneId, st': State)
    requires PipelinesAccounted(st) && zone in st.zones && Deleted(st, zone, st')
    ensures PipelinesAccounted(st')
  {
    ReplacedPipelines(st, zone, st');
  }

  lemma {:induction false} ReroutePipelines(st: State, env: Env, s: ZoneId, zone: ZoneId)
    requires Tidy(st) && PipelinesAccounted(st) && Reroute(st, env, s, zone).Ok?
    ensures PipelinesAccounted(Reroute(st, env, s, zone).value)
  {
    if zone != st.sources[s].dest {
      ZoneSinkGrants(st, env, zone, st.zones[zone].outputs);
      var (st1, sink) := ZoneSink(st, env, zone, st.zones[zone].outputs).value;
      SamePipelines(st, st1);
      MovedEffect(st1, s, zone, sink);
      MovedPipelines(st1, s, zone, sink, Rerouted(st1, s, zone, sink));
    }
  }

  lemma {:induction false} SinkForSourcePipelines(st: State, env: Env, s: ZoneId)
    requires Tidy(st) && PipelinesAccounted(st)
    ensures PipelinesAccounted(SinkForSource(st, env, s).0)
  {
    if s in st.sources && st.sources[s].dest in st.zones {
      var dest := st.sources[s].dest;
      if ZoneSink(st, env, dest, st.zones[dest].outputs).Ok? {
        ZoneSinkGrants(st, env, dest, st.zones[dest].outputs);
        var (st1, sink) := ZoneSink(st, env, dest, st.zones[dest].outputs).value;
        SamePipelines(st, st1);
        SamePipelines(st1, SinkCached(st1, s, Cached(sink, dest)).0);
      }
    }
  }

  /** A zone that runs a URL and is overwritten leaves a pipeline that no zone runs and nobody stopped. */
  lemma {:induction false} CreatedPipelines(st: State, id: ZoneId, st': State)
    requires PipelinesAccounted(st) && Created(st, id, st')
    ensures PipelinesAccounted(st') <==> NoUrlDrives(st, id)
  {
    if NoUrlDrives(st, id) {
      SamePipelines(st, st');
    } else {
      var p := CurrentDriver(st, id).value.pipeline.id;
      assert Runs(st, id, p);
      forall z ensures !Runs(st', z, p) {
        assert Runs(st', z, p) ==> Runs(st, z, p);
      }
    }
  }

  lemma {:induction false} PlaybackKeepsPipelines(st: State, op: Op)
    requires Tidy(st) && PipelinesAccounted(st) && IsPlayback(op)
    ensures PipelinesAccounted(Step(st, op))
  {
    match op {
      case OpPlay(env, zone) => if Play(st, env, zone).Ok? { PlayPipelines(st, env, zone); }
      case OpStop(zone) => StopPipelines(st, zone);
      case OpReroute(env, s, zone) => if Reroute(st, env, s, zone).Ok? { ReroutePipelines(st, env, s, zone); }
      case OpSinkForSource(env, s) => SinkForSourcePipelines(st, env, s);
    }
  }

  lemma {:induction false} SessionBeganPipelines(st: State, s: ZoneId)
    requires PipelinesAccounted(st)
    ensures PipelinesAccounted(SessionBegan(st, s))
  {
    if s in st.sources {
      BeganEffect(st, s);
      BeganPipelines(st, s, SessionBegan(st, s));
    }
  }

  lemma {:induction false} SessionEndedPipelines(st: State, s: ZoneId)
    requires PipelinesAccounted(st)
    ensures PipelinesAccounted(SessionEnded(st, s))
  {
    if s in st.sources {
      EndedEffect(st, s);
      EndedPipelines(st, s, SessionEnded(st, s));
    }
  }

  lemma {:induction false} CreateZonePipelines(st: State, id: ZoneId, name: Text)
    requires Homed(st) && PipelinesAccounted(st)
    ensures PipelinesAccounted(CreateZone(st, id, name)) <==> NoUrlDrives(st, id)
  {
    CreatedEffect(st, id, name);
    CreatedPipelines(st, id, CreateZone(st, id, name));
  }

  lemma {:induction false} DeleteZonePipelines(st: State, zone: ZoneId)
    requires Homed(st) && PipelinesAccounted(st)
    ensures PipelinesAccounted(OrElse(DeleteZone(st, zone), st))
  {
    if zone in st.zones {
      DeletedEffect(st, zone);
      DeletedPipelines(st, zone, DeleteZone(st, zone).value);
    }
  }

  lemma {:induction false} SessionOrZoneKeepsPipelinesExactly(st: State, op: Op)
    requires Tidy(st) && PipelinesAccounted(st) && IsSessionOrZone(op)
    ensures PipelinesAccounted(Step(st, op)) <==> SafeForPipelines(st, op)
  {
    match op {
      case OpSessionBegan(s) => SessionBeganPipelines(st, s);
      case OpSessionEnded(s) => SessionEndedPipelines(st, s);
      case OpCreateZone(id, name) => CreateZonePipelines(st, id, name);
      case OpDeleteZone(zone) => DeleteZonePipelines(st, zone);
    }
  }

  /** Every pipeline runs in one zone or was stopped once: every call keeps this exactly when it is safe for it. */
  lemma {:induction false} StepKeepsPipelinesExactly(st: State, op: Op)
    requires Tidy(st) && PipelinesAccounted(st)
    ensures PipelinesAccounted(Step(st, op)) <==> SafeForPipelines(st, op)
  {
    if IsPlayback(op) {
      PlaybackKeepsPipelines(st, op);
    } else if IsSessionOrZone(op) {
      SessionOrZoneKeepsPipelinesExactly(st, op);
    } else {
      QuietStepRoutesNothing(st, op);
      RoutesNothingPipelines(st, Step(st, op));
    }
  }

  // ----- Every run --------------------------------------------------------------------------------

  lemma {:induction false} InitialInv()
    ensures Inv(Initial())
  {
  }

  /** In every run, whatever is called: sources at home or in session, and no stream held twice. */
  lemma {:induction false} RunsStayTidy(ops: seq<Op>, states: seq<State>, n: nat)
    requires IsRun(ops, states) && n <= |ops|
    ensures Tidy(states[n])
  {
    if n == 0 {
      InitialInv();
    } else {
      RunsStayTidy(ops, states, n - 1);
      StepStaysTidy(states[n - 1], ops[n - 1]);
    }
  }

  type Part = State -> bool
  type Guard = (State, Op) -> bool

  /** `part` holds in the first `n + 1` states. */
  ghost predicate Always(states: seq<State>, n: nat, part: Part)
    requires n < |states|
  {
    forall m :: 0 <= m <= n ==> part(states[m])
  }

  /** The first `n` calls were made under their `guard`. */
  ghost predicate Obeyed(ops: seq<Op>, states: seq<State>, n: nat, guard: Guard)
    requires n <= |ops| && n < |states|
  {
    forall m :: 0 <= m < n ==> guard(states[m], ops[m])
  }

  ghost predicate KeptExactly(st: State, op: Op, part: Part, guard: Guard) {
    part(st) ==> (part(Step(st, op)) <==> guard(st, op))
  }

  lemma {:induction false} AlwaysExactly(ops: seq<Op>, states: seq<State>, n: nat, part: Part, guard: Guard)
    requires IsRun(ops, states) && n <= |ops| && part(states[0])
    requires forall m :: 0 <= m < n ==> KeptExactly(states[m], ops[m], part, guard)
    ensures Always(states, n, part) <==> Obeyed(ops, states, n, guard)
  {
    if n == 0 {
    } else {
      AlwaysExactly(ops, states, n - 1, part, guard);
      var st, op, st' := states[n - 1], ops[n - 1], states[n];
      assert KeptExactly(st, op, part, guard) && st' == Step(st, op);
      assert Always(states, n, part) <==> Always(states, n - 1, part) && part(st');
      assert Obeyed(ops, states, n, guard) <==> Obeyed(ops, states, n - 1, guard) && guard(st, op);
    }
  }

  /** What holds of a new engine and is kept by every call of a kind holds in every run of such calls. */
  lemma {:induction false} RunsKeep(ops: seq<Op>, states: seq<State>, n: nat, part: Part, kind: Op -> bool)
    requires IsRun(ops, states) && n <= |ops| && part(Initial()) && forall op :: op in ops ==> kind(op)
    requires forall st, op :: part(st) && kind(op) ==> part(Step(st, op))
    ensures part(states[n])
  {
    if n == 0 {
    } else {
      RunsKeep(ops, states, n - 1, part, kind);
      assert ops[n - 1] in ops && states[n] == Step(states[n - 1], ops[n - 1]);
    }
  }

  /** In every run, drivers and routes have agreed up to now iff every call up to now was safe for them. */
  lemma {:induction false} RunKeepsDriversExactly(ops: seq<Op>, states: seq<State>, n: nat)
    requires IsRun(ops, states) && n <= |ops|
    ensures Always(states, n, DriversAgree) <==> Obeyed(ops, states, n, SafeForDrivers)
  {
    InitialInv();
    forall m | 0 <= m < n ensures KeptExactly(states[m], ops[m], DriversAgree, SafeForDrivers) {
      RunsStayTidy(ops, states, m);
      if DriversAgree(states[m]) {
        StepKeepsDriversExactly(states[m], ops[m]);
      }
    }
    AlwaysExactly(ops, states, n, DriversAgree, SafeForDrivers);
  }

  /** In every run, every pipeline has been accounted for up to now iff no zone that ran a URL was overwritten. */
  lemma {:induction false} RunKeepsPipelinesExactly(ops: seq<Op>, states: seq<State>, n: nat)
    requires IsRun(ops, states) && n <= |ops|
    ensures Always(states, n, PipelinesAccounted) <==> Obeyed(ops, states, n, SafeForPipelines)
  {
    InitialInv();
    forall m | 0 <= m < n ensures KeptExactly(states[m], ops[m], PipelinesAccounted, SafeForPipelines) {
      RunsStayTidy(ops, states, m);
      if PipelinesAccounted(states[m]) {
        StepKeepsPipelinesExactly(states[m], ops[m]);
      }
    }
    AlwaysExactly(ops, states, n, PipelinesAccounted, SafeForPipelines);
  }
}
