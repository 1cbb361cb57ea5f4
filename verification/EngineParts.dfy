/**
 What is true of the engine between calls (src/audio/engine.rs), in four parts, and the pointwise effect
 of each of its steps on zones, sources, streams and pipelines.
 */
module EngineParts {
  import opened Wrappers
  import opened StreamPools
  import opened SnapcastRouters
  import opened EngineState

  // ----- The parts --------------------------------------------------------------------------------

  /** Source `s` is routed to `zone` and feeds it. */
  predicate Feeds(st: State, s: ZoneId, zone: ZoneId) {
    s in st.sources && st.sources[s].active && st.sources[s].routed && st.sources[s].dest == zone
  }

  /** Every AirPlay driver is a source that feeds the zone. */
  ghost predicate DriversFeed(st: State) {
    forall z :: z in st.zones && st.zones[z].current.Some? && st.zones[z].current.value.Airplay? ==>
      Feeds(st, st.zones[z].current.value.source, z)
  }

  /** Every routed source is the driver of its destination. */
  ghost predicate RoutedDrive(st: State) {
    forall s :: s in st.sources && st.sources[s].routed ==> DrivenBy(st, st.sources[s].dest, s)
  }

  ghost predicate DriversAgree(st: State) { DriversFeed(st) && RoutedDrive(st) }

  /** An idle source is at home, unrouted and holds no sink; an unrouted one holds no sink. */
  ghost predicate IdleAtHome(st: State) {
    forall s :: s in st.sources ==>
      && (!st.sources[s].active ==> st.sources[s].dest == s && !st.sources[s].routed)
      && (!st.sources[s].routed ==> st.sources[s].sink == None)
  }

  /** Every source's home zone exists. */
  ghost predicate Homed(st: State) {
    st.sources.Keys <= st.zones.Keys
  }

  /** A sink that is a pool stream is a stream allocated to `zone`. */
  predicate SinkOf(st: State, sink: Sink, zone: ZoneId) {
    sink.Stream? ==> Holds(st.routing.pool, sink.slot, zone)
  }

  /** A cached sink was resolved for `zone`, and is still the zone's. */
  predicate CacheOf(st: State, cached: Cached, zone: ZoneId) {
    cached.zone == zone && SinkOf(st, cached.sink, zone)
  }

  /** Every sink held by a writer is its zone's: captured by a pipeline or cached in a source. */
  ghost predicate SinksOwned(st: State) {
    && (forall z :: z in st.zones && st.zones[z].current.Some? && st.zones[z].current.value.Url? ==>
          SinkOf(st, st.zones[z].current.value.pipeline.sink, z))
    && (forall s :: s in st.sources && st.sources[s].sink.Some? ==>
          CacheOf(st, st.sources[s].sink.value, st.sources[s].dest))
  }

  predicate Runs(st: State, z: ZoneId, id: nat) {
    z in st.zones && st.zones[z].current.Some? && st.zones[z].current.value.Url?
      && st.zones[z].current.value.pipeline.id == id
  }

  /** Every pipeline started either runs in exactly one zone or was stopped, exactly once. */
  ghost predicate PipelinesAccounted(st: State) {
    && (forall y, z, id: nat :: Runs(st, y, id) && Runs(st, z, id) ==> y == z)
    && (forall z, id: nat :: Runs(st, z, id) ==> id < st.spawned && st.stops[id] == 0)
    && (forall id: nat :: id < st.spawned ==> st.stops[id] == 1 || exists z :: Runs(st, z, id))
    && (forall id: nat :: id >= st.spawned ==> st.stops[id] == 0)
  }

  /** Routed sources are drivers, and every writer's sink is its zone's: what keeps writers apart. */
  ghost predicate Owned(st: State) { RoutedDrive(st) && SinksOwned(st) }

  /** The part no call can break: sources at home or in session, homes that exist, an injective pool. */
  ghost predicate Tidy(st: State) {
    Homed(st) && IdleAtHome(st) && Injective(st.routing.pool)
  }

  /** All parts together. */
  ghost predicate Inv(st: State) {
    Tidy(st) && DriversAgree(st) && PipelinesAccounted(st) && SinksOwned(st)
  }

  // ----- What the parts mean ----------------------------------------------------------------------

  /** The driver map and the source map say the same thing, and a source feeds at most one zone. */
  lemma {:induction false} DriverIffFeeds(st: State, z: ZoneId, s: ZoneId)
    requires DriversAgree(st)
    ensures DrivenBy(st, z, s) <==> Feeds(st, s, z)
    ensures forall y :: DrivenBy(st, z, s) && DrivenBy(st, y, s) ==> y == z
  {
    forall y ensures DrivenBy(st, y, s) <==> Feeds(st, s, y) {
    }
  }

  datatype Writer = UrlWriter(zone: ZoneId) | SourceWriter(source: ZoneId)

  /** The sink a writer can write to now. */
  function WriterSink(st: State, w: Writer): Option<Sink> {
    match w
    case UrlWriter(z) =>
      if z in st.zones && st.zones[z].current.Some? && st.zones[z].current.value.Url?
      then Some(st.zones[z].current.value.pipeline.sink)
      else None
    case SourceWriter(s) =>
      if s in st.sources && st.sources[s].sink.Some? then Some(st.sources[s].sink.value.sink) else None
  }

  /** No two live writers write into the same stream. */
  lemma {:induction false} NoTwoWritersPerStream(st: State, v: Writer, w: Writer, k: nat)
    requires IdleAtHome(st) && Owned(st)
    requires WriterSink(st, v) == Some(Stream(k)) && WriterSink(st, w) == Some(Stream(k))
    ensures v == w
  {
    var zone := st.routing.pool[k].value;
    assert Holds(st.routing.pool, k, zone);
    WriterOfStream(st, v, k, zone);
    WriterOfStream(st, w, k, zone);
  }

  lemma {:induction false} WriterOfStream(st: State, w: Writer, k: nat, zone: ZoneId)
    requires IdleAtHome(st) && Owned(st)
    requires WriterSink(st, w) == Some(Stream(k)) && Holds(st.routing.pool, k, zone)
    ensures match w
            case UrlWriter(z) => z == zone && CurrentDriver(st, zone).value.Url?
            case SourceWriter(s) => DrivenBy(st, zone, s)
  {
  }

  // ----- Resolving a sink -------------------------------------------------------------------------

  /** Only router and registry have changed, and no stream was taken from anybody. */
  ghost predicate Resolved(st: State, st': State) {
    && st' == st.(routing := st'.routing, registry := st'.registry)
    && (Injective(st.routing.pool) ==> Injective(st'.routing.pool))
    && (forall k, z :: Holds(st.routing.pool, k, z) ==> Holds(st'.routing.pool, k, z))
  }

  /** Resolving a sink changes only the router and the registry, and hands out the zone's own sink. */
  lemma {:induction false} ZoneSinkGrants(st: State, env: Env, zone: ZoneId, outputs: seq<OutputId>)
    requires Injective(st.routing.pool) && ZoneSink(st, env, zone, outputs).Ok?
    ensures var (st', sink) := ZoneSink(st, env, zone, outputs).value;
            && Resolved(st, st') && SinkOf(st', sink, zone)
            && (forall k, z :: z != zone ==> (Holds(st'.routing.pool, k, z) <==> Holds(st.routing.pool, k, z)))
  {
    AllocateGrants(st.routing.pool, zone);
    var (st', sink) := ZoneSink(st, env, zone, outputs).value;
    forall k, z | Holds(st.routing.pool, k, z) ensures Holds(st'.routing.pool, k, z) {
      if z == zone && st'.routing != st.routing {
        assert st'.routing.pool == st.routing.pool;
      }
    }
  }

  // ----- Detaching a driver -----------------------------------------------------------------------

  /** `st'` is `st` with `zone`'s driver replaced by `driver` and the old one detached. */
  ghost predicate DriverReplaced(st: State, zone: ZoneId, driver: Option<Driver>, st': State) {
    && st'.zones.Keys == st.zones.Keys && st'.sources.Keys == st.sources.Keys && st'.routing == st.routing
    && (forall z :: z in st.zones ==>
          st'.zones[z] == if z == zone then st.zones[z].(current := driver) else st.zones[z])
    && (forall s :: s in st.sources ==> st'.sources[s] == DetachedSource(st, zone, s))
  }

  /** Source `s` after the driver of `zone` is detached. */
  function DetachedSource(st: State, zone: ZoneId, s: ZoneId): Source
    requires s in st.sources
  {
    if DrivenBy(st, zone, s) then st.sources[s].(routed := false, sink := None) else st.sources[s]
  }

  lemma {:induction false} DetachedEffect(st: State, driver: Option<Driver>)
    ensures var st' := Detached(st, driver);
            && st'.zones == st.zones && st'.routing == st.routing && st'.sources.Keys == st.sources.Keys
            && (forall s :: s in st.sources ==>
                  st'.sources[s] == if driver.Some? && driver.value.Airplay? && driver.value.source == s
                                    then st.sources[s].(routed := false, sink := None) else st.sources[s])
  {
  }

  lemma {:induction false} TakeReplaces(st: State, zone: ZoneId)
    ensures DriverReplaced(st, zone, None, PlayTake(st, zone))
  {
    DetachedEffect(WithDriver(st, zone, None), CurrentDriver(st, zone));
  }

  /** Taking a zone's driver stops exactly the pipeline the zone runs. */
  lemma {:induction false} TakeStops(st: State, zone: ZoneId)
    ensures forall id: nat :: PlayTake(st, zone).stops[id] == st.stops[id] + if Runs(st, zone, id) then 1 else 0
  {
    var st' := PlayTake(st, zone);
    forall id: nat ensures st'.stops[id] == st.stops[id] + if Runs(st, zone, id) then 1 else 0 {
      var driver := CurrentDriver(st, zone);
      if driver.Some? && driver.value.Url? {
        assert st'.stops == st.stops + multiset{driver.value.pipeline.id};
      }
    }
  }

  /** What detaching a zone's driver stops does not depend on the rest of the state. */
  lemma {:induction false} DetachStops(st: State, driven: State, zone: ZoneId)
    requires driven.stops == st.stops && driven.spawned == st.spawned
    ensures var st' := Detached(driven, CurrentDriver(st, zone));
            st'.stops == PlayTake(st, zone).stops && st'.spawned == st.spawned
  {
  }

  // ----- Sessions ---------------------------------------------------------------------------------

  /** `s` after it began: in session, and at once unrouted again if it was the driver it replaced. */
  function BegunSource(st: State, s: ZoneId): Source
    requires s in st.sources
  {
    var begun := st.sources[s].(active := true, routed := true, sink := None, now := NOTHING);
    if DrivenBy(st, st.sources[s].dest, s) then begun.(routed := false) else begun
  }

  /** The pointwise effect of `session_began`. */
  ghost predicate Began(st: State, s: ZoneId, st': State)
    requires s in st.sources
  {
    var dest := st.sources[s].dest;
    && st'.zones.Keys == st.zones.Keys && st'.sources.Keys == st.sources.Keys && st'.routing == st.routing
    && (forall z :: z in st.zones ==>
          st'.zones[z] == if z == dest then st.zones[z].(current := Some(Airplay(s))) else st.zones[z])
    && (forall t :: t in st.sources && t != s ==> st'.sources[t] == DetachedSource(st, dest, t))
    && st'.sources[s] == BegunSource(st, s)
    && st'.spawned == st.spawned && st'.stops == PlayTake(st, dest).stops
  }

  lemma {:induction false} BeganEffect(st: State, s: ZoneId)
    requires s in st.sources
    ensures Began(st, s, SessionBegan(st, s))
  {
    var dest := st.sources[s].dest;
    var source := st.sources[s].(active := true, routed := true, sink := None, now := NOTHING);
    var begun := st.(sources := st.sources[s := source], art := st.art - {s});
    var driven := WithDriver(begun, dest, Some(Airplay(s)));
    assert CurrentDriver(begun, dest) == CurrentDriver(st, dest);
    DetachedEffect(driven, CurrentDriver(st, dest));
    DetachStops(st, driven, dest);
  }

  /** The pointwise effect of `session_ended`. */
  ghost predicate Ended(st: State, s: ZoneId, st': State)
    requires s in st.sources
  {
    var dest := st.sources[s].dest;
    && st'.zones.Keys == st.zones.Keys && st'.sources.Keys == st.sources.Keys
    && st'.routing == Dropped(st.routing, dest)
    && (forall z :: z in st.zones ==>
          st'.zones[z] == if z == dest && DrivenBy(st, z, s) then st.zones[z].(current := None) else st.zones[z])
    && (forall t :: t in st.sources && t != s ==> st'.sources[t] == st.sources[t])
    && st'.sources[s] == IdleSource(s, st.sources[s].name)
    && st'.spawned == st.spawned && st'.stops == st.stops
  }

  lemma {:induction false} EndedEffect(st: State, s: ZoneId)
    requires s in st.sources
    ensures Ended(st, s, SessionEnded(st, s))
  {
  }

  // ----- Rerouting --------------------------------------------------------------------------------

  /** `s` after a reroute; unrouted again at once if it already was the driver of `zone`. */
  function MovedSource(st: State, s: ZoneId, zone: ZoneId, sink: Sink): Source
    requires s in st.sources
  {
    if DrivenBy(st, zone, s) then st.sources[s].(dest := zone, routed := false, sink := None)
    else st.sources[s].(dest := zone, routed := true, sink := Some(Cached(sink, zone)))
  }

  /** The pointwise effect of a successful reroute of `s` to `zone`. */
  ghost predicate Moved(st: State, s: ZoneId, zone: ZoneId, sink: Sink, st': State)
    requires s in st.sources
  {
    var dest := st.sources[s].dest;
    && st'.zones.Keys == st.zones.Keys && st'.sources.Keys == st.sources.Keys
    && st'.routing == (if DrivenBy(st, dest, s) then Dropped(st.routing, dest) else st.routing)
    && (forall z :: z in st.zones ==>
          st'.zones[z] == if z == zone then st.zones[z].(current := Some(Airplay(s)))
                          else if DrivenBy(st, z, s) && z == dest then st.zones[z].(current := None)
                          else st.zones[z])
    && (forall t :: t in st.sources && t != s ==> st'.sources[t] == DetachedSource(st, zone, t))
    && st'.sources[s] == MovedSource(st, s, zone, sink)
    && st'.spawned == st.spawned && st'.stops == PlayTake(st, zone).stops
  }

  lemma {:induction false} MovedEffect(st: State, s: ZoneId, zone: ZoneId, sink: Sink)
    requires s in st.sources && zone in st.zones && zone != st.sources[s].dest
    ensures Moved(st, s, zone, sink, Rerouted(st, s, zone, sink))
  {
    var left := Left(Pointed(st, s, zone, sink), s, st.sources[s].dest);
    LeftEffect(st, s, zone, sink);
    TakeReplaces(left, zone);
    TakeLeft(st, left, zone);
    MovedFrom(st, s, zone, sink, left, PlayTake(left, zone));
  }

  lemma {:induction false} MovedFrom(st: State, s: ZoneId, zone: ZoneId, sink: Sink, left: State, taken: State)
    requires s in st.sources && zone in st.zones && zone != st.sources[s].dest
    requires LeftBehind(st, s, zone, sink, left) && DriverReplaced(left, zone, None, taken)
    requires taken.stops == PlayTake(st, zone).stops && taken.spawned == st.spawned
    ensures Moved(st, s, zone, sink, WithDriver(taken, zone, Some(Airplay(s))))
  {
    MovedSources(st, s, zone, sink, left, taken);
    MovedZones(st, s, zone, sink, left, taken);
  }

  lemma {:induction false} MovedSources(st: State, s: ZoneId, zone: ZoneId, sink: Sink, left: State, taken: State)
    requires s in st.sources && zone in st.zones
    requires LeftBehind(st, s, zone, sink, left) && DriverReplaced(left, zone, None, taken)
    ensures taken.sources.Keys == st.sources.Keys
    ensures forall t :: t in st.sources && t != s ==> taken.sources[t] == DetachedSource(st, zone, t)
    ensures taken.sources[s] == MovedSource(st, s, zone, sink)
  {
    forall t | t in st.sources ensures DrivenBy(left, zone, t) == DrivenBy(st, zone, t) {
    }
    assert forall t :: t in st.sources && t != s ==> left.sources[t] == st.sources[t];
  }

  lemma {:induction false} MovedZones(st: State, s: ZoneId, zone: ZoneId, sink: Sink, left: State, taken: State)
    requires s in st.sources && zone in st.zones && zone != st.sources[s].dest
    requires LeftBehind(st, s, zone, sink, left) && DriverReplaced(left, zone, None, taken)
    ensures var dest, st' := st.sources[s].dest, WithDriver(taken, zone, Some(Airplay(s)));
            && st'.zones.Keys == st.zones.Keys
            && forall z :: z in st.zones ==>
                 st'.zones[z] == if z == zone then st.zones[z].(current := Some(Airplay(s)))
                                 else if DrivenBy(st, z, s) && z == dest then st.zones[z].(current := None)
                                 else st.zones[z]
  {
    assert left.zones[zone] == st.zones[zone];
  }

  /** The old destination has been left; everybody else is as before. */
  ghost predicate LeftBehind(st: State, s: ZoneId, zone: ZoneId, sink: Sink, left: State)
    requires s in st.sources
  {
    var dest := st.sources[s].dest;
    && left.zones.Keys == st.zones.Keys && left.sources == Pointed(st, s, zone, sink).sources
    && left.routing == (if DrivenBy(st, dest, s) then Dropped(st.routing, dest) else st.routing)
    && (forall z :: z in st.zones ==>
          left.zones[z] == if DrivenBy(st, z, s) && z == dest then st.zones[z].(current := None) else st.zones[z])
    && left.spawned == st.spawned && left.stops == st.stops
    && CurrentDriver(left, zone) == CurrentDriver(st, zone)
  }

  lemma {:induction false} LeftEffect(st: State, s: ZoneId, zone: ZoneId, sink: Sink)
    requires s in st.sources && zone in st.zones && zone != st.sources[s].dest
    ensures LeftBehind(st, s, zone, sink, Left(Pointed(st, s, zone, sink), s, st.sources[s].dest))
  {
  }

  /** What taking a zone stops depends on the zone's driver alone. */
  lemma {:induction false} TakeLeft(st: State, left: State, zone: ZoneId)
    requires left.stops == st.stops && CurrentDriver(left, zone) == CurrentDriver(st, zone)
    ensures PlayTake(left, zone).stops == PlayTake(st, zone).stops && PlayTake(left, zone).spawned == left.spawned
  {
  }

  /** `s` moved to `zone`, and nobody else lost anything but the previous driver of `zone`. */
  ghost predicate OnlyMoved(st: State, s: ZoneId, zone: ZoneId, st': State)
    requires s in st.sources
  {
    var dest := st.sources[s].dest;
    && st'.zones.Keys == st.zones.Keys && st'.sources.Keys == st.sources.Keys
    && Feeds(st', s, zone) && DrivenBy(st', zone, s) && !DrivenBy(st', dest, s)
    && (forall z :: z in st.zones && z != zone && z != dest ==> st'.zones[z] == st.zones[z])
    && (forall t :: t in st.sources && t != s ==> st'.sources[t] == DetachedSource(st, zone, t))
    && (forall id: nat :: st'.stops[id] == st.stops[id] + if Runs(st, zone, id) then 1 else 0)
    && (forall k, z :: z != zone && z != dest ==> (Holds(st'.routing.pool, k, z) <==> Holds(st.routing.pool, k, z)))
    && (forall k :: Holds(st'.routing.pool, k, dest) <==> Holds(st.routing.pool, k, dest) && !DrivenBy(st, dest, s))
  }

  /**
   A successful reroute moves one source and takes nothing from anybody but the zone's previous driver: that driver
   alone is stopped or unrouted, and no other zone, source or stream changes. This is so exactly if the source is
   not already named as the zone's driver, which it never is where drivers agree.
   */
  lemma {:induction false} RerouteMovesOne(st: State, env: Env, s: ZoneId, zone: ZoneId)
    requires Injective(st.routing.pool)
    requires Reroute(st, env, s, zone).Ok? && zone != st.sources[s].dest
    ensures OnlyMoved(st, s, zone, Reroute(st, env, s, zone).value) <==> !DrivenBy(st, zone, s)
    ensures DriversFeed(st) ==> !DrivenBy(st, zone, s)
  {
    ZoneSinkGrants(st, env, zone, st.zones[zone].outputs);
    var (st1, sink) := ZoneSink(st, env, zone, st.zones[zone].outputs).value;
    MovedEffect(st1, s, zone, sink);
    TakeStops(st1, zone);
    if !DrivenBy(st, zone, s) {
      MovedOnly(st, st1, s, zone, sink, Rerouted(st1, s, zone, sink));
    } else {
      assert !Rerouted(st1, s, zone, sink).sources[s].routed;
    }
  }

  lemma {:induction false} MovedOnly(st: State, st1: State, s: ZoneId, zone: ZoneId, sink: Sink, st': State)
    requires s in st.sources && st.sources[s].active && zone in st.zones && zone != st.sources[s].dest
    requires !DrivenBy(st, zone, s) && st1 == st.(routing := st1.routing, registry := st1.registry)
    requires forall k, z :: z != zone ==> (Holds(st1.routing.pool, k, z) <==> Holds(st.routing.pool, k, z))
    requires Moved(st1, s, zone, sink, st')
    requires forall id: nat :: st'.stops[id] == st1.stops[id] + if Runs(st1, zone, id) then 1 else 0
    ensures OnlyMoved(st, s, zone, st')
  {
    MovedStreams(st1, s, zone, sink, st');
    assert forall z, t :: DrivenBy(st1, z, t) <==> DrivenBy(st, z, t);
    assert forall id: nat :: Runs(st1, zone, id) <==> Runs(st, zone, id);
  }

  lemma {:induction false} MovedStreams(st: State, s: ZoneId, zone: ZoneId, sink: Sink, st': State)
    requires s in st.sources && Moved(st, s, zone, sink, st')
    ensures var dest := st.sources[s].dest;
            forall k, z :: Holds(st'.routing.pool, k, z) <==>
                           Holds(st.routing.pool, k, z) && !(z == dest && DrivenBy(st, dest, s))
  {
    var dest, pool := st.sources[s].dest, st'.routing.pool;
    if DrivenBy(st, dest, s) {
      forall k, z ensures Holds(pool, k, z) <==> Holds(st.routing.pool, k, z) && z != dest {
        assert Holds(pool, k, z) ==> pool[k] in pool;
      }
    }
  }

  // ----- Calls that route nothing -----------------------------------------------------------------

  predicate SameRoute(a: Source, b: Source) {
    a.dest == b.dest && a.active == b.active && a.routed == b.routed && a.sink == b.sink
  }

  /** Drivers, routes, streams and pipelines as before; what is new is undriven or idle. */
  ghost predicate RoutesNothing(st: State, st': State) {
    && st'.routing.pool == st.routing.pool && st'.spawned == st.spawned && st'.stops == st.stops
    && st.zones.Keys <= st'.zones.Keys && st.sources.Keys <= st'.sources.Keys <= st'.zones.Keys
    && (forall z :: z in st'.zones ==> st'.zones[z].current == CurrentDriver(st, z))
    && (forall s :: s in st'.sources ==>
          if s in st.sources then SameRoute(st'.sources[s], st.sources[s])
          else SameRoute(st'.sources[s], IdleSource(s, EMPTY)))
  }

  lemma {:induction false} SourcesReconciledRoutesNothing(st: State)
    requires Homed(st)
    ensures RoutesNothing(st, SourcesReconciled(st))
  {
  }

  /** The calls that touch texts, outputs and names only. */
  lemma {:induction false} QuietStepRoutesNothing(st: State, op: Op)
    requires Homed(st)
    requires op.OpTrackUpdate? || op.OpArtUpdate? || op.OpRenameZone? || op.OpSetZoneOutputs?
             || op.OpAddDongle? || op.OpDongleOffline? || op.OpEnableAirplay?
    ensures RoutesNothing(st, Step(st, op))
  {
    match op {
      case OpRenameZone(zone, name) => RenameRoutesNothing(st, zone, name);
      case OpAddDongle(id, name) => AddDongleRoutesNothing(st, id, name);
      case OpEnableAirplay => SourcesReconciledRoutesNothing(st);
      case OpTrackUpdate(s, title, artist, album, client) => TrackRoutesNothing(st, s, title, artist, album, client);
      case OpArtUpdate(s, image, artId) => ArtRoutesNothing(st, s, image, artId);
      case OpSetZoneOutputs(zone, outputs) => OutputsRoutesNothing(st, zone, outputs);
      case OpDongleOffline(id) => OfflineRoutesNothing(st, id);
    }
  }

  lemma {:induction false} TrackRoutesNothing(st: State, s: ZoneId, title: Text, artist: Text, album: Text,
                                              client: Text)
    requires Homed(st)
    ensures RoutesNothing(st, TrackUpdate(st, s, title, artist, album, client))
  {
  }

  lemma {:induction false} ArtRoutesNothing(st: State, s: ZoneId, image: Image, artId: Text)
    requires Homed(st)
    ensures RoutesNothing(st, ArtUpdate(st, s, image, artId))
  {
  }

  lemma {:induction false} OutputsRoutesNothing(st: State, zone: ZoneId, outputs: seq<OutputId>)
    requires Homed(st)
    ensures RoutesNothing(st, OrElse(SetZoneOutputs(st, zone, outputs), st))
  {
  }

  lemma {:induction false} OfflineRoutesNothing(st: State, id: OutputId)
    requires Homed(st)
    ensures RoutesNothing(st, DongleOffline(st, id))
  {
  }

  lemma {:induction false} RenameRoutesNothing(st: State, zone: ZoneId, name: Text)
    requires Homed(st)
    ensures RoutesNothing(st, OrElse(RenameZone(st, zone, name), st))
  {
  }

  lemma {:induction false} AddDongleRoutesNothing(st: State, id: OutputId, name: Text)
    requires Homed(st)
    ensures RoutesNothing(st, AddDongle(st, id, name))
  {
  }

  // ----- Creating and deleting zones --------------------------------------------------------------

  /** The pointwise effect of `create_zone`: a zone of that id that was there is replaced by an undriven one. */
  ghost predicate Created(st: State, id: ZoneId, st': State) {
    && st'.zones.Keys == st'.sources.Keys == st.zones.Keys + {id} && st'.routing == st.routing
    && (forall z :: z in st'.zones ==> st'.zones[z].current == if z == id then None else CurrentDriver(st, z))
    && (forall z :: z in st.zones && z != id ==> st'.zones[z] == st.zones[z])
    && (forall s :: s in st'.sources ==>
          if s in st.sources then SameRoute(st'.sources[s], st.sources[s])
          else SameRoute(st'.sources[s], IdleSource(s, EMPTY)))
    && st'.spawned == st.spawned && st'.stops == st.stops
  }

  lemma {:induction false} CreatedEffect(st: State, id: ZoneId, name: Text)
    requires Homed(st)
    ensures Created(st, id, CreateZone(st, id, name))
  {
  }

  ghost predicate Deleted(st: State, zone: ZoneId, st': State) {
    && st'.zones.Keys == st'.sources.Keys == st.zones.Keys - {zone}
    && st'.routing == Dropped(st.routing, zone)
    && (forall z :: z in st'.zones ==> st'.zones[z] == st.zones[z])
    && (forall s :: s in st'.sources ==>
          if s in st.sources then SameRoute(st'.sources[s], DetachedSource(st, zone, s))
          else SameRoute(st'.sources[s], IdleSource(s, EMPTY)))
    && st'.spawned == st.spawned && st'.stops == PlayTake(st, zone).stops
  }

  lemma {:induction false} DeletedEffect(st: State, zone: ZoneId)
    requires zone in st.zones && Homed(st)
    ensures Deleted(st, zone, DeleteZone(st, zone).value)
  {
    var removed, driver := st.(zones := st.zones - {zone}), CurrentDriver(st, zone);
    var detached := Detached(removed, driver);
    DetachedEffect(removed, driver);
    DetachStops(st, removed, zone);
    assert forall s :: s in st.sources ==> detached.sources[s] == DetachedSource(st, zone, s);
    ReconciledEffect(Freed(detached, zone));
  }

  lemma {:induction false} ReconciledEffect(st: State)
    ensures var st' := SourcesReconciled(st);
            && st' == st.(sources := st'.sources) && st'.sources.Keys == st.zones.Keys
            && forall s :: s in st'.sources ==>
                 if s in st.sources then SameRoute(st'.sources[s], st.sources[s])
                 else SameRoute(st'.sources[s], IdleSource(s, EMPTY))
  {
  }
}
