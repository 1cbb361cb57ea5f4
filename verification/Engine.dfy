/**
 The multi-room playback engine (src/audio/engine.rs): its methods update the zone, source,
 registry and art maps in place. Each is proved to have the atomic effect EngineState gives it.
 `deviceOpens` and `canStart` are the outcomes of opening the hub's device and of starting
 snapserver, should a call have to do either.
 */
module Engines {
  import opened Wrappers
  import opened StreamPools
  import opened SnapcastControl
  import opened SnapcastRouters
  import opened EngineState
  import opened EngineParts
  import opened EngineInvariants
  import opened EngineStreams
  import opened SnapcastReconcile
  import EngineAnswers
  import Runs = EngineRuns

  /** The zones of `todo` are yet to be given their source; `kept` are the sources that stayed. */
  ghost predicate ReconciledBut(todo: set<ZoneId>, zones: map<ZoneId, Zone>, kept: map<ZoneId, Source>,
                                sources: map<ZoneId, Source>) {
    && todo <= zones.Keys && kept.Keys <= zones.Keys && sources.Keys == kept.Keys + (zones.Keys - todo)
    && (forall id :: id in todo && id in kept ==> sources[id] == kept[id])
    && forall id :: id in zones.Keys - todo ==>
         sources[id] == if id in kept then kept[id].(name := zones[id].name) else IdleSource(id, zones[id].name)
  }

  lemma {:induction false} OneMoreReconciled(todo: set<ZoneId>, zones: map<ZoneId, Zone>, kept: map<ZoneId, Source>,
                                             sources: map<ZoneId, Source>, id: ZoneId, source: Source)
    requires ReconciledBut(todo, zones, kept, sources) && id in todo
    requires source == if id in sources then sources[id].(name := zones[id].name) else IdleSource(id, zones[id].name)
    ensures ReconciledBut(todo - {id}, zones, kept, sources[id := source])
  {
  }

  lemma {:induction false} AllReconciled(st: State, kept: map<ZoneId, Source>, sources: map<ZoneId, Source>)
    requires kept == map id | id in st.sources && id in st.zones :: st.sources[id]
    requires ReconciledBut({}, st.zones, kept, sources)
    ensures sources == SourcesReconciled(st).sources
  {
  }

  class Engine {
    const router: SnapcastRouter
    /** The content hash of an image. */
    const digest: Image -> Text
    var zones: map<ZoneId, Zone>
    var sources: map<ZoneId, Source>
    var registry: map<OutputId, Output>
    var art: map<ZoneId, Art>
    /** How many pipelines were started; the next one gets this number. */
    var spawned: nat
    ghost var stops: multiset<nat>

    ghost function View(): State
      reads this, router, router.pool.slots
    {
      State(zones, sources, router.Value(), registry, art, spawned, stops)
    }

    ghost function World(deviceOpens: bool, canStart: bool): Env
      reads router
    {
      Env(deviceOpens, router.started || canStart)
    }

    /** What no call breaks: idle sources at home, homes that exist, no stream held twice. */
    ghost predicate Valid()
      reads this, router, router.pool.slots
    {
      Tidy(View())
    }

    /** Which of the other parts that held in `before` hold now: drivers, pipelines, streams. */
    ghost predicate Keeps(before: State, drivers: bool, pipelines: bool, streams: bool)
      reads this, router, router.pool.slots
    {
      KeepsParts(before, View(), drivers, pipelines, streams)
    }

    /** A stream was granted and one pass made over the entries there were then; else the server is left alone. */
    ghost predicate GroupsFor(resolved: Option<Result<(State, Sink), EngineError>>, before: Server, replies: seq<Reply>)
      reads router, router.server
    {
      match resolved
      case Some(Ok((st, Stream(_)))) => PassMade(st.routing, before, replies, router.server.state)
      case _ => router.server.state == before
    }

    /** The router made a pass over its entries, if snapserver has been started. */
    ghost predicate GroupsAgain(before: Server, replies: seq<Reply>)
      reads this, router, router.pool.slots, router.server
    {
      if router.started then PassMade(router.Value(), before, replies, router.server.state)
      else router.server.state == before
    }

    constructor (server: Snapserver, digest: Image -> Text)
      ensures Valid() && Inv(View())
      ensures View() == Initial() && router.server == server && this.digest == digest
      ensures fresh(router) && fresh(router.pool.slots) && !router.started
    {
      this.digest := digest;
      router := new SnapcastRouter(server);
      zones := map[DEFAULT_ZONE := Zone(HUB_DISPLAY_NAME, [LOCAL_OUTPUT_ID], None)];
      sources, registry, art, spawned, stops := map[], map[], map[], 0, multiset{};
      new;
      assert router.Value().pool == Initial().routing.pool;
    }

    // ----- Sink resolution ----------------------------------------------------------------------

    method EnsureLocal(deviceOpens: bool) returns (r: Result<Sink, EngineError>)
      modifies this
      ensures match EngineState.EnsureLocal(old(View()), deviceOpens)
              case Ok((st, sink)) => View() == st && r == Ok(sink)
              case Err(e) => View() == old(View()) && r == Err(e)
    {
      if LOCAL_OUTPUT_ID in registry && registry[LOCAL_OUTPUT_ID].direct && registry[LOCAL_OUTPUT_ID].online {
        return Ok(Local);
      }
      if !deviceOpens {
        return Err(DeviceUnavailable);
      }
      registry := registry[LOCAL_OUTPUT_ID := Output(LOCAL_NAME, true, true)];
      return Ok(Local);
    }

    method ZoneSink(zone: ZoneId, outputs: seq<OutputId>, deviceOpens: bool, canStart: bool)
      returns (r: Result<Sink, EngineError>)
      requires router.server.Valid()
      modifies this, router, router.pool.slots, router.server
      ensures router.server.Valid()
      ensures match EngineState.ZoneSink(old(View()), old(World(deviceOpens, canStart)), zone, outputs)
              case Ok((st, sink)) => View() == st && r == Ok(sink)
              case Err(e) => View() == old(View()) && r == Err(e)
      ensures GroupsFor(Some(EngineState.ZoneSink(old(View()), old(World(deviceOpens, canStart)), zone, outputs)),
                        old(router.server.state), old(router.server.replies))
    {
      var dongles := Dongles(outputs);
      if LOCAL_OUTPUT_ID in outputs && dongles != [] {
        return Err(MixedZoneUnsupported);
      }
      if LOCAL_OUTPUT_ID in outputs {
        r := EnsureLocal(deviceOpens);
        return;
      }
      var online := Online(registry, dongles);
      if online == [] {
        return Err(ZoneHasNoOutputs);
      }
      var slot := router.SinkForZone(zone, online, canStart);
      match slot {
        case Ok(k) => return Ok(Stream(k));
        case Err(e) => return Err(Router(e));
      }
    }

    // ----- Playback -----------------------------------------------------------------------------

    /** Stop a pipeline, or mark an AirPlay source unrouted. */
    method DetachDriver(driver: Driver)
      modifies this
      ensures View() == Detached(old(View()), Some(driver))
    {
      match driver {
        case Url(pipeline) => stops := stops + multiset{pipeline.id};
        case Airplay(s) =>
          if s in sources {
            sources := sources[s := sources[s].(routed := false, sink := None)];
          }
      }
    }

    /** Take the driver of `zone`, if any, and detach it. */
    method TakeDriver(zone: ZoneId)
      modifies this
      ensures View() == PlayTake(old(View()), zone)
    {
      if zone in zones {
        var prev := zones[zone].current;
        zones := zones[zone := zones[zone].(current := None)];
        if prev.Some? {
          DetachDriver(prev.value);
        }
      }
    }

    /** Start a pipeline into `sink` and make it the zone's driver. */
    method StartPipeline(zone: ZoneId, sink: Sink)
      modifies this
      ensures View() == PlayInstall(old(View()), zone, sink)
    {
      if zone in zones {
        zones := zones[zone := zones[zone].(current := Some(Url(Pipeline(spawned, sink))))];
      }
      spawned := spawned + 1;
    }

    method Play(zone: ZoneId, deviceOpens: bool, canStart: bool) returns (error: Option<EngineError>)
      requires Valid() && router.server.Valid()
      modifies this, router, router.pool.slots, router.server
      ensures router.server.Valid()
      ensures match EngineState.Play(old(View()), old(World(deviceOpens, canStart)), zone)
              case Ok(st) => View() == st && error == None
              case Err(e) => View() == old(View()) && error == Some(e)
      ensures GroupsFor(Resolving(old(View()), OpPlay(old(World(deviceOpens, canStart)), zone)),
                        old(router.server.state), old(router.server.replies))
      ensures Valid() && Keeps(old(View()), true, true, true)
    {
      ghost var before, op := View(), OpPlay(World(deviceOpens, canStart), zone);
      if zone !in zones {
        StepKeepsParts(before, op, View());
        return Some(UnknownZone);
      }
      var sink := ZoneSink(zone, zones[zone].outputs, deviceOpens, canStart);
      if sink.Err? {
        StepKeepsParts(before, op, View());
        return Some(sink.error);
      }
      TakeDriver(zone);
      StartPipeline(zone, sink.value);
      StepKeepsParts(before, op, View());
      return None;
    }

    method Stop(zone: ZoneId)
      requires Valid()
      modifies this, router, router.pool.slots
      ensures View() == EngineState.Stop(old(View()), zone)
      ensures Valid() && Keeps(old(View()), true, true, true)
    {
      ghost var before, op := View(), OpStop(zone);
      TakeDriver(zone);
      router.ReleaseZone(zone);
      StepKeepsParts(before, op, View());
    }

    // ----- AirPlay sessions ---------------------------------------------------------------------

    method SessionBegan(s: ZoneId)
      requires Valid()
      modifies this
      ensures View() == EngineState.SessionBegan(old(View()), s)
      ensures Valid() && Keeps(old(View()), old(MayBegin(View(), s)), true, old(HasZone(View(), s)))
    {
      ghost var before, op := View(), OpSessionBegan(s);
      if s !in sources {
        StepKeepsParts(before, op, View());
        return;
      }
      sources := sources[s := sources[s].(active := true, routed := true, sink := None, now := NOTHING)];
      var dest := sources[s].dest;
      art := art - {s};
      if dest in zones {
        var prev := zones[dest].current;
        zones := zones[dest := zones[dest].(current := Some(Airplay(s)))];
        if prev.Some? {
          DetachDriver(prev.value);
        }
      }
      StepKeepsParts(before, op, View());
    }

    method SessionEnded(s: ZoneId)
      requires Valid()
      modifies this, router, router.pool.slots
      ensures View() == EngineState.SessionEnded(old(View()), s)
      ensures Valid() && Keeps(old(View()), true, true, old(MayEnd(View(), s)))
    {
      ghost var before, op := View(), OpSessionEnded(s);
      if s !in sources {
        StepKeepsParts(before, op, View());
        return;
      }
      var dest := sources[s].dest;
      sources := sources[s := sources[s].(active := false, routed := false, sink := None, dest := s, now := NOTHING)];
      if dest in zones && zones[dest].current == Some(Airplay(s)) {
        zones := zones[dest := zones[dest].(current := None)];
      }
      router.ReleaseZone(dest);
      art := art - {s};
      StepKeepsParts(before, op, View());
    }

    method Reroute(s: ZoneId, zone: ZoneId, deviceOpens: bool, canStart: bool) returns (error: Option<EngineError>)
      requires Valid() && router.server.Valid()
      modifies this, router, router.pool.slots, router.server
      ensures router.server.Valid()
      ensures match EngineState.Reroute(old(View()), old(World(deviceOpens, canStart)), s, zone)
              case Ok(st) => View() == st && error == None
              case Err(e) => View() == old(View()) && error == Some(e)
      ensures GroupsFor(Resolving(old(View()), OpReroute(old(World(deviceOpens, canStart)), s, zone)),
                        old(router.server.state), old(router.server.replies))
      ensures Valid() && Keeps(old(View()), true, true, true)
    {
      ghost var before, op := View(), OpReroute(World(deviceOpens, canStart), s, zone);
      if s !in sources || !sources[s].active {
        StepKeepsParts(before, op, View());
        return Some(UnknownSource);
      }
      var dest := sources[s].dest;
      if zone == dest {
        StepKeepsParts(before, op, View());
        return None;
      }
      if zone !in zones {
        StepKeepsParts(before, op, View());
        return Some(UnknownZone);
      }
      var sink := ZoneSink(zone, zones[zone].outputs, deviceOpens, canStart);
      if sink.Err? {
        StepKeepsParts(before, op, View());
        return Some(sink.error);
      }
      CommitReroute(s, zone, sink.value);
      StepKeepsParts(before, op, View());
      return None;
    }

    /** Steps 5 to 5c of a reroute. */
    method CommitReroute(s: ZoneId, zone: ZoneId, sink: Sink)
      requires s in sources
      modifies this, router, router.pool.slots
      ensures View() == Rerouted(old(View()), s, zone, sink)
    {
      var dest := sources[s].dest;
      sources := sources[s := sources[s].(dest := zone, routed := true, sink := Some(Cached(sink, zone)))];
      if dest in zones && zones[dest].current == Some(Airplay(s)) {
        zones := zones[dest := zones[dest].(current := None)];
        router.ReleaseZone(dest);
      }
      TakeDriver(zone);
      if zone in zones {
        zones := zones[zone := zones[zone].(current := Some(Airplay(s)))];
      }
    }

    method SinkForSource(s: ZoneId, deviceOpens: bool, canStart: bool) returns (sink: Option<Sink>)
      requires Valid() && router.server.Valid()
      modifies this, router, router.pool.slots, router.server
      ensures router.server.Valid()
      ensures (View(), sink) == EngineState.SinkForSource(old(View()), old(World(deviceOpens, canStart)), s)
      ensures sink == if old(EngineAnswers.Plays(View(), s)) then WriterSink(View(), SourceWriter(s)) else None
      ensures GroupsFor(Resolving(old(View()), OpSinkForSource(old(World(deviceOpens, canStart)), s)),
                        old(router.server.state), old(router.server.replies))
      ensures Valid() && Keeps(old(View()), true, true, true)
    {
      EngineAnswers.SinkIsTheCachedOne(View(), World(deviceOpens, canStart), s);
      ghost var before, op := View(), OpSinkForSource(World(deviceOpens, canStart), s);
      if s !in sources || !sources[s].active || !sources[s].routed {
        StepKeepsParts(before, op, View());
        return None;
      }
      if sources[s].sink.Some? {
        StepKeepsParts(before, op, View());
        return Some(sources[s].sink.value.sink);
      }
      var dest := sources[s].dest;
      if dest !in zones {
        StepKeepsParts(before, op, View());
        return None;
      }
      var r := ZoneSink(dest, zones[dest].outputs, deviceOpens, canStart);
      if r.Err? {
        StepKeepsParts(before, op, View());
        return None;
      }
      if s !in sources || !sources[s].active || !sources[s].routed {
        StepKeepsParts(before, op, View());
        return None;
      }
      sources := sources[s := sources[s].(sink := Some(Cached(r.value, dest)))];
      StepKeepsParts(before, op, View());
      return Some(r.value);
    }

    /** The sources in session, each once, as they are. */
    method ListSources() returns (ids: seq<ZoneId>, views: seq<Source>)
      ensures |views| == |ids| && forall i, j :: 0 <= i < j < |ids| ==> ids[i] != ids[j]
      ensures forall s :: s in ids <==> s in sources && sources[s].active
      ensures forall i :: 0 <= i < |ids| ==> views[i] == sources[ids[i]]
    {
      ids, views := [], [];
      var todo := sources.Keys;
      while todo != {}
        invariant todo <= sources.Keys
        invariant |views| == |ids| && forall i, j :: 0 <= i < j < |ids| ==> ids[i] != ids[j]
        invariant forall s :: s in ids <==> s in sources && s !in todo && sources[s].active
        invariant forall i :: 0 <= i < |ids| ==> views[i] == sources[ids[i]]
        decreases |todo|
      {
        var s :| s in todo;
        if sources[s].active {
          ids, views := ids + [s], views + [sources[s]];
        }
        todo := todo - {s};
      }
    }

    // ----- Metadata -----------------------------------------------------------------------------

    method TrackUpdate(s: ZoneId, title: Text, artist: Text, album: Text, client: Text)
      requires Valid()
      modifies this
      ensures View() == EngineState.TrackUpdate(old(View()), s, title, artist, album, client)
      ensures Valid() && Keeps(old(View()), true, true, true)
    {
      ghost var before, op := View(), OpTrackUpdate(s, title, artist, album, client);
      if s !in sources {
        StepKeepsParts(before, op, View());
        return;
      }
      var now := sources[s].now.(title := title, artist := artist, album := album);
      if client != EMPTY {
        now := now.(client := client);
      }
      sources := sources[s := sources[s].(now := now)];
      StepKeepsParts(before, op, View());
    }

    method ArtUpdate(s: ZoneId, image: Image)
      requires Valid()
      modifies this
      ensures View() == EngineState.ArtUpdate(old(View()), s, image, digest(image))
      ensures Valid() && Keeps(old(View()), true, true, true)
    {
      ghost var before, op := View(), OpArtUpdate(s, image, digest(image));
      var artId := digest(image);
      var mime := SniffMime(image);
      if s !in sources {
        StepKeepsParts(before, op, View());
        return;
      }
      sources := sources[s := sources[s].(now := sources[s].now.(artId := artId))];
      art := art[s := Art(artId, mime, image)];
      StepKeepsParts(before, op, View());
    }

    method GetArt(artId: Text) returns (r: Option<(Text, Image)>)
      ensures Runs.Fetches(View(), artId, r)
    {
      var todo := art.Keys;
      while todo != {}
        invariant todo <= art.Keys
        invariant forall s :: s in art && s !in todo ==> art[s].artId != artId
        decreases |todo|
      {
        var s :| s in todo;
        if art[s].artId == artId {
          assert View().art[s] == Art(artId, art[s].mime, art[s].image);
          return Some((art[s].mime, art[s].image));
        }
        todo := todo - {s};
      }
      return None;
    }

    // ----- Topology -----------------------------------------------------------------------------

    /** The source of one zone: renamed, or added idle. */
    method ReconcileSource(id: ZoneId)
      requires id in zones
      modifies this`sources
      ensures sources == old(sources)[id := if id in old(sources) then old(sources)[id].(name := zones[id].name)
                                            else IdleSource(id, zones[id].name)]
    {
      if id in sources {
        sources := sources[id := sources[id].(name := zones[id].name)];
      } else {
        sources := sources[id := IdleSource(id, zones[id].name)];
      }
    }

    /** Drop the sources whose zone is gone, rename the others, and add an idle one for every new zone. */
    method ReconcileAirplay()
      modifies this`sources
      ensures View() == SourcesReconciled(old(View()))
    {
      sources := map id | id in sources && id in zones :: sources[id];
      ghost var kept := sources;
      var todo := zones.Keys;
      while todo != {}
        invariant ReconciledBut(todo, zones, kept, sources)
        decreases |todo|
      {
        var id :| id in todo;
        ghost var before := sources;
        ReconcileSource(id);
        OneMoreReconciled(todo, zones, kept, before, id, sources[id]);
        todo := todo - {id};
      }
      AllReconciled(old(View()), kept, sources);
    }

    /** `id` is the generated id of the new zone. */
    method CreateZone(id: ZoneId, name: Text)
      requires Valid()
      modifies this
      ensures View() == EngineState.CreateZone(old(View()), id, name)
      ensures Valid()
      ensures Keeps(old(View()), old(NoSourceDrives(View(), id)), old(NoUrlDrives(View(), id)),
                    old(NoFeederDrives(View(), id)))
    {
      ghost var before, op := View(), OpCreateZone(id, name);
      zones := zones[id := Zone(name, [], None)];
      ReconcileAirplay();
      StepKeepsParts(before, op, View());
    }

    method DeleteZone(zone: ZoneId) returns (error: Option<EngineError>)
      requires Valid()
      modifies this, router, router.pool.slots
      ensures match EngineState.DeleteZone(old(View()), zone)
              case Ok(st) => View() == st && error == None
              case Err(e) => View() == old(View()) && error == Some(e)
      ensures Valid() && Keeps(old(View()), old(MayDelete(View(), zone)), true, true)
    {
      ghost var before, op := View(), OpDeleteZone(zone);
      if zone !in zones {
        StepKeepsParts(before, op, View());
        return Some(UnknownZone);
      }
      var removed := zones[zone];
      zones := zones - {zone};
      if removed.current.Some? {
        DetachDriver(removed.current.value);
      }
      router.ReleaseZone(zone);
      ReconcileAirplay();
      StepKeepsParts(before, op, View());
      return None;
    }

    method RenameZone(zone: ZoneId, name: Text) returns (error: Option<EngineError>)
      requires Valid()
      modifies this
      ensures match EngineState.RenameZone(old(View()), zone, name)
              case Ok(st) => View() == st && error == None
              case Err(e) => View() == old(View()) && error == Some(e)
      ensures Valid() && Keeps(old(View()), true, true, true)
    {
      ghost var before, op := View(), OpRenameZone(zone, name);
      if zone !in zones {
        StepKeepsParts(before, op, View());
        return Some(UnknownZone);
      }
      zones := zones[zone := zones[zone].(name := name)];
      ReconcileAirplay();
      StepKeepsParts(before, op, View());
      return None;
    }

    method SetZoneOutputs(zone: ZoneId, outputs: seq<OutputId>) returns (error: Option<EngineError>)
      requires Valid() && router.server.Valid()
      modifies this, router.server
      ensures router.server.Valid()
      ensures match EngineState.SetZoneOutputs(old(View()), zone, outputs)
              case Ok(st) => View() == st && error == None
              case Err(e) => View() == old(View()) && error == Some(e)
      ensures error == None ==> GroupsAgain(old(router.server.state), old(router.server.replies))
      ensures error != None ==> router.server.state == old(router.server.state)
      ensures Valid() && Keeps(old(View()), true, true, true)
    {
      ghost var before, op := View(), OpSetZoneOutputs(zone, outputs);
      if LOCAL_OUTPUT_ID in outputs && Dongles(outputs) != [] {
        StepKeepsParts(before, op, View());
        return Some(MixedZoneUnsupported);
      }
      for i := 0 to |outputs|
        invariant forall k :: 0 <= k < i ==> outputs[k] == LOCAL_OUTPUT_ID || outputs[k] in registry
      {
        if outputs[i] != LOCAL_OUTPUT_ID && outputs[i] !in registry {
          StepKeepsParts(before, op, View());
          return Some(UnknownOutput);
        }
      }
      if zone !in zones {
        StepKeepsParts(before, op, View());
        return Some(UnknownZone);
      }
      zones := zones[zone := zones[zone].(outputs := outputs)];
      var _ := router.ReconcileNow();
      StepKeepsParts(before, op, View());
      return None;
    }

    method RegisterDongle(id: OutputId, name: Text)
      requires Valid() && router.server.Valid()
      modifies this, router.server
      ensures router.server.Valid()
      ensures View() == AddDongle(old(View()), id, name)
      ensures GroupsAgain(old(router.server.state), old(router.server.replies))
      ensures Valid() && Keeps(old(View()), true, true, true)
    {
      ghost var before, op := View(), OpAddDongle(id, name);
      AddDongleOutput(id, name);
      StepKeepsParts(before, op, View());
      var _ := router.ReconcileNow();
    }

    method AddDongleOutput(id: OutputId, name: Text)
      modifies this
      ensures View() == AddDongle(old(View()), id, name)
    {
      registry := registry[id := Output(name, false, true)];
      if id !in zones {
        zones := zones[id := Zone(name, [id], None)];
      }
      ReconcileAirplay();
    }

    method DongleOffline(id: OutputId)
      requires Valid()
      modifies this
      ensures View() == EngineState.DongleOffline(old(View()), id)
      ensures Valid() && Keeps(old(View()), true, true, true)
    {
      ghost var before, op := View(), OpDongleOffline(id);
      if id in registry {
        registry := registry[id := registry[id].(online := false)];
      }
      StepKeepsParts(before, op, View());
    }
  }
}
