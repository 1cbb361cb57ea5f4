/**
 Where the engine falls short of what its comments say (src/audio/engine.rs): lock sections that
 are safe only under a condition the code does not check, and runs that end badly.
 */
module EngineRaces {
  import opened Wrappers
  import opened StreamPools
  import opened SnapcastRouters
  import opened EngineState
  import opened EngineParts
  import opened EngineInvariants
  import opened EngineStreams
  import opened EngineRuns

  // ----- play: taking the old driver and installing the new one are two sections -----------------

  /** Installing a pipeline keeps each part exactly if the zone is undriven, or the sink its own. */
  lemma {:induction false} InstallKeepsExactly(st: State, zone: ZoneId, sink: Sink)
    requires zone in st.zones
    ensures var st' := PlayInstall(st, zone, sink);
            && (DriversAgree(st) ==> (DriversAgree(st') <==> NoSourceDrives(st, zone)))
            && (PipelinesAccounted(st) ==> (PipelinesAccounted(st') <==> NoUrlDrives(st, zone)))
            && (SinksOwned(st) ==> (SinksOwned(st') <==> SinkOf(st, sink, zone)))
  {
    if DriversAgree(st) {
      InstallDriversExactly(st, zone, sink);
    }
    if PipelinesAccounted(st) {
      InstallPipelinesExactly(st, zone, sink);
    }
    if SinksOwned(st) {
      InstallSinksExactly(st, zone, sink);
    }
  }

  lemma {:induction false} InstallDriversExactly(st: State, zone: ZoneId, sink: Sink)
    requires zone in st.zones && DriversAgree(st)
    ensures DriversAgree(PlayInstall(st, zone, sink)) <==> NoSourceDrives(st, zone)
  {
    var st' := PlayInstall(st, zone, sink);
    if NoSourceDrives(st, zone) {
      InstallDrivers(st, zone, sink);
    } else {
      var s := CurrentDriver(st, zone).value.source;
      assert Feeds(st, s, zone) && st'.sources == st.sources;
      assert !DrivenBy(st', zone, s);
    }
  }

  lemma {:induction false} InstallPipelinesExactly(st: State, zone: ZoneId, sink: Sink)
    requires zone in st.zones && PipelinesAccounted(st)
    ensures PipelinesAccounted(PlayInstall(st, zone, sink)) <==> NoUrlDrives(st, zone)
  {
    if NoUrlDrives(st, zone) {
      InstallPipelines(st, zone, sink);
    } else {
      OverwrittenPipelineLeaks(st, zone, sink);
    }
  }

  lemma {:induction false} InstallSinksExactly(st: State, zone: ZoneId, sink: Sink)
    requires zone in st.zones && SinksOwned(st)
    ensures SinksOwned(PlayInstall(st, zone, sink)) <==> SinkOf(st, sink, zone)
  {
    var st' := PlayInstall(st, zone, sink);
    if SinkOf(st, sink, zone) {
      InstallSinks(st, zone, sink);
    } else {
      assert !SinkOf(st', st'.zones[zone].current.value.pipeline.sink, zone);
    }
  }

  /** The pipeline a zone ran when another one is installed over it is never stopped. */
  lemma {:induction false} OverwrittenPipelineLeaks(st: State, zone: ZoneId, sink: Sink)
    requires PipelinesAccounted(st) && zone in st.zones && !NoUrlDrives(st, zone)
    ensures var id, st' := CurrentDriver(st, zone).value.pipeline.id, PlayInstall(st, zone, sink);
            id < st'.spawned && st'.stops[id] == 0 && forall z :: !Runs(st', z, id)
  {
    var id, st' := CurrentDriver(st, zone).value.pipeline.id, PlayInstall(st, zone, sink);
    assert Runs(st, zone, id);
    forall z ensures !Runs(st', z, id) {
      assert z != zone && Runs(st', z, id) ==> Runs(st, z, id);
    }
  }

  /**
   Two plays on one zone, each taking the old driver before either installs its own: the first
   pipeline keeps running with nobody left to stop it.
   */
  lemma {:induction false} RacingPlaysLeakAPipeline(st: State, zone: ZoneId, sink: Sink)
    requires PipelinesAccounted(st) && zone in st.zones
    ensures var st' := PlayInstall(PlayInstall(PlayTake(PlayTake(st, zone), zone), zone, sink), zone, sink);
            var id := PlayTake(PlayTake(st, zone), zone).spawned;
            id < st'.spawned && st'.stops[id] == 0 && forall z :: !Runs(st', z, id)
  {
    var taken := PlayTake(PlayTake(st, zone), zone);
    TakePipelines(st, zone);
    TakePipelines(PlayTake(st, zone), zone);
    TakeReplaces(st, zone);
    TakeReplaces(PlayTake(st, zone), zone);
    InstallPipelines(taken, zone, sink);
    OverwrittenPipelineLeaks(PlayInstall(taken, zone, sink), zone, sink);
  }

  // ----- sink_for_source: the destination is not checked again before caching ---------------------

  /**
   Caching a sink resolved earlier leaves every writer the sink of its zone exactly if the source still has the
   destination it was resolved for, and the stream, if it is one, is still that zone's.
   */
  lemma {:induction false} CacheKeepsExactly(st: State, s: ZoneId, sink: Sink, resolvedFor: ZoneId)
    requires SinksOwned(st) && s in st.sources && st.sources[s].active && st.sources[s].routed
    ensures SinksOwned(SinkCached(st, s, Cached(sink, resolvedFor)).0)
            <==> st.sources[s].dest == resolvedFor && (sink.Stream? ==> Holds(st.routing.pool, sink.slot, resolvedFor))
  {
    var cached := Cached(sink, resolvedFor);
    var st' := SinkCached(st, s, cached).0;
    if CacheOf(st, cached, st.sources[s].dest) {
      CachedSinks(st, s, cached);
    } else {
      assert !CacheOf(st', st'.sources[s].sink.value, st'.sources[s].dest);
    }
  }

  /**
   A stream resolved for the old zone and cached after a reroute: the source then writes into a
   stream that was freed, and that the next zone to play may be given.
   */
  lemma {:induction false} StaleSinkIsCached(st: State, env: Env, s: ZoneId, zone: ZoneId, k: nat)
    requires Injective(st.routing.pool) && DriversAgree(st)
    requires s in st.sources && st.sources[s].routed && zone != st.sources[s].dest
    requires Holds(st.routing.pool, k, st.sources[s].dest)
    requires Reroute(st, env, s, zone).Ok?
    ensures var st' := SinkCached(Reroute(st, env, s, zone).value, s, Cached(Stream(k), st.sources[s].dest)).0;
            && WriterSink(st', SourceWriter(s)) == Some(Stream(k))
            && forall z :: !Holds(st'.routing.pool, k, z)
  {
    var moved := Reroute(st, env, s, zone).value;
    RerouteMovesOne(st, env, s, zone);
    RerouteFreesTheOldStream(st, env, s, zone, k);
    assert SinkCached(moved, s, Cached(Stream(k), st.sources[s].dest)).0.routing == moved.routing;
  }

  /**
   The hub's own device, slow to open, is cached after a reroute to another zone: the source is that zone's driver
   and holds a stream for it, but plays on the hub.
   */
  lemma {:induction false} StaleDeviceIsCached(st: State, env: Env, s: ZoneId, zone: ZoneId)
    requires Injective(st.routing.pool) && DriversAgree(st)
    requires s in st.sources && st.sources[s].routed && zone != st.sources[s].dest
    requires Reroute(st, env, s, zone).Ok?
    ensures var moved := Reroute(st, env, s, zone).value;
            var st' := SinkCached(moved, s, Cached(Local, st.sources[s].dest)).0;
            && DrivenBy(st', zone, s) && Feeds(st', s, zone) && st'.routing == moved.routing
            && WriterSink(st', SourceWriter(s)) == Some(Local) && !SinksOwned(st')
  {
    var moved := Reroute(st, env, s, zone).value;
    RerouteMovesOne(st, env, s, zone);
    var st' := SinkCached(moved, s, Cached(Local, st.sources[s].dest)).0;
    assert !CacheOf(st', st'.sources[s].sink.value, st'.sources[s].dest);
  }

  lemma {:induction false} RerouteFreesTheOldStream(st: State, env: Env, s: ZoneId, zone: ZoneId, k: nat)
    requires Injective(st.routing.pool) && DriversAgree(st)
    requires s in st.sources && st.sources[s].routed && zone != st.sources[s].dest
    requires Holds(st.routing.pool, k, st.sources[s].dest)
    requires Reroute(st, env, s, zone).Ok?
    ensures forall z :: !Holds(Reroute(st, env, s, zone).value.routing.pool, k, z)
  {
    ZoneSinkGrants(st, env, zone, st.zones[zone].outputs);
    var (st1, sink) := ZoneSink(st, env, zone, st.zones[zone].outputs).value;
    DriverIffFeeds(st, st.sources[s].dest, s);
    MovedEffect(st1, s, zone, sink);
    MovedStreams(st1, s, zone, sink, Rerouted(st1, s, zone, sink));
    assert Holds(st1.routing.pool, k, st.sources[s].dest);
  }

  // ----- session_began: the art is evicted in a later section than the art id is cleared ---------

  /** `session_began`, first section. */
  function SessionBlanked(st: State, s: ZoneId): State
    requires s in st.sources
  {
    st.(sources := st.sources[s := st.sources[s].(active := true, routed := true, sink := None, now := NOTHING)])
  }

  /** `session_began`, second section. */
  function ArtEvicted(st: State, s: ZoneId): State { st.(art := st.art - {s}) }

  /** The second section keeps every art id fetchable exactly if the source still shows none. */
  lemma {:induction false} EvictionKeepsArtExactly(st: State, s: ZoneId, digest: Image -> Text)
    requires ArtCached(st, digest)
    ensures ArtCached(ArtEvicted(st, s), digest) <==> (s in st.sources ==> st.sources[s].now.artId == EMPTY)
  {
    var st' := ArtEvicted(st, s);
    if s in st.sources && st.sources[s].now.artId != EMPTY {
      assert s !in st'.art && s in st'.sources;
    }
  }

  /** Art that arrives between the two sections is shown by a source in session, and cannot be fetched. */
  lemma {:induction false} ArtBetweenSectionsIsLost(st: State, s: ZoneId, image: Image, artId: Text)
    requires s in st.sources && artId != EMPTY
    requires forall t :: t in st.art && t != s ==> st.art[t].artId != artId
    ensures var st' := ArtEvicted(ArtUpdate(SessionBlanked(st, s), s, image, artId), s);
            && st'.sources[s].active && st'.sources[s].now.artId == artId
            && forall r :: Fetches(st', artId, r) ==> r == None
  {
    var updated := ArtUpdate(SessionBlanked(st, s), s, image, artId);
    var st' := ArtEvicted(updated, s);
    assert updated.art == st.art[s := Art(artId, SniffMime(image), image)];
    assert forall t :: t in st'.art ==> t != s && t in st.art && st'.art[t] == st.art[t];
  }

  // ----- session_ended: the stream is freed whoever drives the zone now ---------------------------

  const A := Id(10)
  const B := Id(11)
  const UP := Env(true, true)

  /** Zones A and B of one online dongle each, with `a` and `b` as drivers; A's source at home. */
  ghost predicate TwoZones(st: State, a: Option<Driver>, b: Option<Driver>) {
    && A in st.zones && st.zones[A].outputs == [A] && st.zones[A].current == a && IsOnline(st.registry, A)
    && B in st.zones && st.zones[B].outputs == [B] && st.zones[B].current == b && IsOnline(st.registry, B)
    && A in st.sources && st.sources[A].dest == A
    && |st.routing.pool| == STREAM_POOL_SIZE
  }

  /** Stream 0 is allocated to `holder`, all the others to nobody. */
  ghost predicate OnlyFirstHeld(st: State, holder: Option<ZoneId>) {
    && |st.routing.pool| > 0 && st.routing.pool[0] == holder
    && forall k :: 0 < k < |st.routing.pool| ==> st.routing.pool[k] == None
  }

  lemma {:induction false} FirstStreamGranted(pool: Allocation, zone: ZoneId)
    requires |pool| > 0 && forall k :: 0 <= k < |pool| ==> pool[k] == None
    ensures Allocated(pool, zone) == (pool[0 := Some(zone)], Some(0))
  {
    FirstIsFind(pool, None, 0);
  }

  lemma {:induction false} OneDongle(registry: map<OutputId, Output>, dongle: OutputId)
    requires IsOnline(registry, dongle) && dongle != LOCAL_OUTPUT_ID
    ensures Dongles([dongle]) == [dongle] && Online(registry, [dongle]) == [dongle] && LOCAL_OUTPUT_ID !in [dongle]
  {
    assert [dongle][1..] == [];
    assert Dongles([]) == [] && Online(registry, []) == [] && [dongle] + [] == [dongle];
  }

  lemma {:induction false} PlayOnDongle(st: State, zone: ZoneId, a: Option<Driver>, b: Option<Driver>)
    requires TwoZones(st, a, b) && OnlyFirstHeld(st, None) && zone in {A, B}
    ensures var url := Some(Url(Pipeline(st.spawned, Stream(0))));
            var st' := Step(st, OpPlay(UP, zone));
            && TwoZones(st', if zone == A then url else a, if zone == B then url else b)
            && OnlyFirstHeld(st', Some(zone))
  {
    FirstStreamGranted(st.routing.pool, zone);
    assert st.zones[zone].outputs == [zone];
    OneDongle(st.registry, zone);
    var (st1, sink) := ZoneSink(st, UP, zone, [zone]).value;
    assert sink == Stream(0) && st1 == st.(routing := st1.routing);
    TakeReplaces(st1, zone);
  }

  lemma {:induction false} EndOnA(st: State, url: Driver)
    requires TwoZones(st, Some(url), None) && url.Url? && OnlyFirstHeld(st, Some(A))
    ensures TwoZones(Step(st, OpSessionEnded(A)), Some(url), None)
    ensures OnlyFirstHeld(Step(st, OpSessionEnded(A)), None)
  {
    EndedEffect(st, A);
  }

  lemma {:induction false} BeginOnA(st: State)
    requires TwoZones(st, None, None)
    ensures TwoZones(Step(st, OpSessionBegan(A)), Some(Airplay(A)), None)
    ensures Step(st, OpSessionBegan(A)).routing == st.routing
  {
  }

  lemma {:induction false} TwoDongles(name: Text)
    ensures var st := Step(Step(Initial(), OpAddDongle(A, name)), OpAddDongle(B, name));
            TwoZones(st, None, None) && OnlyFirstHeld(st, None)
  {
    var st := AddDongle(Initial(), A, name);
    assert A in st.zones && st.zones[A] == Zone(name, [A], None) && A in st.sources && st.sources[A].dest == A;
    assert st.routing == Initial().routing;
  }

  /** A URL plays over A's session and the session ends; B plays next. */
  lemma {:induction false} UrlOutlivesSession(st: State)
    requires TwoZones(st, Some(Airplay(A)), None) && OnlyFirstHeld(st, None)
    ensures var st' := Step(Step(Step(st, OpPlay(UP, A)), OpSessionEnded(A)), OpPlay(UP, B));
            && WriterSink(st', UrlWriter(A)) == Some(Stream(0))
            && WriterSink(st', UrlWriter(B)) == Some(Stream(0))
  {
    var url := Url(Pipeline(st.spawned, Stream(0)));
    PlayOnDongle(st, A, Some(Airplay(A)), None);
    var st1 := Step(st, OpPlay(UP, A));
    EndOnA(st1, url);
    var st2 := Step(st1, OpSessionEnded(A));
    PlayOnDongle(st2, B, Some(url), None);
  }

  /**
   A run that ends with two pipelines writing into one stream: an AirPlay session on zone A loses the
   zone to a URL; when the session ends, A's stream is freed under the URL pipeline, and the next zone
   to play is given the same stream.
   */
  lemma {:induction false} EndedSessionSharesAStream(name: Text)
    ensures var ops := [OpAddDongle(A, name), OpAddDongle(B, name), OpSessionBegan(A),
                        OpPlay(UP, A), OpSessionEnded(A), OpPlay(UP, B)];
            var st := After(Initial(), ops);
            && WriterSink(st, UrlWriter(A)) == Some(Stream(0))
            && WriterSink(st, UrlWriter(B)) == Some(Stream(0))
  {
    TwoDongles(name);
    var st := Step(Step(Initial(), OpAddDongle(A, name)), OpAddDongle(B, name));
    BeginOnA(st);
    UrlOutlivesSession(Step(st, OpSessionBegan(A)));
    var tail := [OpSessionBegan(A), OpPlay(UP, A), OpSessionEnded(A), OpPlay(UP, B)];
    AfterTwo(Initial(), [OpAddDongle(A, name), OpAddDongle(B, name)] + tail);
    AfterTwo(st, tail);
    AfterTwo(Step(Step(st, OpSessionBegan(A)), OpPlay(UP, A)), [OpSessionEnded(A), OpPlay(UP, B)]);
  }

  // ----- sink_for_source again: a run of a new engine ---------------------------------------------

  /** A session in the hub's zone, nothing cached yet, next to the undriven zone A of an online dongle. */
  ghost predicate HubSession(st: State) {
    && DEFAULT_ZONE in st.zones && st.zones[DEFAULT_ZONE].outputs == [LOCAL_OUTPUT_ID]
    && DEFAULT_ZONE in st.sources && st.sources[DEFAULT_ZONE].dest == DEFAULT_ZONE
    && st.sources[DEFAULT_ZONE].active && st.sources[DEFAULT_ZONE].routed && st.sources[DEFAULT_ZONE].sink == None
    && A in st.zones && st.zones[A].outputs == [A] && IsOnline(st.registry, A)
    && OnlyFirstHeld(st, None) && Tidy(st) && DriversAgree(st)
  }

  /** A new engine comes to such a state by two calls. */
  lemma {:induction false} HubSessionBegins(name: Text)
    ensures HubSession(Step(Step(Initial(), OpAddDongle(A, name)), OpSessionBegan(DEFAULT_ZONE)))
  {
    var st, op := Step(Initial(), OpAddDongle(A, name)), OpSessionBegan(DEFAULT_ZONE);
    InitialInv();
    StepStaysTidy(Initial(), OpAddDongle(A, name));
    StepKeepsDriversExactly(Initial(), OpAddDongle(A, name));
    assert DEFAULT_ZONE in st.sources && st.sources[DEFAULT_ZONE] == IdleSource(DEFAULT_ZONE, HUB_DISPLAY_NAME);
    assert A in st.zones && st.zones[A] == Zone(name, [A], None) && st.routing == Initial().routing;
    StepStaysTidy(st, op);
    StepKeepsDriversExactly(st, op);
    BeganEffect(st, DEFAULT_ZONE);
  }

  /** The hub's outputs resolve to its device, which is opened if it is not open yet. */
  lemma {:induction false} HubResolves(st: State)
    ensures ZoneSink(st, UP, DEFAULT_ZONE, [LOCAL_OUTPUT_ID]) == EnsureLocal(st, true)
    ensures EnsureLocal(st, true).Ok? && EnsureLocal(st, true).value.1 == Local
    ensures EnsureLocal(st, true).value.0 == st.(registry := EnsureLocal(st, true).value.0.registry)
  {
    assert [LOCAL_OUTPUT_ID][1..] == [];
    assert Dongles([LOCAL_OUTPUT_ID]) == [] + Dongles([]) == [];
  }

  /** The dongle's zone is granted the first stream. */
  lemma {:induction false} DongleResolves(st: State) returns (st1: State)
    requires HubSession(st)
    ensures ZoneSink(st, UP, A, st.zones[A].outputs) == Ok((st1, Stream(0)))
    ensures st1 == st.(routing := st1.routing)
  {
    FirstStreamGranted(st.routing.pool, A);
    OneDongle(st.registry, A);
    st1 := ZoneSink(st, UP, A, [A]).value.0;
  }

  lemma {:induction false} HubSessionMoves(st: State)
    requires HubSession(st)
    ensures Reroute(st, UP, DEFAULT_ZONE, A).Ok?
    ensures var moved := Reroute(st, UP, DEFAULT_ZONE, A).value;
            && DrivenBy(moved, A, DEFAULT_ZONE) && Feeds(moved, DEFAULT_ZONE, A)
            && WriterSink(moved, SourceWriter(DEFAULT_ZONE)) == Some(Stream(0))
  {
    var st1 := DongleResolves(st);
    DriverIffFeeds(st, A, DEFAULT_ZONE);
    MovedEffect(st1, DEFAULT_ZONE, A, Stream(0));
  }

  /** From there: the session moves to the dongle while the device is opened for a chunk; then the device is cached. */
  lemma {:induction false} SessionStaysOnTheHub(st: State)
    requires HubSession(st)
    ensures var moved := Step(st, OpReroute(UP, DEFAULT_ZONE, A));
            var found := ZoneSink(moved, UP, DEFAULT_ZONE, st.zones[DEFAULT_ZONE].outputs);
            && WriterSink(moved, SourceWriter(DEFAULT_ZONE)) == Some(Stream(0)) && found.Ok?
            && var st' := SinkCached(found.value.0, DEFAULT_ZONE, Cached(found.value.1, DEFAULT_ZONE)).0;
               DrivenBy(st', A, DEFAULT_ZONE) && WriterSink(st', SourceWriter(DEFAULT_ZONE)) == Some(Local)
  {
    HubSessionMoves(st);
    HubResolves(Step(st, OpReroute(UP, DEFAULT_ZONE, A)));
  }

  // ----- delete_zone: the source of the zone may be driving another zone --------------------------

  /** The session of A moves to B and A is deleted: B is driven by a source that is gone. */
  lemma {:induction false} DeletedHomeLeavesADriver(name: Text)
    ensures var ops := [OpAddDongle(A, name), OpAddDongle(B, name), OpSessionBegan(A), OpReroute(UP, A, B),
                        OpDeleteZone(A)];
            var st := After(Initial(), ops);
            DrivenBy(st, B, A) && A !in st.sources && A !in st.zones
  {
    TwoDongles(name);
    var st := Step(Step(Initial(), OpAddDongle(A, name)), OpAddDongle(B, name));
    BeginOnA(st);
    var begun := Step(st, OpSessionBegan(A));
    BeganEffect(st, A);
    MoveToB(begun);
    DeleteA(Step(begun, OpReroute(UP, A, B)));
    var tail := [OpSessionBegan(A), OpReroute(UP, A, B), OpDeleteZone(A)];
    AfterTwo(Initial(), [OpAddDongle(A, name), OpAddDongle(B, name)] + tail);
    AfterTwo(st, tail);
    AfterOne(Step(begun, OpReroute(UP, A, B)), OpDeleteZone(A));
  }

  lemma {:induction false} OneSafeCall(st: State, op: Op)
    requires Tidy(st) && Owned(st) && SafeForStreams(st, op)
    ensures Tidy(Step(st, op)) && Owned(Step(st, op))
  {
    StepStaysTidy(st, op);
    StepKeepsStreamsExactly(st, op);
  }

  lemma {:induction false} SafeCalls(st: State, ops: seq<Op>)
    requires Tidy(st) && Owned(st)
    requires forall op :: op in ops ==> !op.OpSessionBegan? && !op.OpSessionEnded? && !op.OpCreateZone?
    ensures Owned(After(st, ops))
    decreases |ops|
  {
    if ops == [] {
    } else {
      OneSafeCall(st, ops[0]);
      SafeCalls(Step(st, ops[0]), ops[1..]);
    }
  }

  lemma {:induction false} TwoDonglesOwned(name: Text)
    ensures var st := Step(Step(Initial(), OpAddDongle(A, name)), OpAddDongle(B, name));
            Tidy(st) && Owned(st)
  {
    InitialInv();
    OneSafeCall(Initial(), OpAddDongle(A, name));
    OneSafeCall(Step(Initial(), OpAddDongle(A, name)), OpAddDongle(B, name));
  }

  lemma {:induction false} OwnedFromTwoZones(st: State)
    requires TwoZones(st, None, None) && Tidy(st) && Owned(st)
    ensures Owned(After(st, [OpSessionBegan(A), OpReroute(UP, A, B), OpDeleteZone(A)]))
  {
    var tail := [OpReroute(UP, A, B), OpDeleteZone(A)];
    OneSafeCall(st, OpSessionBegan(A));
    SafeCalls(Step(st, OpSessionBegan(A)), tail);
    AfterOneMore(st, OpSessionBegan(A), tail);
    assert [OpSessionBegan(A)] + tail == [OpSessionBegan(A), OpReroute(UP, A, B), OpDeleteZone(A)];
  }

  /** In the same run every writer still has a sink of its own zone: only the drivers no longer agree. */
  lemma {:induction false} StreamsSurviveADeletedHome(name: Text)
    ensures var ops := [OpAddDongle(A, name), OpAddDongle(B, name), OpSessionBegan(A), OpReroute(UP, A, B),
                        OpDeleteZone(A)];
            Owned(After(Initial(), ops))
  {
    TwoDongles(name);
    TwoDonglesOwned(name);
    OwnedFromTwoZones(Step(Step(Initial(), OpAddDongle(A, name)), OpAddDongle(B, name)));
    AfterTwo(Initial(), [OpAddDongle(A, name), OpAddDongle(B, name), OpSessionBegan(A), OpReroute(UP, A, B),
                         OpDeleteZone(A)]);
  }

  lemma {:induction false} AfterOneMore(st: State, op: Op, ops: seq<Op>)
    ensures After(st, [op] + ops) == After(Step(st, op), ops)
  {
    assert ([op] + ops)[1..] == ops;
  }

  lemma {:induction false} MoveToB(st: State)
    requires TwoZones(st, Some(Airplay(A)), None) && OnlyFirstHeld(st, None) && st.sources[A].active
    ensures var st' := Step(st, OpReroute(UP, A, B));
            DrivenBy(st', B, A) && A in st'.zones && B in st'.zones && CurrentDriver(st', A) == None
  {
    FirstStreamGranted(st.routing.pool, B);
    OneDongle(st.registry, B);
    var (st1, sink) := ZoneSink(st, UP, B, [B]).value;
    assert st1 == st.(routing := st1.routing);
    MovedEffect(st1, A, B, sink);
  }

  lemma {:induction false} DeleteA(st: State)
    requires DrivenBy(st, B, A) && A in st.zones && B in st.zones && CurrentDriver(st, A) == None
    ensures var st' := Step(st, OpDeleteZone(A));
            DrivenBy(st', B, A) && A !in st'.sources && A !in st'.zones
  {
  }

  lemma {:induction false} AfterOne(st: State, op: Op)
    ensures After(st, [op]) == Step(st, op)
  {
    assert [op][1..] == [];
  }

  /** The state the calls of `ops` lead to from `st`. */
  function After(st: State, ops: seq<Op>): State
    decreases |ops|
  {
    if ops == [] then st else After(Step(st, ops[0]), ops[1..])
  }

  lemma {:induction false} AfterTwo(st: State, ops: seq<Op>)
    requires |ops| >= 2
    ensures After(st, ops) == After(Step(Step(st, ops[0]), ops[1]), ops[2..])
  {
    assert ops[1..][1..] == ops[2..];
  }
}
