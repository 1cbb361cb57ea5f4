/**
 Who writes into which stream (src/audio/engine.rs): every writer has a sink of its own zone, as long as every routed
 source is its destination's driver. Which calls keep this, exactly, and over which runs; and all parts together.
 */
module EngineStreams {
  import opened Wrappers
  import opened StreamPools
  import opened SnapcastRouters
  import opened EngineState
  import opened EngineParts
  import opened EngineInvariants

  // ----- The guards -------------------------------------------------------------------------------

  /** The guard of `session_began`: the source has a zone to drive, be it driving one already or not. */
  predicate HasZone(st: State, s: ZoneId) { s in st.sources ==> st.sources[s].dest in st.zones }

  /** The guard of `create_zone`: no routed source has its place where the zone is put. */
  predicate NoFeederDrives(st: State, id: ZoneId) {
    match CurrentDriver(st, id)
    case Some(Airplay(s)) => s in st.sources && st.sources[s].dest == id ==> !st.sources[s].routed
    case _ => true
  }

  /** The guard that would make `session_ended` safe: nobody else writes to the stream it frees. */
  predicate MayEnd(st: State, s: ZoneId) {
    s in st.sources ==>
      match CurrentDriver(st, st.sources[s].dest)
      case None => true
      case Some(Url(p)) => p.sink.Local?
      case Some(Airplay(t)) =>
        t != s && t in st.sources && st.sources[t].dest == st.sources[s].dest && st.sources[t].sink.Some? ==>
          st.sources[t].sink.value.sink.Local?
  }

  /** The exact condition, checkable before the call, under which `op` keeps every writer at its own zone's sink. */
  predicate SafeForStreams(st: State, op: Op) {
    match op
    case OpSessionBegan(s) => HasZone(st, s)
    case OpSessionEnded(s) => MayEnd(st, s)
    case OpCreateZone(id, _) => NoFeederDrives(st, id)
    case _ => true
  }

  // ----- Routed sources are drivers ---------------------------------------------------------------

  lemma {:induction false} SameDriversRouted(st: State, st': State)
    requires RoutedDrive(st) && SameDrivers(st, st')
    ensures RoutedDrive(st')
  {
    forall s | s in st'.sources && st'.sources[s].routed ensures DrivenBy(st', st'.sources[s].dest, s) {
      assert DrivenBy(st, st.sources[s].dest, s);
    }
  }

  lemma {:induction false} TakeRouted(st: State, zone: ZoneId)
    requires RoutedDrive(st)
    ensures RoutedDrive(PlayTake(st, zone))
  {
    var st' := PlayTake(st, zone);
    TakeReplaces(st, zone);
    forall s | s in st'.sources && st'.sources[s].routed ensures DrivenBy(st', st'.sources[s].dest, s) {
      assert st.sources[s].routed && !DrivenBy(st, zone, s);
    }
  }

  lemma {:induction false} InstallRouted(st: State, zone: ZoneId, sink: Sink)
    requires RoutedDrive(st) && NoSourceDrives(st, zone)
    ensures RoutedDrive(PlayInstall(st, zone, sink))
  {
    var st' := PlayInstall(st, zone, sink);
    forall s | s in st'.sources && st'.sources[s].routed ensures DrivenBy(st', st'.sources[s].dest, s) {
      assert DrivenBy(st, st.sources[s].dest, s);
    }
  }

  lemma {:induction false} PlayRouted(st: State, env: Env, zone: ZoneId)
    requires Tidy(st) && RoutedDrive(st) && Play(st, env, zone).Ok?
    ensures RoutedDrive(Play(st, env, zone).value)
  {
    ZoneSinkGrants(st, env, zone, st.zones[zone].outputs);
    var (st1, sink) := ZoneSink(st, env, zone, st.zones[zone].outputs).value;
    SameDriversRouted(st, st1);
    TakeRouted(st1, zone);
    TakeReplaces(st1, zone);
    InstallRouted(PlayTake(st1, zone), zone, sink);
  }

  lemma {:induction false} StopRouted(st: State, zone: ZoneId)
    requires RoutedDrive(st)
    ensures RoutedDrive(Stop(st, zone))
  {
    TakeRouted(st, zone);
    SameDriversRouted(PlayTake(st, zone), Stop(st, zone));
  }

  /** A session that begins twice leaves its source unrouted, and so no harm is done here. */
  lemma {:induction false} BeganRouted(st: State, s: ZoneId, st': State)
    requires RoutedDrive(st) && s in st.sources && Began(st, s, st')
    ensures RoutedDrive(st') <==> HasZone(st, s)
  {
    var dest := st.sources[s].dest;
    if HasZone(st, s) {
      forall t | t in st'.sources && st'.sources[t].routed ensures DrivenBy(st', st'.sources[t].dest, t) {
        if t != s {
          assert st.sources[t].routed && !DrivenBy(st, dest, t) && DrivenBy(st, st.sources[t].dest, t);
        }
      }
    } else {
      assert st'.sources[s].routed && !DrivenBy(st', dest, s);
    }
  }

  lemma {:induction false} EndedRouted(st: State, s: ZoneId, st': State)
    requires RoutedDrive(st) && s in st.sources && Ended(st, s, st')
    ensures RoutedDrive(st')
  {
    forall t | t in st'.sources && st'.sources[t].routed ensures DrivenBy(st', st'.sources[t].dest, t) {
      assert t != s && st.sources[t].routed;
      assert DrivenBy(st, st.sources[t].dest, t);
    }
  }

  lemma {:induction false} MovedRouted(st: State, s: ZoneId, zone: ZoneId, sink: Sink, st': State)
    requires RoutedDrive(st) && s in st.sources
    requires zone in st.zones && zone != st.sources[s].dest && Moved(st, s, zone, sink, st')
    ensures RoutedDrive(st')
  {
    forall t | t in st'.sources && st'.sources[t].routed ensures DrivenBy(st', st'.sources[t].dest, t) {
      if t != s {
        assert st.sources[t].routed && !DrivenBy(st, zone, t);
        assert DrivenBy(st, st.sources[t].dest, t);
      }
    }
  }

  lemma {:induction false} RoutesNothingRouted(st: State, st': State)
    requires RoutedDrive(st) && RoutesNothing(st, st')
    ensures RoutedDrive(st')
  {
    forall s | s in st'.sources && st'.sources[s].routed ensures DrivenBy(st', st'.sources[s].dest, s) {
      assert DrivenBy(st, st.sources[s].dest, s);
    }
  }

  lemma {:induction false} CreatedRouted(st: State, id: ZoneId, st': State)
    requires Tidy(st) && RoutedDrive(st) && Created(st, id, st')
    ensures RoutedDrive(st') <==> NoFeederDrives(st, id)
  {
    if NoFeederDrives(st, id) {
      forall s | s in st'.sources && st'.sources[s].routed ensures DrivenBy(st', st'.sources[s].dest, s) {
        assert DrivenBy(st, st.sources[s].dest, s);
      }
    } else {
      var s := CurrentDriver(st, id).value.source;
      assert SameRoute(st'.sources[s], st.sources[s]) && !DrivenBy(st', id, s);
    }
  }

  /** Deleting a zone takes the routes of those that drove it, and never anybody else's zone. */
  lemma {:induction false} DeletedRouted(st: State, zone: ZoneId, st': State)
    requires Tidy(st) && RoutedDrive(st) && zone in st.zones && Deleted(st, zone, st')
    ensures RoutedDrive(st')
  {
    forall s | s in st'.sources && st'.sources[s].routed ensures DrivenBy(st', st'.sources[s].dest, s) {
      assert s in st.sources && st.sources[s].routed && !DrivenBy(st, zone, s);
      assert DrivenBy(st, st.sources[s].dest, s);
    }
  }

  // ----- Sinks are their writers' zones' ----------------------------------------------------------

  lemma {:induction false} ResolvedSinks(st: State, st': State)
    requires SinksOwned(st) && Resolved(st, st')
    ensures SinksOwned(st')
  {
  }

  lemma {:induction false} TakeSinks(st: State, zone: ZoneId)
    requires SinksOwned(st)
    ensures SinksOwned(PlayTake(st, zone))
  {
    TakeReplaces(st, zone);
  }

  lemma {:induction false} InstallSinks(st: State, zone: ZoneId, sink: Sink)
    requires SinksOwned(st) && SinkOf(st, sink, zone)
    ensures SinksOwned(PlayInstall(st, zone, sink))
  {
  }

  /** Freeing a zone's stream is safe when nothing drives the zone. */
  lemma {:induction false} FreeSinks(st: State, zone: ZoneId)
    requires Tidy(st) && Owned(st) && CurrentDriver(st, zone) == None
    ensures SinksOwned(Freed(st, zone))
  {
    ReleaseTakesOnlyOwn(st.routing.pool, zone);
  }

  lemma {:induction false} PlaySinks(st: State, env: Env, zone: ZoneId)
    requires Tidy(st) && SinksOwned(st) && Play(st, env, zone).Ok?
    ensures SinksOwned(Play(st, env, zone).value)
  {
    ZoneSinkGrants(st, env, zone, st.zones[zone].outputs);
    var (st1, sink) := ZoneSink(st, env, zone, st.zones[zone].outputs).value;
    ResolvedSinks(st, st1);
    TakeSinks(st1, zone);
    TakeReplaces(st1, zone);
    InstallSinks(PlayTake(st1, zone), zone, sink);
  }

  lemma {:induction false} StopSinks(st: State, zone: ZoneId)
    requires Tidy(st) && Owned(st)
    ensures SinksOwned(Stop(st, zone))
  {
    TakeStaysTidy(st, zone);
    TakeRouted(st, zone);
    TakeSinks(st, zone);
    TakeReplaces(st, zone);
    FreeSinks(PlayTake(st, zone), zone);
  }

  lemma {:induction false} BeganSinks(st: State, s: ZoneId, st': State)
    requires SinksOwned(st) && s in st.sources && Began(st, s, st')
    ensures SinksOwned(st')
  {
  }

  lemma {:induction false} EndedSinks(st: State, s: ZoneId, st': State)
    requires Tidy(st) && Owned(st) && s in st.sources && Ended(st, s, st')
    ensures SinksOwned(st') <==> MayEnd(st, s)
  {
    var dest := st.sources[s].dest;
    ReleaseTakesOnlyOwn(st.routing.pool, dest);
    if MayEnd(st, s) {
      forall t | t in st'.sources && st'.sources[t].sink.Some?
        ensures CacheOf(st', st'.sources[t].sink.value, st'.sources[t].dest)
      {
        assert t != s && DrivenBy(st, st.sources[t].dest, t);
      }
    } else if CurrentDriver(st, dest).value.Airplay? {
      var t := CurrentDriver(st, dest).value.source;
      assert st'.sources[t] == st.sources[t];
      assert !CacheOf(st', st'.sources[t].sink.value, st'.sources[t].dest);
    } else {
      assert st'.zones[dest] == st.zones[dest];
      assert !SinkOf(st', st'.zones[dest].current.value.pipeline.sink, dest);
    }
  }

  lemma {:induction false} MovedSinks(st: State, s: ZoneId, zone: ZoneId, sink: Sink, st': State)
    requires Tidy(st) && Owned(st) && s in st.sources && SinkOf(st, sink, zone)
    requires zone in st.zones && zone != st.sources[s].dest && Moved(st, s, zone, sink, st')
    ensures SinksOwned(st')
  {
    var dest := st.sources[s].dest;
    ReleaseTakesOnlyOwn(st.routing.pool, dest);
    forall t | t in st'.sources && st'.sources[t].sink.Some?
      ensures CacheOf(st', st'.sources[t].sink.value, st'.sources[t].dest)
    {
      if t != s {
        assert st'.sources[t] == st.sources[t];
        assert DrivenBy(st, st.sources[t].dest, t);
      }
    }
    forall z | z in st'.zones && st'.zones[z].current.Some? && st'.zones[z].current.value.Url?
      ensures SinkOf(st', st'.zones[z].current.value.pipeline.sink, z)
    {
      assert z != zone && st'.zones[z] == st.zones[z];
    }
  }

  lemma {:induction false} SinkForSourceSinks(st: State, env: Env, s: ZoneId)
    requires Tidy(st) && SinksOwned(st)
    ensures SinksOwned(SinkForSource(st, env, s).0)
  {
    if s in st.sources && st.sources[s].dest in st.zones {
      var dest := st.sources[s].dest;
      if ZoneSink(st, env, dest, st.zones[dest].outputs).Ok? {
        ZoneSinkGrants(st, env, dest, st.zones[dest].outputs);
        var (st1, sink) := ZoneSink(st, env, dest, st.zones[dest].outputs).value;
        ResolvedSinks(st, st1);
        CachedSinks(st1, s, Cached(sink, dest));
      }
    }
  }

  lemma {:induction false} CachedSinks(st: State, s: ZoneId, cached: Cached)
    requires SinksOwned(st) && s in st.sources && CacheOf(st, cached, st.sources[s].dest)
    ensures SinksOwned(SinkCached(st, s, cached).0)
  {
  }

  lemma {:induction false} RoutesNothingSinks(st: State, st': State)
    requires SinksOwned(st) && RoutesNothing(st, st')
    ensures SinksOwned(st')
  {
  }

  lemma {:induction false} CreatedSinks(st: State, id: ZoneId, st': State)
    requires SinksOwned(st) && Created(st, id, st')
    ensures SinksOwned(st')
  {
  }

  lemma {:induction false} DeletedSinks(st: State, zone: ZoneId, st': State)
    requires Tidy(st) && Owned(st) && zone in st.zones && Deleted(st, zone, st')
    ensures SinksOwned(st')
  {
    ReleaseTakesOnlyOwn(st.routing.pool, zone);
    forall s | s in st'.sources && st'.sources[s].sink.Some?
      ensures CacheOf(st', st'.sources[s].sink.value, st'.sources[s].dest)
    {
      assert s in st.sources && !DrivenBy(st, zone, s) && DrivenBy(st, st.sources[s].dest, s);
    }
  }

  // ----- Both, call by call -----------------------------------------------------------------------

  lemma {:induction false} RerouteKeepsOwned(st: State, env: Env, s: ZoneId, zone: ZoneId)
    requires Tidy(st) && Owned(st) && Reroute(st, env, s, zone).Ok?
    ensures Owned(Reroute(st, env, s, zone).value)
  {
    if zone != st.sources[s].dest {
      ZoneSinkGrants(st, env, zone, st.zones[zone].outputs);
      var (st1, sink) := ZoneSink(st, env, zone, st.zones[zone].outputs).value;
      ResolvedStaysTidy(st, st1);
      SameDriversRouted(st, st1);
      ResolvedSinks(st, st1);
      MovedEffect(st1, s, zone, sink);
      MovedRouted(st1, s, zone, sink, Rerouted(st1, s, zone, sink));
      MovedSinks(st1, s, zone, sink, Rerouted(st1, s, zone, sink));
    }
  }

  lemma {:induction false} PlayKeepsOwned(st: State, env: Env, zone: ZoneId)
    requires Tidy(st) && Owned(st)
    ensures Owned(OrElse(Play(st, env, zone), st))
  {
    if Play(st, env, zone).Ok? {
      PlayRouted(st, env, zone);
      PlaySinks(st, env, zone);
    }
  }

  lemma {:induction false} StopKeepsOwned(st: State, zone: ZoneId)
    requires Tidy(st) && Owned(st)
    ensures Owned(Stop(st, zone))
  {
    StopRouted(st, zone);
    StopSinks(st, zone);
  }

  lemma {:induction false} SinkForSourceKeepsOwned(st: State, env: Env, s: ZoneId)
    requires Tidy(st) && Owned(st)
    ensures Owned(SinkForSource(st, env, s).0)
  {
    SinkForSourceSameDrivers(st, env, s);
    SameDriversRouted(st, SinkForSource(st, env, s).0);
    SinkForSourceSinks(st, env, s);
  }

  lemma {:induction false} SessionBeganKeepsOwnedExactly(st: State, s: ZoneId)
    requires Owned(st)
    ensures Owned(SessionBegan(st, s)) <==> HasZone(st, s)
  {
    if s in st.sources {
      BeganEffect(st, s);
      BeganRouted(st, s, SessionBegan(st, s));
      BeganSinks(st, s, SessionBegan(st, s));
    }
  }

  /**
   `session_ended` frees the destination's stream whoever drives the destination now, so it leaves every
   writer its stream exactly when nobody else writes to that one.
   */
  lemma {:induction false} SessionEndedKeepsExactly(st: State, s: ZoneId)
    requires Tidy(st) && Owned(st)
    ensures RoutedDrive(SessionEnded(st, s))
    ensures SinksOwned(SessionEnded(st, s)) <==> MayEnd(st, s)
  {
    if s in st.sources {
      EndedEffect(st, s);
      EndedRouted(st, s, SessionEnded(st, s));
      EndedSinks(st, s, SessionEnded(st, s));
    }
  }

  lemma {:induction false} CreateZoneKeepsOwnedExactly(st: State, id: ZoneId, name: Text)
    requires Tidy(st) && Owned(st)
    ensures Owned(CreateZone(st, id, name)) <==> NoFeederDrives(st, id)
  {
    CreatedEffect(st, id, name);
    CreatedRouted(st, id, CreateZone(st, id, name));
    CreatedSinks(st, id, CreateZone(st, id, name));
  }

  /** `delete_zone` takes no writer its stream, whoever drives what. */
  lemma {:induction false} DeleteZoneKeepsOwned(st: State, zone: ZoneId)
    requires Tidy(st) && Owned(st)
    ensures Owned(OrElse(DeleteZone(st, zone), st))
  {
    if zone in st.zones {
      DeletedEffect(st, zone);
      DeletedRouted(st, zone, DeleteZone(st, zone).value);
      DeletedSinks(st, zone, DeleteZone(st, zone).value);
    }
  }

  lemma {:induction false} PlaybackKeepsOwned(st: State, op: Op)
    requires Tidy(st) && Owned(st) && IsPlayback(op)
    ensures Owned(Step(st, op))
  {
    match op {
      case OpPlay(env, zone) => PlayKeepsOwned(st, env, zone);
      case OpStop(zone) => StopKeepsOwned(st, zone);
      case OpReroute(env, s, zone) => if Reroute(st, env, s, zone).Ok? { RerouteKeepsOwned(st, env, s, zone); }
      case OpSinkForSource(env, s) => SinkForSourceKeepsOwned(st, env, s);
    }
  }

  lemma {:induction false} SessionOrZoneKeepsOwnedExactly(st: State, op: Op)
    requires Tidy(st) && Owned(st) && IsSessionOrZone(op)
    ensures Owned(Step(st, op)) <==> SafeForStreams(st, op)
  {
    match op {
      case OpSessionBegan(s) => SessionBeganKeepsOwnedExactly(st, s);
      case OpSessionEnded(s) => SessionEndedKeepsExactly(st, s);
      case OpCreateZone(id, name) => CreateZoneKeepsOwnedExactly(st, id, name);
      case OpDeleteZone(zone) => DeleteZoneKeepsOwned(st, zone);
    }
  }

  /** Routed sources drive and writers own their sinks: every call keeps this exactly when it is safe for it. */
  lemma {:induction false} StepKeepsStreamsExactly(st: State, op: Op)
    requires Tidy(st) && Owned(st)
    ensures Owned(Step(st, op)) <==> SafeForStreams(st, op)
  {
    if IsPlayback(op) {
      PlaybackKeepsOwned(st, op);
    } else if IsSessionOrZone(op) {
      SessionOrZoneKeepsOwnedExactly(st, op);
    } else {
      QuietStepRoutesNothing(st, op);
      RoutesNothingRouted(st, Step(st, op));
      RoutesNothingSinks(st, Step(st, op));
    }
  }

  /** Where drivers agree, what is safe for them is safe here, but for the end of a session. */
  lemma {:induction false} SafeForDriversIsSafeHere(st: State, op: Op)
    requires DriversAgree(st) && SafeForDrivers(st, op) && (op.OpSessionEnded? ==> MayEnd(st, op.source))
    ensures SafeForStreams(st, op)
  {
    if op.OpCreateZone? && CurrentDriver(st, op.id).Some? {
      assert CurrentDriver(st, op.id).value.Url?;
    }
  }

  // ----- All parts of one call --------------------------------------------------------------------

  /** Of each part that held in `st`, whether it holds in `st'`. */
  ghost predicate KeepsParts(st: State, st': State, drivers: bool, pipelines: bool, streams: bool) {
    && (DriversAgree(st) ==> (DriversAgree(st') <==> drivers))
    && (PipelinesAccounted(st) ==> (PipelinesAccounted(st') <==> pipelines))
    && (Owned(st) ==> (Owned(st') <==> streams))
  }

  lemma {:induction false} StepKeepsParts(st: State, op: Op, st': State)
    requires Tidy(st) && st' == Step(st, op)
    ensures Tidy(st')
    ensures KeepsParts(st, st', SafeForDrivers(st, op), SafeForPipelines(st, op), SafeForStreams(st, op))
  {
    StepStaysTidy(st, op);
    if DriversAgree(st) {
      StepKeepsDriversExactly(st, op);
    }
    if PipelinesAccounted(st) {
      StepKeepsPipelinesExactly(st, op);
    }
    if Owned(st) {
      StepKeepsStreamsExactly(st, op);
    }
  }

  // ----- Every run --------------------------------------------------------------------------------

  /** In every run, every writer has had a sink of its own zone up to now iff every call up to now was safe for it. */
  lemma {:induction false} RunKeepsStreamsExactly(ops: seq<Op>, states: seq<State>, n: nat)
    requires IsRun(ops, states) && n <= |ops|
    ensures Always(states, n, Owned) <==> Obeyed(ops, states, n, SafeForStreams)
  {
    InitialInv();
    forall m | 0 <= m < n ensures KeptExactly(states[m], ops[m], Owned, SafeForStreams) {
      RunsStayTidy(ops, states, m);
      if Owned(states[m]) {
        StepKeepsStreamsExactly(states[m], ops[m]);
      }
    }
    AlwaysExactly(ops, states, n, Owned, SafeForStreams);
  }

  /**
   So in a run of safe calls no two writers ever write into one stream; and when no zone that runs a URL was created
   again, every pipeline that was started and not stopped is one of the writers.
   */
  lemma {:induction false} NoTwoWritersInRuns(ops: seq<Op>, states: seq<State>, n: nat)
    requires IsRun(ops, states) && n <= |ops| && Obeyed(ops, states, n, SafeForStreams)
    ensures forall v, w, k :: WriterSink(states[n], v) == WriterSink(states[n], w) == Some(Stream(k)) ==> v == w
    ensures Obeyed(ops, states, n, SafeForPipelines) ==>
              forall id: nat :: id < states[n].spawned && states[n].stops[id] == 0 ==>
                exists zone :: Runs(states[n], zone, id) && WriterSink(states[n], UrlWriter(zone)).Some?
  {
    RunKeepsStreamsExactly(ops, states, n);
    RunsStayTidy(ops, states, n);
    assert Owned(states[n]);
    forall v, w, k | WriterSink(states[n], v) == WriterSink(states[n], w) == Some(Stream(k)) ensures v == w {
      NoTwoWritersPerStream(states[n], v, w, k);
    }
    if Obeyed(ops, states, n, SafeForPipelines) {
      RunKeepsPipelinesExactly(ops, states, n);
      assert PipelinesAccounted(states[n]);
      forall id: nat | id < states[n].spawned && states[n].stops[id] == 0
        ensures exists zone :: Runs(states[n], zone, id) && WriterSink(states[n], UrlWriter(zone)).Some?
      {
        var zone :| Runs(states[n], zone, id);
        assert WriterSink(states[n], UrlWriter(zone)).Some?;
      }
    }
  }
}
