/**
 The engine's state and the atomic effect of each of its public methods (src/audio/engine.rs).
 `Engine` (module Engines) is proved against these functions; their own properties are proved in
 the other Engine modules.
 */
module EngineState {
  import opened Wrappers
  import opened StreamPools
  import opened SnapcastRouters

  type OutputId = Id
  type Image = seq<nat>

  /** The ids `local` and `default`. */
  const LOCAL_OUTPUT_ID: OutputId := Id(0)
  const DEFAULT_ZONE: ZoneId := Id(1)

  /** The texts the engine itself uses. */
  const EMPTY := Text(0)
  const HUB_DISPLAY_NAME := Text(1)
  const LOCAL_NAME := Text(2)
  const JPEG := Text(3)
  const PNG := Text(4)
  const OCTET_STREAM := Text(5)

  datatype EngineError =
    | UnknownZone | UnknownSource | UnknownOutput | ZoneHasNoOutputs | MixedZoneUnsupported
    | DeviceUnavailable | Router(error: RouterError)

  /** Where PCM goes: the hub's own device, or the FIFO of a pool stream. */
  datatype Sink = Local | Stream(slot: nat)

  /** A running decode pipeline: the identity of its thread, and the sink the thread captured. */
  datatype Pipeline = Pipeline(id: nat, sink: Sink)

  datatype Driver = Url(pipeline: Pipeline) | Airplay(source: ZoneId)

  datatype Zone = Zone(name: Text, outputs: seq<OutputId>, current: Option<Driver>)

  datatype NowPlaying = NowPlaying(title: Text, artist: Text, album: Text, client: Text, artId: Text)

  const NOTHING := NowPlaying(EMPTY, EMPTY, EMPTY, EMPTY, EMPTY)

  /** The sink a source has cached, and the zone it was resolved for; no call looks at the latter. */
  datatype Cached = Cached(sink: Sink, zone: ZoneId)

  datatype Source = Source(name: Text, dest: ZoneId, active: bool, routed: bool, sink: Option<Cached>, now: NowPlaying)

  datatype Output = Output(name: Text, direct: bool, online: bool)

  datatype Art = Art(artId: Text, mime: Text, image: Image)

  /** `spawned` pipelines were ever started, numbered from 0; `stops` counts the shutdowns of each. */
  datatype State = State(
    zones: map<ZoneId, Zone>,
    sources: map<ZoneId, Source>,
    routing: Routing,
    registry: map<OutputId, Output>,
    art: map<ZoneId, Art>,
    spawned: nat,
    stops: multiset<nat>)

  /** Outcomes the hub does not control: whether its device opens, and whether snapserver is up. */
  datatype Env = Env(deviceOpens: bool, serverUp: bool)

  function Initial(): State {
    State(map[DEFAULT_ZONE := Zone(HUB_DISPLAY_NAME, [LOCAL_OUTPUT_ID], None)], map[],
          Routing(seq(STREAM_POOL_SIZE, _ => None), map[]), map[], map[], 0, multiset{})
  }

  // ----- Sink resolution ------------------------------------------------------------------------

  function EnsureLocal(st: State, opens: bool): Result<(State, Sink), EngineError> {
    if LOCAL_OUTPUT_ID in st.registry && st.registry[LOCAL_OUTPUT_ID].direct && st.registry[LOCAL_OUTPUT_ID].online then
      Ok((st, Local))
    else if opens then
      Ok((st.(registry := st.registry[LOCAL_OUTPUT_ID := Output(LOCAL_NAME, true, true)]), Local))
    else
      Err(DeviceUnavailable)
  }

  /** The dongles among `outputs`, in order. */
  function Dongles(outputs: seq<OutputId>): (r: seq<OutputId>)
    ensures forall o :: o in r <==> o in outputs && o != LOCAL_OUTPUT_ID
  {
    if outputs == [] then []
    else (if outputs[0] != LOCAL_OUTPUT_ID then [outputs[0]] else []) + Dongles(outputs[1..])
  }

  predicate IsOnline(registry: map<OutputId, Output>, o: OutputId) {
    o in registry && registry[o].online
  }

  /** The online outputs among `outputs`, in order. */
  function Online(registry: map<OutputId, Output>, outputs: seq<OutputId>): (r: seq<OutputId>)
    ensures forall o :: o in r <==> o in outputs && IsOnline(registry, o)
  {
    if outputs == [] then []
    else (if IsOnline(registry, outputs[0]) then [outputs[0]] else []) + Online(registry, outputs[1..])
  }

  function ZoneSink(st: State, env: Env, zone: ZoneId, outputs: seq<OutputId>): Result<(State, Sink), EngineError> {
    var dongles := Dongles(outputs);
    if LOCAL_OUTPUT_ID in outputs && dongles != [] then Err(MixedZoneUnsupported)
    else if LOCAL_OUTPUT_ID in outputs then EnsureLocal(st, env.deviceOpens)
    else
      var online := Online(st.registry, dongles);
      if online == [] then Err(ZoneHasNoOutputs)
      else
        match Requested(st.routing, zone, online, env.serverUp)
        case Err(e) => Err(Router(e))
        case Ok((routing, slot)) => Ok((st.(routing := routing), Stream(slot)))
  }

  /** The resolution of a zone's sink by a call that resolves one. */
  function Resolving(st: State, op: Op): Option<Result<(State, Sink), EngineError>> {
    match op
    case OpPlay(env, zone) => if zone in st.zones then Some(ZoneSink(st, env, zone, st.zones[zone].outputs)) else None
    case OpReroute(env, s, zone) =>
      if s in st.sources && st.sources[s].active && zone != st.sources[s].dest && zone in st.zones
      then Some(ZoneSink(st, env, zone, st.zones[zone].outputs))
      else None
    case OpSinkForSource(env, s) =>
      if s in st.sources && st.sources[s].active && st.sources[s].routed && st.sources[s].sink == None
         && st.sources[s].dest in st.zones
      then Some(ZoneSink(st, env, st.sources[s].dest, st.zones[st.sources[s].dest].outputs))
      else None
    case _ => None
  }

  // ----- Building blocks ------------------------------------------------------------------------

  function WithDriver(st: State, zone: ZoneId, driver: Option<Driver>): State {
    if zone in st.zones then st.(zones := st.zones[zone := st.zones[zone].(current := driver)]) else st
  }

  function CurrentDriver(st: State, zone: ZoneId): Option<Driver> {
    if zone in st.zones then st.zones[zone].current else None
  }

  /** AirPlay source `s` is the driver of `zone`. */
  predicate DrivenBy(st: State, zone: ZoneId, s: ZoneId) {
    var driver := CurrentDriver(st, zone);
    driver.Some? && driver.value.Airplay? && driver.value.source == s
  }

  /** Tear a previous driver down: stop its pipeline, or mark its source unrouted. */
  function Detached(st: State, driver: Option<Driver>): State {
    match driver
    case None => st
    case Some(Url(p)) => st.(stops := st.stops + multiset{p.id})
    case Some(Airplay(s)) =>
      if s in st.sources then st.(sources := st.sources[s := st.sources[s].(routed := false, sink := None)]) else st
  }

  function Freed(st: State, zone: ZoneId): State {
    st.(routing := Dropped(st.routing, zone))
  }

  function IdleSource(id: ZoneId, name: Text): Source {
    Source(name, id, false, false, None, NOTHING)
  }

  /** One source per zone: new zones get an idle one, vanished zones lose theirs. */
  function SourcesReconciled(st: State): State {
    st.(sources := map id | id in st.zones ::
                     if id in st.sources then st.sources[id].(name := st.zones[id].name)
                     else IdleSource(id, st.zones[id].name))
  }

  // ----- Playback -------------------------------------------------------------------------------

  /** `play`, second section: take the zone's driver and tear it down. */
  function PlayTake(st: State, zone: ZoneId): State {
    Detached(WithDriver(st, zone, None), CurrentDriver(st, zone))
  }

  /** `play`, third section: start a pipeline on `sink` and make it the zone's driver. */
  function PlayInstall(st: State, zone: ZoneId, sink: Sink): State {
    WithDriver(st, zone, Some(Url(Pipeline(st.spawned, sink)))).(spawned := st.spawned + 1)
  }

  function Play(st: State, env: Env, zone: ZoneId): Result<State, EngineError> {
    if zone !in st.zones then Err(UnknownZone)
    else
      match ZoneSink(st, env, zone, st.zones[zone].outputs)
      case Err(e) => Err(e)
      case Ok((st', sink)) => Ok(PlayInstall(PlayTake(st', zone), zone, sink))
  }

  function Stop(st: State, zone: ZoneId): State {
    Freed(PlayTake(st, zone), zone)
  }

  // ----- AirPlay sessions -----------------------------------------------------------------------

  function SessionBegan(st: State, s: ZoneId): State {
    if s !in st.sources then st
    else
      var source := st.sources[s].(active := true, routed := true, sink := None, now := NOTHING);
      var begun := st.(sources := st.sources[s := source], art := st.art - {s});
      Detached(WithDriver(begun, source.dest, Some(Airplay(s))), CurrentDriver(begun, source.dest))
  }

  function SessionEnded(st: State, s: ZoneId): State {
    if s !in st.sources then st
    else
      var dest := st.sources[s].dest;
      var ended := st.(sources := st.sources[s := IdleSource(s, st.sources[s].name)], art := st.art - {s});
      var cleared := if DrivenBy(ended, dest, s) then WithDriver(ended, dest, None) else ended;
      Freed(cleared, dest)
  }

  /** `reroute`, step 5: the source points at its new zone and caches the zone's sink. */
  function Pointed(st: State, s: ZoneId, zone: ZoneId, sink: Sink): State
    requires s in st.sources
  {
    st.(sources := st.sources[s := st.sources[s].(dest := zone, routed := true, sink := Some(Cached(sink, zone)))])
  }

  /** `reroute`, step 5a: if the source still drove its old zone, clear that driver and free the stream. */
  function Left(st: State, s: ZoneId, dest: ZoneId): State {
    if DrivenBy(st, dest, s) then Freed(WithDriver(st, dest, None), dest) else st
  }

  /** The commit of a reroute, once `sink` is resolved: the source takes over the new zone. */
  function Rerouted(st: State, s: ZoneId, zone: ZoneId, sink: Sink): State
    requires s in st.sources
  {
    var left := Left(Pointed(st, s, zone, sink), s, st.sources[s].dest);
    WithDriver(PlayTake(left, zone), zone, Some(Airplay(s)))
  }

  function Reroute(st: State, env: Env, s: ZoneId, zone: ZoneId): Result<State, EngineError> {
    if s !in st.sources || !st.sources[s].active then Err(UnknownSource)
    else if zone == st.sources[s].dest then Ok(st)
    else if zone !in st.zones then Err(UnknownZone)
    else
      match ZoneSink(st, env, zone, st.zones[zone].outputs)
      case Err(e) => Err(e)
      case Ok((st', sink)) => Ok(Rerouted(st', s, zone, sink))
  }

  /** `sink_for_source`, second section: cache a sink resolved off the locks. */
  function SinkCached(st: State, s: ZoneId, cached: Cached): (State, Option<Sink>) {
    if s !in st.sources || !st.sources[s].active || !st.sources[s].routed then (st, None)
    else (st.(sources := st.sources[s := st.sources[s].(sink := Some(cached))]), Some(cached.sink))
  }

  function SinkForSource(st: State, env: Env, s: ZoneId): (State, Option<Sink>) {
    if s !in st.sources || !st.sources[s].active || !st.sources[s].routed then (st, None)
    else if st.sources[s].sink.Some? then (st, Some(st.sources[s].sink.value.sink))
    else if st.sources[s].dest !in st.zones then (st, None)
    else
      var dest := st.sources[s].dest;
      match ZoneSink(st, env, dest, st.zones[dest].outputs)
      case Err(_) => (st, None)
      case Ok((st', sink)) => SinkCached(st', s, Cached(sink, dest))
  }

  // ----- Metadata -------------------------------------------------------------------------------

  /** A track commit replaces all text fields, except that an empty client leaves the old one. */
  function Commit(now: NowPlaying, title: Text, artist: Text, album: Text, client: Text): NowPlaying {
    now.(title := title, artist := artist, album := album, client := if client == EMPTY then now.client else client)
  }

  function TrackUpdate(st: State, s: ZoneId, title: Text, artist: Text, album: Text, client: Text): State {
    if s !in st.sources then st
    else st.(sources := st.sources[s := st.sources[s].(now := Commit(st.sources[s].now, title, artist, album, client))])
  }

  function SniffMime(image: Image): Text {
    if [0xFF, 0xD8, 0xFF] <= image then JPEG
    else if [0x89, 0x50, 0x4E, 0x47] <= image then PNG
    else OCTET_STREAM
  }

  function ArtUpdate(st: State, s: ZoneId, image: Image, artId: Text): State {
    if s !in st.sources then st
    else
      st.(sources := st.sources[s := st.sources[s].(now := st.sources[s].now.(artId := artId))],
          art := st.art[s := Art(artId, SniffMime(image), image)])
  }

  // ----- Topology -------------------------------------------------------------------------------

  function CreateZone(st: State, id: ZoneId, name: Text): State {
    SourcesReconciled(st.(zones := st.zones[id := Zone(name, [], None)]))
  }

  function DeleteZone(st: State, zone: ZoneId): Result<State, EngineError> {
    if zone !in st.zones then Err(UnknownZone)
    else Ok(SourcesReconciled(Freed(Detached(st.(zones := st.zones - {zone}), st.zones[zone].current), zone)))
  }

  function RenameZone(st: State, zone: ZoneId, name: Text): Result<State, EngineError> {
    if zone !in st.zones then Err(UnknownZone)
    else Ok(SourcesReconciled(st.(zones := st.zones[zone := st.zones[zone].(name := name)])))
  }

  function SetZoneOutputs(st: State, zone: ZoneId, outputs: seq<OutputId>): Result<State, EngineError> {
    if LOCAL_OUTPUT_ID in outputs && Dongles(outputs) != [] then Err(MixedZoneUnsupported)
    else if exists o :: o in outputs && o != LOCAL_OUTPUT_ID && o !in st.registry then Err(UnknownOutput)
    else if zone !in st.zones then Err(UnknownZone)
    else Ok(st.(zones := st.zones[zone := st.zones[zone].(outputs := outputs)]))
  }

  function AddDongle(st: State, id: OutputId, name: Text): State {
    var registered := st.(registry := st.registry[id := Output(name, false, true)]);
    SourcesReconciled(
      if id in st.zones then registered else registered.(zones := st.zones[id := Zone(name, [id], None)]))
  }

  function DongleOffline(st: State, id: OutputId): State {
    if id in st.registry then st.(registry := st.registry[id := st.registry[id].(online := false)]) else st
  }

  // ----- Steps and runs -------------------------------------------------------------------------

  /** A call of a public method. `artId` is the content hash of `image`; `id` is the generated zone id. */
  datatype Op =
    | OpPlay(env: Env, zone: ZoneId)
    | OpStop(zone: ZoneId)
    | OpSessionBegan(source: ZoneId)
    | OpSessionEnded(source: ZoneId)
    | OpReroute(env: Env, source: ZoneId, zone: ZoneId)
    | OpSinkForSource(env: Env, source: ZoneId)
    | OpTrackUpdate(source: ZoneId, title: Text, artist: Text, album: Text, client: Text)
    | OpArtUpdate(source: ZoneId, image: Image, artId: Text)
    | OpCreateZone(id: ZoneId, name: Text)
    | OpDeleteZone(zone: ZoneId)
    | OpRenameZone(zone: ZoneId, name: Text)
    | OpSetZoneOutputs(zone: ZoneId, outputs: seq<OutputId>)
    | OpAddDongle(output: OutputId, name: Text)
    | OpDongleOffline(output: OutputId)
    | OpEnableAirplay

  function OrElse(r: Result<State, EngineError>, st: State): State {
    if r.Ok? then r.value else st
  }

  function Step(st: State, op: Op): State {
    match op
    case OpPlay(env, zone) => OrElse(Play(st, env, zone), st)
    case OpStop(zone) => Stop(st, zone)
    case OpSessionBegan(s) => SessionBegan(st, s)
    case OpSessionEnded(s) => SessionEnded(st, s)
    case OpReroute(env, s, zone) => OrElse(Reroute(st, env, s, zone), st)
    case OpSinkForSource(env, s) => SinkForSource(st, env, s).0
    case OpTrackUpdate(s, title, artist, album, client) => TrackUpdate(st, s, title, artist, album, client)
    case OpArtUpdate(s, image, artId) => ArtUpdate(st, s, image, artId)
    case OpCreateZone(id, name) => CreateZone(st, id, name)
    case OpDeleteZone(zone) => OrElse(DeleteZone(st, zone), st)
    case OpRenameZone(zone, name) => OrElse(RenameZone(st, zone, name), st)
    case OpSetZoneOutputs(zone, outputs) => OrElse(SetZoneOutputs(st, zone, outputs), st)
    case OpAddDongle(id, name) => AddDongle(st, id, name)
    case OpDongleOffline(id) => DongleOffline(st, id)
    case OpEnableAirplay => SourcesReconciled(st)
  }

  /** `states` are the states a new engine goes through under the calls of `ops`. */
  ghost predicate IsRun(ops: seq<Op>, states: seq<State>) {
    && |states| == |ops| + 1
    && states[0] == Initial()
    && forall n :: 0 <= n < |ops| ==> states[n + 1] == Step(states[n], ops[n])
  }
}
