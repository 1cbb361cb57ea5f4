/**
 What the engine lists (src/audio/engine.rs): zones with their names and outputs, dongles that are online or not, and a
 source for each zone under its name. Over runs, all of it is told from the calls alone.
 */
module EngineDirectory {
  import opened Wrappers
  import opened StreamPools
  import opened EngineState
  import opened EngineParts
  import opened EngineMembers

  datatype Entry = Entry(name: Text, outputs: seq<OutputId>)

  /** The zones, and whether each dongle ever registered is online. */
  datatype Directory = Directory(zones: map<ZoneId, Entry>, dongles: map<OutputId, bool>)

  const NEW := Directory(map[DEFAULT_ZONE := Entry(HUB_DISPLAY_NAME, [LOCAL_OUTPUT_ID])], map[])

  /** Outputs are all dongles that were registered, or all the hub's device. */
  ghost predicate Acceptable(d: Directory, outputs: seq<OutputId>) {
    && (forall o, p :: o in outputs && p in outputs && o == LOCAL_OUTPUT_ID ==> p == LOCAL_OUTPUT_ID)
    && (forall o :: o in outputs && o != LOCAL_OUTPUT_ID ==> o in d.dongles)
  }

  /** What a call changes in the directory. */
  ghost function Listed(d: Directory, op: Op): (d': Directory) {
    match op
    case OpCreateZone(id, name) => d.(zones := d.zones[id := Entry(name, [])])
    case OpDeleteZone(zone) => d.(zones := d.zones - {zone})
    case OpRenameZone(zone, name) =>
      if zone in d.zones then d.(zones := d.zones[zone := d.zones[zone].(name := name)]) else d
    case OpSetZoneOutputs(zone, outputs) =>
      if zone in d.zones && Acceptable(d, outputs) then d.(zones := d.zones[zone := d.zones[zone].(outputs := outputs)])
      else d
    case OpAddDongle(id, name) =>
      Directory(if id in d.zones then d.zones else d.zones[id := Entry(name, [id])], d.dongles[id := true])
    case OpDongleOffline(id) => if id in d.dongles then d.(dongles := d.dongles[id := false]) else d
    case _ => d
  }

  ghost function After(ops: seq<Op>): (d: Directory) {
    if ops == [] then NEW else Listed(After(ops[..|ops| - 1]), ops[|ops| - 1])
  }

  /** The state lists what the directory says. */
  ghost predicate Lists(st: State, d: Directory) {
    && st.zones.Keys == d.zones.Keys
    && (forall z :: z in st.zones ==> Entry(st.zones[z].name, st.zones[z].outputs) == d.zones[z])
    && (forall o :: o != LOCAL_OUTPUT_ID ==> (o in st.registry <==> o in d.dongles))
    && (forall o :: o != LOCAL_OUTPUT_ID && o in st.registry ==> st.registry[o].online == d.dongles[o])
  }

  // ----- Calls that list nothing new --------------------------------------------------------------

  ghost predicate SameRegistry(st: State, st': State) {
    forall o :: o != LOCAL_OUTPUT_ID ==>
      (o in st'.registry <==> o in st.registry) && (o in st.registry ==> st'.registry[o] == st.registry[o])
  }

  /** Names, outputs and dongles are as they were. */
  ghost predicate SameListing(st: State, st': State) {
    && st'.zones.Keys == st.zones.Keys && st'.sources.Keys == st.sources.Keys
    && (forall z :: z in st.zones ==>
          st'.zones[z].name == st.zones[z].name && st'.zones[z].outputs == st.zones[z].outputs)
    && (forall s :: s in st.sources ==> st'.sources[s].name == st.sources[s].name)
    && SameRegistry(st, st')
  }

  lemma {:induction false} ResolvingLists(st: State, env: Env, zone: ZoneId, outputs: seq<OutputId>)
    requires ZoneSink(st, env, zone, outputs).Ok?
    ensures var st' := ZoneSink(st, env, zone, outputs).value.0;
            st'.zones == st.zones && st'.sources == st.sources && SameRegistry(st, st')
  {
  }

  lemma {:induction false} TakeLists(st: State, zone: ZoneId)
    ensures SameListing(st, PlayTake(st, zone))
  {
    TakeReplaces(st, zone);
    DetachedDesires(WithDriver(st, zone, None), CurrentDriver(st, zone));
  }

  lemma {:induction false} PlayLists(st: State, env: Env, zone: ZoneId)
    ensures SameListing(st, Step(st, OpPlay(env, zone)))
  {
    if Play(st, env, zone).Ok? {
      ResolvingLists(st, env, zone, st.zones[zone].outputs);
      TakeLists(ZoneSink(st, env, zone, st.zones[zone].outputs).value.0, zone);
    }
  }

  lemma {:induction false} ReroutedLists(st: State, s: ZoneId, zone: ZoneId, sink: Sink)
    requires s in st.sources && zone in st.zones && zone != st.sources[s].dest
    ensures SameListing(st, Rerouted(st, s, zone, sink))
  {
    MovedEffect(st, s, zone, sink);
    ReroutedKeepsOutputs(st, s, zone, sink, zone);
  }

  lemma {:induction false} RerouteLists(st: State, env: Env, s: ZoneId, zone: ZoneId)
    ensures SameListing(st, Step(st, OpReroute(env, s, zone)))
  {
    if Reroute(st, env, s, zone).Ok? && zone != st.sources[s].dest {
      ResolvingLists(st, env, zone, st.zones[zone].outputs);
      var (st1, sink) := ZoneSink(st, env, zone, st.zones[zone].outputs).value;
      ReroutedLists(st1, s, zone, sink);
    }
  }

  lemma {:induction false} SinkForSourceLists(st: State, env: Env, s: ZoneId)
    ensures SameListing(st, Step(st, OpSinkForSource(env, s)))
  {
    if s in st.sources && st.sources[s].dest in st.zones {
      var dest := st.sources[s].dest;
      if ZoneSink(st, env, dest, st.zones[dest].outputs).Ok? {
        ResolvingLists(st, env, dest, st.zones[dest].outputs);
      }
    }
  }

  lemma {:induction false} SessionBeganLists(st: State, s: ZoneId)
    ensures SameListing(st, SessionBegan(st, s))
  {
    if s in st.sources {
      BeganEffect(st, s);
      var source := st.sources[s].(active := true, routed := true, sink := None, now := NOTHING);
      var begun := st.(sources := st.sources[s := source], art := st.art - {s});
      DetachedDesires(WithDriver(begun, source.dest, Some(Airplay(s))), CurrentDriver(begun, source.dest));
    }
  }

  lemma {:induction false} SessionEndedLists(st: State, s: ZoneId)
    ensures SameListing(st, SessionEnded(st, s))
  {
    if s in st.sources {
      EndedEffect(st, s);
    }
  }

  /** The calls that may list something new, and those that give each zone its source. */
  predicate IsTopology(op: Op) {
    op.OpCreateZone? || op.OpDeleteZone? || op.OpRenameZone? || op.OpAddDongle? || op.OpEnableAirplay?
  }

  predicate IsMembership(op: Op) { op.OpSetZoneOutputs? || op.OpDongleOffline? }

  lemma {:induction false} OthersList(st: State, op: Op)
    requires !IsTopology(op) && !IsMembership(op)
    ensures SameListing(st, Step(st, op))
  {
    match op {
      case OpPlay(env, zone) => PlayLists(st, env, zone);
      case OpStop(zone) => TakeLists(st, zone);
      case OpReroute(env, s, zone) => RerouteLists(st, env, s, zone);
      case OpSinkForSource(env, s) => SinkForSourceLists(st, env, s);
      case OpSessionBegan(s) => SessionBeganLists(st, s);
      case OpSessionEnded(s) => SessionEndedLists(st, s);
      case _ => UpdatesList(st, op);
    }
  }

  lemma {:induction false} UpdatesList(st: State, op: Op)
    requires op.OpTrackUpdate? || op.OpArtUpdate?
    ensures SameListing(st, Step(st, op))
  {
  }

  // ----- Calls that do ----------------------------------------------------------------------------

  lemma {:induction false} SameListingLists(st: State, st': State, d: Directory)
    requires Lists(st, d) && SameListing(st, st')
    ensures Lists(st', d)
  {
  }

  lemma {:induction false} AcceptedExactly(st: State, zone: ZoneId, outputs: seq<OutputId>, d: Directory)
    requires Lists(st, d)
    ensures SetZoneOutputs(st, zone, outputs).Ok? <==> zone in d.zones && Acceptable(d, outputs)
  {
    var dongles := Dongles(outputs);
    if LOCAL_OUTPUT_ID in outputs && dongles != [] {
      assert dongles[0] in outputs;
    }
    if LOCAL_OUTPUT_ID in outputs && dongles == [] {
      assert forall o :: o in outputs ==> o == LOCAL_OUTPUT_ID;
    }
  }

  lemma {:induction false} MembershipLists(st: State, op: Op, d: Directory)
    requires Lists(st, d) && IsMembership(op)
    ensures Lists(Step(st, op), Listed(d, op))
  {
    if op.OpSetZoneOutputs? {
      AcceptedExactly(st, op.zone, op.outputs, d);
    }
  }

  lemma {:induction false} DeleteLists(st: State, zone: ZoneId, d: Directory)
    requires Lists(st, d)
    ensures Lists(Step(st, OpDeleteZone(zone)), Listed(d, OpDeleteZone(zone)))
  {
    if zone in st.zones {
      DetachedDesires(st.(zones := st.zones - {zone}), st.zones[zone].current);
    }
  }

  lemma {:induction false} TopologyLists(st: State, op: Op, d: Directory)
    requires Lists(st, d) && IsTopology(op)
    ensures Lists(Step(st, op), Listed(d, op))
  {
    match op {
      case OpDeleteZone(zone) => DeleteLists(st, zone, d);
      case OpCreateZone(id, name) => CreateLists(st, id, name, d);
      case OpRenameZone(zone, name) => RenameLists(st, zone, name, d);
      case OpAddDongle(id, name) => AddDongleLists(st, id, name, d);
      case OpEnableAirplay => assert Step(st, op).zones == st.zones && Step(st, op).registry == st.registry;
    }
  }

  lemma {:induction false} CreateLists(st: State, id: ZoneId, name: Text, d: Directory)
    requires Lists(st, d)
    ensures Lists(CreateZone(st, id, name), Listed(d, OpCreateZone(id, name)))
  {
  }

  lemma {:induction false} RenameLists(st: State, zone: ZoneId, name: Text, d: Directory)
    requires Lists(st, d)
    ensures Lists(Step(st, OpRenameZone(zone, name)), Listed(d, OpRenameZone(zone, name)))
  {
  }

  lemma {:induction false} AddDongleLists(st: State, id: OutputId, name: Text, d: Directory)
    requires Lists(st, d)
    ensures Lists(AddDongle(st, id, name), Listed(d, OpAddDongle(id, name)))
  {
  }

  lemma {:induction false} StepLists(st: State, op: Op, d: Directory)
    requires Lists(st, d)
    ensures Lists(Step(st, op), Listed(d, op))
  {
    if IsTopology(op) {
      TopologyLists(st, op, d);
    } else if IsMembership(op) {
      MembershipLists(st, op, d);
    } else {
      OthersList(st, op);
      SameListingLists(st, Step(st, op), d);
    }
  }

  /** In every run, zones, their names and outputs, and the dongles online are what the calls so far say. */
  lemma {:induction false} ListedByTheCalls(ops: seq<Op>, states: seq<State>, n: nat)
    requires IsRun(ops, states) && n <= |ops|
    ensures Lists(states[n], After(ops[..n]))
  {
    if n == 0 {
    } else {
      ListedByTheCalls(ops, states, n - 1);
      assert ops[..n][..n - 1] == ops[..n - 1] && ops[..n][n - 1] == ops[n - 1];
      StepLists(states[n - 1], ops[n - 1], After(ops[..n - 1]));
    }
  }

  // ----- A source for each zone -------------------------------------------------------------------

  /** The call gives each zone its source and leaves no other. */
  predicate Reconciles(st: State, op: Op) {
    match op
    case OpDeleteZone(zone) => zone in st.zones
    case OpRenameZone(zone, _) => zone in st.zones
    case _ => op.OpCreateZone? || op.OpAddDongle? || op.OpEnableAirplay?
  }

  ghost predicate OneSourceEach(st: State) {
    st.sources.Keys == st.zones.Keys && forall s :: s in st.sources ==> st.sources[s].name == st.zones[s].name
  }

  lemma {:induction false} DeleteGivesSources(st: State, zone: ZoneId)
    requires zone in st.zones
    ensures OneSourceEach(DeleteZone(st, zone).value)
  {
    DetachedDesires(st.(zones := st.zones - {zone}), st.zones[zone].current);
  }

  lemma {:induction false} ReconcilingGivesSources(st: State, op: Op)
    requires Reconciles(st, op)
    ensures OneSourceEach(Step(st, op))
  {
    if op.OpDeleteZone? {
      DeleteGivesSources(st, op.zone);
    }
  }

  lemma {:induction false} MembershipKeepsSources(st: State, op: Op)
    requires IsMembership(op)
    ensures Step(st, op).sources == st.sources && Step(st, op).zones.Keys == st.zones.Keys
    ensures forall z :: z in st.zones ==> Step(st, op).zones[z].name == st.zones[z].name
  {
  }

  lemma {:induction false} StepKeepsSources(st: State, op: Op)
    requires !Reconciles(st, op)
    ensures OneSourceEach(st) ==> OneSourceEach(Step(st, op))
    ensures st.sources == map[] ==> Step(st, op).sources == map[]
  {
    if IsMembership(op) {
      MembershipKeepsSources(st, op);
    } else if !IsTopology(op) {
      OthersList(st, op);
    }
  }

  ghost predicate HasReconciled(ops: seq<Op>, states: seq<State>, n: nat)
    requires |states| == |ops| + 1 && n <= |ops|
  {
    exists m :: 0 <= m < n && Reconciles(states[m], ops[m])
  }

  /** In every run: from the first call that reconciles the sources on, each zone has its source, under its name. */
  lemma {:induction false} EachZoneHasItsSource(ops: seq<Op>, states: seq<State>, n: nat)
    requires IsRun(ops, states) && n <= |ops|
    ensures if HasReconciled(ops, states, n) then OneSourceEach(states[n]) else states[n].sources == map[]
  {
    if n == 0 {
    } else {
      EachZoneHasItsSource(ops, states, n - 1);
      var last := n - 1;
      if Reconciles(states[last], ops[last]) {
        ReconcilingGivesSources(states[last], ops[last]);
      } else {
        StepKeepsSources(states[last], ops[last]);
        assert HasReconciled(ops, states, n) <==> HasReconciled(ops, states, last);
      }
    }
  }
}
