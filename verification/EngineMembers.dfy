/**
 Which clients a playing zone is given (src/audio/engine.rs, src/audio/snapcast_router.rs): the router's desired
 clients of a zone are written only when a sink is granted, so they are its online outputs at that moment. Which
 calls leave them what its online outputs are now, exactly, and over which runs.
 */
module EngineMembers {
  import opened Wrappers
  import opened Sequences
  import opened StreamPools
  import opened SnapcastControl
  import opened SnapcastRouters
  import opened EngineState
  import opened EngineInvariants

  /** The online dongles among a zone's outputs. */
  function Members(st: State, zone: ZoneId): (clients: seq<ClientId>) {
    if zone in st.zones then Online(st.registry, Dongles(st.zones[zone].outputs)) else []
  }

  /** Resolving the zone's sink would be granted a stream. */
  predicate GetsStream(st: State, env: Env, zone: ZoneId) {
    zone in st.zones && var r := ZoneSink(st, env, zone, st.zones[zone].outputs); r.Ok? && r.value.1.Stream?
  }

  /** The zone that the call has a stream granted for. */
  function Granted(st: State, op: Op): (zone: Option<ZoneId>) {
    match op
    case OpPlay(env, zone) => if GetsStream(st, env, zone) then Some(zone) else None
    case OpReroute(env, s, zone) =>
      if s in st.sources && st.sources[s].active && zone != st.sources[s].dest && GetsStream(st, env, zone)
      then Some(zone) else None
    case OpSinkForSource(env, s) =>
      if s in st.sources && st.sources[s].active && st.sources[s].routed && st.sources[s].sink == None
         && GetsStream(st, env, st.sources[s].dest)
      then Some(st.sources[s].dest) else None
    case _ => None
  }

  /** Only existing zones have desired clients. */
  ghost predicate Anchored(st: State) { st.routing.desired.Keys <= st.zones.Keys }

  // ----- What one call writes ---------------------------------------------------------------------

  lemma {:induction false} ResolvingWrites(st: State, env: Env, zone: ZoneId)
    requires zone in st.zones && ZoneSink(st, env, zone, st.zones[zone].outputs).Ok?
    ensures var (st', sink) := ZoneSink(st, env, zone, st.zones[zone].outputs).value;
            && st' == st.(routing := st'.routing, registry := st'.registry)
            && st'.routing.desired ==
               if GetsStream(st, env, zone) then st.routing.desired[zone := Members(st, zone)] else st.routing.desired
  {
  }

  /** What is desired for a zone after a call was desired before, or is what the call's grant found online. */
  ghost predicate Writes(st: State, op: Op, st': State) {
    && (forall zone :: zone in st'.routing.desired ==>
          if Granted(st, op) == Some(zone) then st'.routing.desired[zone] == Members(st, zone)
          else zone in st.routing.desired && st'.routing.desired[zone] == st.routing.desired[zone])
    && (Granted(st, op).Some? ==> Granted(st, op).value in st'.routing.desired)
  }

  lemma {:induction false} DetachedDesires(st: State, driver: Option<Driver>)
    ensures Detached(st, driver).routing == st.routing && Detached(st, driver).registry == st.registry
    ensures Detached(st, driver).zones == st.zones
  {
  }

  lemma {:induction false} PlayWrites(st: State, env: Env, zone: ZoneId)
    ensures Writes(st, OpPlay(env, zone), Step(st, OpPlay(env, zone)))
  {
    if zone in st.zones && ZoneSink(st, env, zone, st.zones[zone].outputs).Ok? {
      ResolvingWrites(st, env, zone);
      var (st1, _) := ZoneSink(st, env, zone, st.zones[zone].outputs).value;
      DetachedDesires(WithDriver(st1, zone, None), CurrentDriver(st1, zone));
    }
  }

  lemma {:induction false} LeftDesires(st: State, s: ZoneId, dest: ZoneId)
    ensures Left(st, s, dest).routing.desired == st.routing.desired
            || Left(st, s, dest).routing.desired == st.routing.desired - {dest}
  {
  }

  lemma {:induction false} RerouteWrites(st: State, env: Env, s: ZoneId, zone: ZoneId)
    ensures Writes(st, OpReroute(env, s, zone), Step(st, OpReroute(env, s, zone)))
  {
    if Reroute(st, env, s, zone).Ok? && zone != st.sources[s].dest {
      ResolvingWrites(st, env, zone);
      var (st1, sink) := ZoneSink(st, env, zone, st.zones[zone].outputs).value;
      LeftDesires(Pointed(st1, s, zone, sink), s, st.sources[s].dest);
      var left := Left(Pointed(st1, s, zone, sink), s, st.sources[s].dest);
      DetachedDesires(WithDriver(left, zone, None), CurrentDriver(left, zone));
    }
  }

  lemma {:induction false} SinkForSourceWrites(st: State, env: Env, s: ZoneId)
    ensures Writes(st, OpSinkForSource(env, s), Step(st, OpSinkForSource(env, s)))
  {
    if s in st.sources && st.sources[s].dest in st.zones {
      var dest := st.sources[s].dest;
      if ZoneSink(st, env, dest, st.zones[dest].outputs).Ok? {
        ResolvingWrites(st, env, dest);
      }
    }
  }

  lemma {:induction false} SessionWrites(st: State, op: Op)
    requires op.OpStop? || op.OpSessionBegan? || op.OpSessionEnded? || op.OpDeleteZone?
    ensures Writes(st, op, Step(st, op))
  {
    match op {
      case OpStop(zone) => DetachedDesires(WithDriver(st, zone, None), CurrentDriver(st, zone));
      case OpDeleteZone(zone) =>
        if zone in st.zones {
          DetachedDesires(st.(zones := st.zones - {zone}), st.zones[zone].current);
        }
      case _ =>
    }
  }

  lemma {:induction false} StepWrites(st: State, op: Op)
    ensures Writes(st, op, Step(st, op))
  {
    match op {
      case OpPlay(env, zone) => PlayWrites(st, env, zone);
      case OpReroute(env, s, zone) => RerouteWrites(st, env, s, zone);
      case OpSinkForSource(env, s) => SinkForSourceWrites(st, env, s);
      case _ =>
        if op.OpStop? || op.OpSessionBegan? || op.OpSessionEnded? || op.OpDeleteZone? {
          SessionWrites(st, op);
        }
    }
  }

  /** A value that a step only loses, or writes by a grant, is what the latest grant wrote. */
  lemma {:induction false} LatestGrant<S(!new), O(!new), V(!new)>(
    value: S -> Option<V>, grants: (S, O) -> bool, written: S -> V, ops: seq<O>, states: seq<S>, n: nat)
    returns (m: nat)
    requires n <= |ops| && |states| == |ops| + 1 && value(states[0]) == None && value(states[n]).Some?
    requires forall k :: 0 <= k < n && value(states[k + 1]).Some? ==>
               value(states[k + 1]) == if grants(states[k], ops[k]) then Some(written(states[k])) else value(states[k])
    ensures m < n && grants(states[m], ops[m]) && value(states[n]) == Some(written(states[m]))
    ensures forall k :: m < k < n ==> !grants(states[k], ops[k])
  {
    if n == 0 {
      assert false;
    } else if grants(states[n - 1], ops[n - 1]) {
      m := n - 1;
    } else {
      m := LatestGrant(value, grants, written, ops, states, n - 1);
    }
  }

  function DesiredFor(st: State, zone: ZoneId): (clients: Option<seq<ClientId>>) {
    if zone in st.routing.desired then Some(st.routing.desired[zone]) else None
  }

  lemma {:induction false} NothingDesired(zone: ZoneId)
    ensures DesiredFor(Initial(), zone) == None
  {
  }

  /** What the call does to the desired clients of one zone. */
  ghost predicate WritesFor(st: State, op: Op, st': State, zone: ZoneId) {
    DesiredFor(st', zone).Some? ==>
      DesiredFor(st', zone) == if Granted(st, op) == Some(zone) then Some(Members(st, zone)) else DesiredFor(st, zone)
  }

  lemma {:induction false} StepWritesFor(st: State, op: Op, st': State, zone: ZoneId)
    requires st' == Step(st, op)
    ensures WritesFor(st, op, st', zone)
  {
    StepWrites(st, op);
  }

  /**
   In every run, what is desired for a zone are its online outputs in the state of its latest grant, and nothing
   that changed since.
   */
  lemma {:induction false} DesiredIsLastGrant(ops: seq<Op>, states: seq<State>, n: nat, zone: ZoneId) returns (m: nat)
    requires IsRun(ops, states) && n <= |ops| && DesiredFor(states[n], zone).Some?
    ensures m < n && Granted(states[m], ops[m]) == Some(zone)
    ensures DesiredFor(states[n], zone) == Some(Members(states[m], zone))
    ensures forall k :: m < k < n ==> Granted(states[k], ops[k]) != Some(zone)
  {
    var value, written := (st: State) => DesiredFor(st, zone), (st: State) => Members(st, zone);
    var grants := (st: State, op: Op) => Granted(st, op) == Some(zone);
    NothingDesired(zone);
    forall k | 0 <= k < n && value(states[k + 1]).Some?
      ensures value(states[k + 1]) == if grants(states[k], ops[k]) then Some(written(states[k])) else value(states[k])
    {
      StepWritesFor(states[k], ops[k], states[k + 1], zone);
    }
    m := LatestGrant(value, grants, written, ops, states, n);
    assert forall k :: m < k < n ==> !grants(states[k], ops[k]);
  }

  // ----- When they are the online outputs now -----------------------------------------------------

  ghost predicate UpToDate(st: State, zone: ZoneId) {
    zone in st.routing.desired ==> st.routing.desired[zone] == Members(st, zone)
  }

  /** A dongle of the zone. */
  predicate HasDongle(st: State, zone: ZoneId, dongle: OutputId) {
    zone in st.zones && dongle in st.zones[zone].outputs && dongle != LOCAL_OUTPUT_ID
  }

  /** The exact condition, checkable before the call, under which a zone's desired clients stay up to date. */
  predicate KeepsMembers(st: State, op: Op, zone: ZoneId) {
    zone in st.routing.desired ==>
      match op
      case OpSetZoneOutputs(z, outputs) =>
        z == zone && SetZoneOutputs(st, z, outputs).Ok? ==> Online(st.registry, Dongles(outputs)) == Members(st, zone)
      case OpAddDongle(dongle, _) => HasDongle(st, zone, dongle) ==> IsOnline(st.registry, dongle)
      case OpDongleOffline(dongle) => HasDongle(st, zone, dongle) ==> !IsOnline(st.registry, dongle)
      case OpCreateZone(id, _) => id == zone ==> Members(st, zone) == []
      case _ => true
  }

  lemma {:induction false} SameOnline(a: map<OutputId, Output>, b: map<OutputId, Output>, outputs: seq<OutputId>)
    requires forall o :: o in outputs ==> IsOnline(a, o) == IsOnline(b, o)
    ensures Online(a, outputs) == Online(b, outputs)
  {
    if outputs == [] {
    } else {
      SameOnline(a, b, outputs[1..]);
    }
  }

  lemma {:induction false} DonglesConcat(a: seq<OutputId>, b: seq<OutputId>)
    ensures Dongles(a + b) == Dongles(a) + Dongles(b)
  {
    if a == [] {
      assert a + b == b;
    } else {
      DonglesConcat(a[1..], b);
      assert (a + b)[1..] == a[1..] + b && (a + b)[0] == a[0];
      Regroup(if a[0] != LOCAL_OUTPUT_ID then [a[0]] else [], Dongles(a[1..]), Dongles(b));
    }
  }

  lemma {:induction false} OnlineConcat(registry: map<OutputId, Output>, a: seq<OutputId>, b: seq<OutputId>)
    ensures Online(registry, a + b) == Online(registry, a) + Online(registry, b)
  {
    if a == [] {
      assert a + b == b;
    } else {
      OnlineConcat(registry, a[1..], b);
      assert (a + b)[1..] == a[1..] + b && (a + b)[0] == a[0];
      Regroup(if IsOnline(registry, a[0]) then [a[0]] else [], Online(registry, a[1..]), Online(registry, b));
    }
  }

  /** The members are the online dongles of the outputs, each as often and in the order it is listed. */
  lemma {:induction false} MembersInOrder(registry: map<OutputId, Output>, outputs: seq<OutputId>, more: seq<OutputId>,
                                          o: OutputId)
    ensures Online(registry, Dongles(outputs + more)) ==
            Online(registry, Dongles(outputs)) + Online(registry, Dongles(more))
    ensures Online(registry, Dongles([o])) == if o != LOCAL_OUTPUT_ID && IsOnline(registry, o) then [o] else []
  {
    DonglesConcat(outputs, more);
    OnlineConcat(registry, Dongles(outputs), Dongles(more));
    assert [o][1..] == [] && Dongles([o]) == if o != LOCAL_OUTPUT_ID then [o] else [];
  }

  /** Membership depends on the outputs and on which of the dongles among them are online, and on nothing else. */
  lemma {:induction false} MembersExactly(st: State, st': State, zone: ZoneId)
    requires zone in st.zones && zone in st'.zones && st'.zones[zone].outputs == st.zones[zone].outputs
    ensures Members(st', zone) == Members(st, zone) <==>
            forall o :: HasDongle(st, zone, o) ==> IsOnline(st'.registry, o) == IsOnline(st.registry, o)
  {
    var dongles := Dongles(st.zones[zone].outputs);
    if forall o :: HasDongle(st, zone, o) ==> IsOnline(st'.registry, o) == IsOnline(st.registry, o) {
      SameOnline(st.registry, st'.registry, dongles);
    } else {
      var o :| HasDongle(st, zone, o) && IsOnline(st'.registry, o) != IsOnline(st.registry, o);
      assert o in dongles;
      assert o in Members(st', zone) <==> o !in Members(st, zone);
    }
  }

  /** The zone is there with the outputs it had, and but for the hub's device the same outputs are online. */
  ghost predicate SameOutputs(st: State, st': State, zone: ZoneId) {
    && zone in st.zones && zone in st'.zones && st'.zones[zone].outputs == st.zones[zone].outputs
    && forall o :: o != LOCAL_OUTPUT_ID ==> IsOnline(st'.registry, o) == IsOnline(st.registry, o)
  }

  /** Zones come and go, and dongles do, only by the calls that are for it. */
  predicate ChangesOutputs(op: Op, zone: ZoneId) {
    match op
    case OpSetZoneOutputs(z, _) => z == zone
    case OpCreateZone(id, _) => id == zone
    case OpDeleteZone(z) => z == zone
    case OpAddDongle(_, _) => true
    case OpDongleOffline(_) => true
    case _ => false
  }

  lemma {:induction false} ResolvingKeepsOutputs(st: State, env: Env, resolved: ZoneId, outputs: seq<OutputId>)
    requires ZoneSink(st, env, resolved, outputs).Ok?
    ensures var st' := ZoneSink(st, env, resolved, outputs).value.0;
            st'.zones == st.zones
            && forall o :: o != LOCAL_OUTPUT_ID ==> IsOnline(st'.registry, o) == IsOnline(st.registry, o)
  {
  }

  lemma {:induction false} PlayKeepsOutputs(st: State, env: Env, played: ZoneId, zone: ZoneId)
    requires zone in st.zones
    ensures SameOutputs(st, Step(st, OpPlay(env, played)), zone)
  {
    if played in st.zones && ZoneSink(st, env, played, st.zones[played].outputs).Ok? {
      ResolvingKeepsOutputs(st, env, played, st.zones[played].outputs);
      var (st1, _) := ZoneSink(st, env, played, st.zones[played].outputs).value;
      DetachedDesires(WithDriver(st1, played, None), CurrentDriver(st1, played));
    }
  }

  lemma {:induction false} ReroutedKeepsOutputs(st: State, s: ZoneId, to: ZoneId, sink: Sink, zone: ZoneId)
    requires zone in st.zones && s in st.sources
    ensures SameOutputs(st, Rerouted(st, s, to, sink), zone) && Rerouted(st, s, to, sink).registry == st.registry
  {
    var left := Left(Pointed(st, s, to, sink), s, st.sources[s].dest);
    LeftKeepsOutputs(Pointed(st, s, to, sink), s, st.sources[s].dest, zone);
    DetachedDesires(WithDriver(left, to, None), CurrentDriver(left, to));
  }

  lemma {:induction false} RerouteKeepsOutputs(st: State, env: Env, s: ZoneId, to: ZoneId, zone: ZoneId)
    requires zone in st.zones
    ensures SameOutputs(st, Step(st, OpReroute(env, s, to)), zone)
  {
    if Reroute(st, env, s, to).Ok? && to != st.sources[s].dest {
      ResolvingKeepsOutputs(st, env, to, st.zones[to].outputs);
      var (st1, sink) := ZoneSink(st, env, to, st.zones[to].outputs).value;
      ReroutedKeepsOutputs(st1, s, to, sink, zone);
    }
  }

  lemma {:induction false} LeftKeepsOutputs(st: State, s: ZoneId, dest: ZoneId, zone: ZoneId)
    requires zone in st.zones
    ensures SameOutputs(st, Left(st, s, dest), zone) && Left(st, s, dest).registry == st.registry
  {
  }

  lemma {:induction false} SinkForSourceKeepsOutputs(st: State, env: Env, s: ZoneId, zone: ZoneId)
    requires zone in st.zones
    ensures SameOutputs(st, Step(st, OpSinkForSource(env, s)), zone)
  {
    if s in st.sources && st.sources[s].dest in st.zones {
      var dest := st.sources[s].dest;
      if ZoneSink(st, env, dest, st.zones[dest].outputs).Ok? {
        ResolvingKeepsOutputs(st, env, dest, st.zones[dest].outputs);
      }
    }
  }

  lemma {:induction false} TakingKeepsOutputs(st: State, op: Op, zone: ZoneId)
    requires zone in st.zones && !ChangesOutputs(op, zone) && (op.OpStop? || op.OpDeleteZone?)
    ensures SameOutputs(st, Step(st, op), zone)
  {
    var z := op.zone;
    if op.OpStop? {
      DetachedDesires(WithDriver(st, z, None), CurrentDriver(st, z));
    } else if z in st.zones {
      DetachedDesires(st.(zones := st.zones - {z}), st.zones[z].current);
    }
  }

  lemma {:induction false} OthersKeepOutputs(st: State, op: Op, zone: ZoneId)
    requires zone in st.zones && !ChangesOutputs(op, zone) && !op.OpStop? && !op.OpDeleteZone?
    requires !op.OpPlay? && !op.OpReroute? && !op.OpSinkForSource?
    ensures SameOutputs(st, Step(st, op), zone)
  {
  }

  lemma {:induction false} StepKeepsOutputs(st: State, op: Op, zone: ZoneId)
    requires zone in st.zones && !ChangesOutputs(op, zone)
    ensures SameOutputs(st, Step(st, op), zone)
  {
    match op {
      case OpPlay(env, z) => PlayKeepsOutputs(st, env, z, zone);
      case OpReroute(env, s, to) => RerouteKeepsOutputs(st, env, s, to, zone);
      case OpSinkForSource(env, s) => SinkForSourceKeepsOutputs(st, env, s, zone);
      case OpStop(_) => TakingKeepsOutputs(st, op, zone);
      case OpDeleteZone(_) => TakingKeepsOutputs(st, op, zone);
      case _ => OthersKeepOutputs(st, op, zone);
    }
  }

  lemma {:induction false} GrantedZoneExists(st: State, op: Op)
    requires Granted(st, op).Some?
    ensures Granted(st, op).value in st.zones && !ChangesOutputs(op, Granted(st, op).value)
  {
  }

  lemma {:induction false} DeletedIsFreed(st: State, zone: ZoneId)
    requires zone in st.zones
    ensures zone !in Step(st, OpDeleteZone(zone)).routing.desired
  {
    DetachedDesires(st.(zones := st.zones - {zone}), st.zones[zone].current);
  }

  /** No call leaves clients desired for a zone that does not exist. */
  lemma {:induction false} StepKeepsAnchored(st: State, op: Op)
    requires Anchored(st)
    ensures Anchored(Step(st, op))
  {
    var st' := Step(st, op);
    StepWrites(st, op);
    forall zone | zone in st'.routing.desired ensures zone in st'.zones {
      if Granted(st, op) == Some(zone) {
        GrantedZoneExists(st, op);
      }
      StaysUnlessDeleted(st, op, zone);
    }
  }

  lemma {:induction false} StaysUnlessDeleted(st: State, op: Op, zone: ZoneId)
    requires zone in st.zones
    ensures zone in Step(st, op).zones || zone !in Step(st, op).routing.desired
  {
    if !ChangesOutputs(op, zone) {
      StepKeepsOutputs(st, op, zone);
    } else if op.OpDeleteZone? {
      DeletedIsFreed(st, zone);
    }
  }

  lemma {:induction false} AddDongleKeepsExactly(st: State, dongle: OutputId, name: Text, zone: ZoneId)
    requires zone in st.routing.desired && zone in st.zones && UpToDate(st, zone)
    ensures UpToDate(Step(st, OpAddDongle(dongle, name)), zone) <==> KeepsMembers(st, OpAddDongle(dongle, name), zone)
  {
    AddedDongle(st, dongle, name, zone);
    MembersExactly(st, AddDongle(st, dongle, name), zone);
  }

  lemma {:induction false} AddedDongle(st: State, dongle: OutputId, name: Text, zone: ZoneId)
    requires zone in st.zones
    ensures var st' := AddDongle(st, dongle, name);
            && zone in st'.zones && st'.zones[zone].outputs == st.zones[zone].outputs && st'.routing == st.routing
            && forall o :: IsOnline(st'.registry, o) == (o == dongle || IsOnline(st.registry, o))
  {
  }

  lemma {:induction false} DongleOfflineKeepsExactly(st: State, dongle: OutputId, zone: ZoneId)
    requires zone in st.routing.desired && zone in st.zones && UpToDate(st, zone)
    ensures UpToDate(Step(st, OpDongleOffline(dongle)), zone) <==> KeepsMembers(st, OpDongleOffline(dongle), zone)
  {
    var st' := Step(st, OpDongleOffline(dongle));
    assert forall o :: IsOnline(st'.registry, o) == (o != dongle && IsOnline(st.registry, o));
    MembersExactly(st, st', zone);
  }

  lemma {:induction false} CreateZoneKeepsMembersExactly(st: State, zone: ZoneId, name: Text)
    requires zone in st.routing.desired && zone in st.zones && UpToDate(st, zone)
    ensures UpToDate(Step(st, OpCreateZone(zone, name)), zone) <==> Members(st, zone) == []
  {
    var st' := Step(st, OpCreateZone(zone, name));
    assert st'.zones[zone].outputs == [] && Online(st'.registry, Dongles([])) == [];
  }

  lemma {:induction false} SetZoneOutputsKeepsExactly(st: State, zone: ZoneId, outputs: seq<OutputId>)
    requires zone in st.routing.desired && zone in st.zones && UpToDate(st, zone)
    ensures UpToDate(Step(st, OpSetZoneOutputs(zone, outputs)), zone)
            <==> KeepsMembers(st, OpSetZoneOutputs(zone, outputs), zone)
  {
  }

  /** The calls that change outputs leave the desired clients alone, and so they may become stale. */
  lemma {:induction false} ChangingKeepsExactly(st: State, op: Op, zone: ZoneId)
    requires zone in st.routing.desired && zone in st.zones && UpToDate(st, zone)
    requires ChangesOutputs(op, zone) && !op.OpDeleteZone?
    ensures UpToDate(Step(st, op), zone) <==> KeepsMembers(st, op, zone)
  {
    match op {
      case OpAddDongle(dongle, name) => AddDongleKeepsExactly(st, dongle, name, zone);
      case OpDongleOffline(dongle) => DongleOfflineKeepsExactly(st, dongle, zone);
      case OpCreateZone(_, name) => CreateZoneKeepsMembersExactly(st, zone, name);
      case OpSetZoneOutputs(_, outputs) => SetZoneOutputsKeepsExactly(st, zone, outputs);
    }
  }

  /** A zone's desired clients are its online outputs now: every call keeps this exactly when it is safe for it. */
  lemma {:induction false} StepKeepsMembersExactly(st: State, op: Op, zone: ZoneId)
    requires Anchored(st) && UpToDate(st, zone)
    ensures UpToDate(Step(st, op), zone) <==> KeepsMembers(st, op, zone)
  {
    StepWrites(st, op);
    if Granted(st, op) == Some(zone) {
      GrantedZoneExists(st, op);
      StepKeepsOutputs(st, op, zone);
      MembersExactly(st, Step(st, op), zone);
    } else if zone in st.routing.desired {
      if op == OpDeleteZone(zone) {
        DeletedIsFreed(st, zone);
      } else if ChangesOutputs(op, zone) {
        ChangingKeepsExactly(st, op, zone);
      } else {
        StepKeepsOutputs(st, op, zone);
        MembersExactly(st, Step(st, op), zone);
      }
    }
  }

  lemma {:induction false} RunsStayAnchored(ops: seq<Op>, states: seq<State>, n: nat)
    requires IsRun(ops, states) && n <= |ops|
    ensures Anchored(states[n])
  {
    if n == 0 {
      assert Initial().routing.desired == map[];
    } else {
      RunsStayAnchored(ops, states, n - 1);
      StepKeepsAnchored(states[n - 1], ops[n - 1]);
    }
  }

  /** In every run, a zone's desired clients have been its online outputs up to now iff every call was safe for that. */
  lemma {:induction false} RunKeepsMembersExactly(ops: seq<Op>, states: seq<State>, n: nat, zone: ZoneId)
    requires IsRun(ops, states) && n <= |ops|
    ensures Always(states, n, st => UpToDate(st, zone))
            <==> Obeyed(ops, states, n, (st, op) => KeepsMembers(st, op, zone))
  {
    var part, guard := (st: State) => UpToDate(st, zone), (st: State, op: Op) => KeepsMembers(st, op, zone);
    NothingDesired(zone);
    forall m | 0 <= m < n ensures KeptExactly(states[m], ops[m], part, guard) {
      RunsStayAnchored(ops, states, m);
      if part(states[m]) {
        StepKeepsMembersExactly(states[m], ops[m], zone);
      }
    }
    AlwaysExactly(ops, states, n, part, guard);
  }

  /** A dongle that comes back while its zone plays is not among the zone's clients, so no pass ever groups it. */
  lemma {:induction false} ReconnectedDongleIsLeftOut(st: State, zone: ZoneId, dongle: OutputId, name: Text)
    requires zone in st.routing.desired && UpToDate(st, zone)
    requires HasDongle(st, zone, dongle) && !IsOnline(st.registry, dongle)
    ensures var st' := Step(st, OpAddDongle(dongle, name));
            && st'.routing == st.routing && zone in st'.zones
            && dongle in Members(st', zone) && dongle !in st'.routing.desired[zone]
  {
    var st' := Step(st, OpAddDongle(dongle, name));
    assert dongle in Dongles(st'.zones[zone].outputs) && IsOnline(st'.registry, dongle);
    assert dongle !in Members(st, zone);
  }
}
