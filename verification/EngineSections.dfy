/**
 The drivers of the zones under concurrent calls (src/audio/engine.rs): what each lock section does to `current`,
 and what a call holds between the section that takes a driver out and its shutdown. Runs are all interleavings of
 such sections, so those of any number of calls of any kind are among them.
 */
module EngineSections {
  import opened StreamPools
  import opened EngineState
  import opened Wrappers

  datatype CallId = CallId(number: nat)

  /** The driver of each zone, the drivers that calls hold, and the pipelines started and stopped so far. */
  datatype Drivers = Drivers(
    zones: map<ZoneId, Option<Driver>>,
    hands: map<CallId, Driver>,
    spawned: nat,
    stops: multiset<nat>)

  /**
   Take: `play`, `stop` and `reroute` take a zone's driver. Replace: `session_began` takes it and makes a source the
   driver. Remove: `delete_zone` takes the zone with it. Install: `play` starts a pipeline. Point: `reroute` makes a
   source the driver. Clear: a source leaves the zone it drives. Insert: a zone is created. Shut: a driver that was
   taken is detached.
   */
  datatype Section =
    | Take(call: CallId, zone: ZoneId)
    | Replace(call: CallId, zone: ZoneId, source: ZoneId)
    | Remove(call: CallId, zone: ZoneId)
    | Install(zone: ZoneId, sink: Sink)
    | Point(zone: ZoneId, source: ZoneId)
    | Clear(zone: ZoneId, source: ZoneId)
    | Insert(zone: ZoneId)
    | Shut(call: CallId)

  predicate Enabled(d: Drivers, e: Section) {
    match e
    case Take(call, zone) => call !in d.hands && zone in d.zones
    case Replace(call, zone, _) => call !in d.hands && zone in d.zones
    case Remove(call, zone) => call !in d.hands && zone in d.zones
    case Install(zone, _) => zone in d.zones
    case Point(zone, _) => zone in d.zones
    case Clear(zone, source) => zone in d.zones && d.zones[zone] == Some(Airplay(source))
    case Insert(_) => true
    case Shut(call) => call in d.hands
  }

  /** The call holds what drove the zone, if anything did. */
  function Handed(d: Drivers, call: CallId, zone: ZoneId): (hands: map<CallId, Driver>)
    requires zone in d.zones
  {
    if d.zones[zone].Some? then d.hands[call := d.zones[zone].value] else d.hands
  }

  function Next(d: Drivers, e: Section): (d': Drivers)
    requires Enabled(d, e)
  {
    match e
    case Take(call, zone) => d.(hands := Handed(d, call, zone), zones := d.zones[zone := None])
    case Replace(call, zone, source) =>
      d.(hands := Handed(d, call, zone), zones := d.zones[zone := Some(Airplay(source))])
    case Remove(call, zone) => d.(hands := Handed(d, call, zone), zones := d.zones - {zone})
    case Install(zone, sink) =>
      d.(zones := d.zones[zone := Some(Url(Pipeline(d.spawned, sink)))], spawned := d.spawned + 1)
    case Point(zone, source) => d.(zones := d.zones[zone := Some(Airplay(source))])
    case Clear(zone, _) => d.(zones := d.zones[zone := None])
    case Insert(zone) => d.(zones := d.zones[zone := None])
    case Shut(call) =>
      var stops := if d.hands[call].Url? then d.stops + multiset{d.hands[call].pipeline.id} else d.stops;
      d.(hands := d.hands - {call}, stops := stops)
  }

  ghost predicate IsRun(sections: seq<Section>, states: seq<Drivers>) {
    && |states| == |sections| + 1
    && states[0] == Drivers(map[DEFAULT_ZONE := None], map[], 0, multiset{})
    && forall n :: 0 <= n < |sections| ==>
         Enabled(states[n], sections[n]) && states[n + 1] == Next(states[n], sections[n])
  }

  // ----- Where a pipeline is ----------------------------------------------------------------------

  predicate IsUrl(driver: Driver, id: nat) { driver.Url? && driver.pipeline.id == id }

  predicate RunsIn(d: Drivers, zone: ZoneId, id: nat) {
    zone in d.zones && d.zones[zone].Some? && IsUrl(d.zones[zone].value, id)
  }

  predicate HeldBy(d: Drivers, call: CallId, id: nat) { call in d.hands && IsUrl(d.hands[call], id) }

  /** A pipeline that a zone runs or a call holds. */
  ghost predicate Kept(d: Drivers, id: nat) {
    (exists zone :: RunsIn(d, zone, id)) || exists call :: HeldBy(d, call, id)
  }

  /** Every pipeline is in one place at most, in none once it is stopped, and stopped once at most. */
  ghost predicate OnePlace(d: Drivers) {
    && (forall y, z, id: nat :: RunsIn(d, y, id) && RunsIn(d, z, id) ==> y == z)
    && (forall i, j, id: nat :: HeldBy(d, i, id) && HeldBy(d, j, id) ==> i == j)
    && (forall z, i, id: nat :: RunsIn(d, z, id) ==> !HeldBy(d, i, id))
    && (forall z, id: nat :: RunsIn(d, z, id) ==> id < d.spawned && d.stops[id] == 0)
    && (forall i, id: nat :: HeldBy(d, i, id) ==> id < d.spawned && d.stops[id] == 0)
    && (forall id: nat :: d.stops[id] <= if id < d.spawned then 1 else 0)
  }

  predicate Takes(e: Section) { e.Take? || e.Replace? || e.Remove? }

  /** A zone runs what it ran before, or a new pipeline. */
  lemma {:induction false} RanBefore(d: Drivers, e: Section, zone: ZoneId, id: nat)
    requires Enabled(d, e) && RunsIn(Next(d, e), zone, id)
    ensures (RunsIn(d, zone, id) && !(Takes(e) && e.zone == zone))
            || (e.Install? && e.zone == zone && id == d.spawned)
  {
  }

  /** A call holds what it held before, or what it just took. */
  lemma {:induction false} HeldBefore(d: Drivers, e: Section, call: CallId, id: nat)
    requires Enabled(d, e) && HeldBy(Next(d, e), call, id)
    ensures (HeldBy(d, call, id) && !(e.Shut? && e.call == call))
            || (Takes(e) && e.call == call && call !in d.hands && RunsIn(d, e.zone, id))
  {
  }

  lemma {:induction false} StopsAfter(d: Drivers, e: Section, id: nat)
    requires Enabled(d, e)
    ensures Next(d, e).stops[id] == d.stops[id] + if e.Shut? && HeldBy(d, e.call, id) then 1 else 0
    ensures Next(d, e).spawned == d.spawned + if e.Install? then 1 else 0
  {
  }

  lemma {:induction false} SectionKeepsOnePlace(d: Drivers, e: Section)
    requires OnePlace(d) && Enabled(d, e)
    ensures OnePlace(Next(d, e))
  {
    var d' := Next(d, e);
    forall id: nat ensures d'.stops[id] <= if id < d'.spawned then 1 else 0 {
      StopsAfter(d, e, id);
    }
    forall z, id: nat | RunsIn(d', z, id)
      ensures id < d'.spawned && d'.stops[id] == 0
      ensures forall y :: RunsIn(d', y, id) ==> y == z
    {
      RanBefore(d, e, z, id);
      StopsAfter(d, e, id);
      forall y | RunsIn(d', y, id) ensures y == z {
        RanBefore(d, e, y, id);
      }
    }
    forall i, id: nat | HeldBy(d', i, id)
      ensures id < d'.spawned && d'.stops[id] == 0
      ensures forall j :: HeldBy(d', j, id) ==> i == j
      ensures forall z :: !RunsIn(d', z, id)
    {
      HeldBefore(d, e, i, id);
      StopsAfter(d, e, id);
      forall j | HeldBy(d', j, id) ensures i == j {
        HeldBefore(d, e, j, id);
      }
      forall z ensures !RunsIn(d', z, id) {
        if RunsIn(d', z, id) {
          RanBefore(d, e, z, id);
        }
      }
    }
  }

  lemma {:induction false} RunsKeepOnePlace(sections: seq<Section>, states: seq<Drivers>, n: nat)
    requires IsRun(sections, states) && n <= |sections|
    ensures OnePlace(states[n])
  {
    if n == 0 {
    } else {
      RunsKeepOnePlace(sections, states, n - 1);
      SectionKeepsOnePlace(states[n - 1], sections[n - 1]);
    }
  }

  /**
   In every interleaving a pipeline runs in one zone at most, its stop flag is set once at most, and never while a
   zone runs it: a driver is always taken out under the lock before it is shut down.
   */
  lemma {:induction false} StoppedOnceAndNowhere(sections: seq<Section>, states: seq<Drivers>, n: nat, id: nat)
    requires IsRun(sections, states) && n <= |sections|
    ensures states[n].stops[id] <= 1
    ensures forall y, z :: RunsIn(states[n], y, id) && RunsIn(states[n], z, id) ==> y == z
    ensures states[n].stops[id] == 1 ==> !Kept(states[n], id)
  {
    RunsKeepOnePlace(sections, states, n);
  }

  // ----- Leaks ------------------------------------------------------------------------------------

  /** Every pipeline started is running in a zone, held by a call that will stop it, or stopped. */
  ghost predicate NoneLeaked(d: Drivers) {
    forall id: nat :: id < d.spawned ==> d.stops[id] == 1 || Kept(d, id)
  }

  predicate RunsUrl(d: Drivers, zone: ZoneId) {
    zone in d.zones && d.zones[zone].Some? && d.zones[zone].value.Url?
  }

  /** The section puts something in the place of a URL that nobody takes. */
  predicate Overwrites(d: Drivers, e: Section) {
    match e
    case Install(zone, _) => RunsUrl(d, zone)
    case Point(zone, _) => RunsUrl(d, zone)
    case Insert(zone) => RunsUrl(d, zone)
    case _ => false
  }

  /** A pipeline stays kept unless it is stopped or overwritten. */
  lemma {:induction false} StaysKept(d: Drivers, e: Section, id: nat)
    requires OnePlace(d) && Enabled(d, e) && !Overwrites(d, e) && Kept(d, id)
    ensures Kept(Next(d, e), id) || Next(d, e).stops[id] == 1
  {
    var d' := Next(d, e);
    if zone :| RunsIn(d, zone, id) {
      if (e.Take? || e.Replace? || e.Remove?) && e.zone == zone {
        assert HeldBy(d', e.call, id);
      } else {
        assert RunsIn(d', zone, id);
      }
    } else {
      var call :| HeldBy(d, call, id);
      if e.Shut? && e.call == call {
        assert d'.stops == d.stops + multiset{id};
      } else {
        assert HeldBy(d', call, id);
      }
    }
  }

  lemma {:induction false} SafeSectionLeaksNone(d: Drivers, e: Section)
    requires OnePlace(d) && NoneLeaked(d) && Enabled(d, e) && !Overwrites(d, e)
    ensures NoneLeaked(Next(d, e))
  {
    var d' := Next(d, e);
    SectionKeepsOnePlace(d, e);
    forall id: nat | id < d'.spawned ensures d'.stops[id] == 1 || Kept(d', id) {
      if id == d.spawned {
        assert RunsIn(d', e.zone, id);
      } else if d.stops[id] != 1 {
        StaysKept(d, e, id);
      }
    }
  }

  /** A pipeline that is nowhere and was not stopped. */
  ghost predicate Leaked(d: Drivers, id: nat) {
    id < d.spawned && d.stops[id] == 0 && !Kept(d, id)
  }

  lemma {:induction false} OverwritingLeaks(d: Drivers, e: Section)
    requires OnePlace(d) && Enabled(d, e) && Overwrites(d, e)
    ensures Leaked(Next(d, e), d.zones[e.zone].value.pipeline.id)
  {
    var id, d' := d.zones[e.zone].value.pipeline.id, Next(d, e);
    assert RunsIn(d, e.zone, id);
    forall z ensures !RunsIn(d', z, id) {
      assert z != e.zone && RunsIn(d', z, id) ==> RunsIn(d, z, id);
    }
    forall i ensures !HeldBy(d', i, id) {
      assert HeldBy(d', i, id) ==> HeldBy(d, i, id);
    }
  }

  lemma {:induction false} LeakedForGood(d: Drivers, e: Section, id: nat)
    requires Leaked(d, id) && Enabled(d, e)
    ensures Leaked(Next(d, e), id)
  {
    var d' := Next(d, e);
    StopsAfter(d, e, id);
    forall z ensures !RunsIn(d', z, id) {
      if RunsIn(d', z, id) {
        RanBefore(d, e, z, id);
      }
    }
    forall i ensures !HeldBy(d', i, id) {
      if HeldBy(d', i, id) {
        HeldBefore(d, e, i, id);
      }
    }
  }

  /**
   In every interleaving: no pipeline has leaked exactly when no section so far has overwritten a URL, which only
   `play` and `reroute` can do after another call has installed one, and `create_zone` on an id that exists.
   */
  lemma {:induction false} LeaksExactly(sections: seq<Section>, states: seq<Drivers>, n: nat)
    requires IsRun(sections, states) && n <= |sections|
    ensures NoneLeaked(states[n]) <==> forall m :: 0 <= m < n ==> !Overwrites(states[m], sections[m])
    ensures !NoneLeaked(states[n]) ==> exists id: nat :: Leaked(states[n], id)
  {
    if n == 0 {
    } else {
      var d, e := states[n - 1], sections[n - 1];
      LeaksExactly(sections, states, n - 1);
      RunsKeepOnePlace(sections, states, n - 1);
      if !NoneLeaked(d) {
        var id: nat :| Leaked(d, id);
        LeakedForGood(d, e, id);
      } else if Overwrites(d, e) {
        OverwritingLeaks(d, e);
      } else {
        SafeSectionLeaksNone(d, e);
      }
    }
  }

  // ----- Calls as their sections ------------------------------------------------------------------

  /** The drivers of a state between calls. */
  function Of(st: State): (d: Drivers) {
    Drivers(map zone | zone in st.zones :: st.zones[zone].current, map[], st.spawned, st.stops)
  }

  /** The call detaches what it holds, if anything. */
  function ShutIfHeld(d: Drivers, call: CallId): (d': Drivers) { if call in d.hands then Next(d, Shut(call)) else d }

  function StopsWith(stops: multiset<nat>, driver: Option<Driver>): (r: multiset<nat>) {
    if driver.Some? && driver.value.Url? then stops + multiset{driver.value.pipeline.id} else stops
  }

  lemma {:induction false} DetachedDrivers(st: State, driver: Option<Driver>)
    ensures Of(Detached(st, driver)) == Of(st).(stops := StopsWith(st.stops, driver))
  {
    assert Detached(st, driver).zones == st.zones && Detached(st, driver).spawned == st.spawned;
    assert Of(Detached(st, driver)).zones == Of(st).zones;
  }

  lemma {:induction false} HeldIsShut(d: Drivers, call: CallId, driver: Option<Driver>)
    requires d.hands == if driver.Some? then map[call := driver.value] else map[]
    ensures ShutIfHeld(d, call) == d.(hands := map[], stops := StopsWith(d.stops, driver))
  {
    if driver.Some? {
      assert d.hands - {call} == map[];
    }
  }

  lemma {:induction false} DriverSet(st: State, zone: ZoneId, driver: Option<Driver>)
    requires zone in st.zones
    ensures Of(WithDriver(st, zone, driver)) == Of(st).(zones := Of(st).zones[zone := driver])
  {
    assert Of(WithDriver(st, zone, driver)).zones == Of(st).zones[zone := driver];
  }

  lemma {:induction false} TakenAndShut(st: State, call: CallId, zone: ZoneId)
    requires zone in st.zones
    ensures Of(PlayTake(st, zone)) == ShutIfHeld(Next(Of(st), Take(call, zone)), call)
  {
    DriverSet(st, zone, None);
    DetachedDrivers(WithDriver(st, zone, None), st.zones[zone].current);
    HeldIsShut(Next(Of(st), Take(call, zone)), call, st.zones[zone].current);
  }

  lemma {:induction false} PlayTakeKeepsZone(st: State, zone: ZoneId)
    requires zone in st.zones
    ensures zone in PlayTake(st, zone).zones
  {
    DetachedDrivers(WithDriver(st, zone, None), st.zones[zone].current);
  }

  lemma {:induction false} InstalledIs(st: State, zone: ZoneId, sink: Sink)
    requires zone in st.zones
    ensures Of(PlayInstall(st, zone, sink)) == Next(Of(st), Install(zone, sink))
  {
    DriverSet(st, zone, Some(Url(Pipeline(st.spawned, sink))));
  }

  /** `play` with nothing in between is its three sections one after the other. */
  lemma {:induction false} PlayIsItsSections(st: State, call: CallId, zone: ZoneId, sink: Sink)
    requires zone in st.zones
    ensures var taken := ShutIfHeld(Next(Of(st), Take(call, zone)), call);
            zone in taken.zones
            && Of(PlayInstall(PlayTake(st, zone), zone, sink)) == Next(taken, Install(zone, sink))
  {
    TakenAndShut(st, call, zone);
    PlayTakeKeepsZone(st, zone);
    InstalledIs(PlayTake(st, zone), zone, sink);
  }

  /** So is `session_began`. */
  lemma {:induction false} SessionBeganIsItsSections(st: State, call: CallId, s: ZoneId)
    requires s in st.sources && st.sources[s].dest in st.zones
    ensures Of(SessionBegan(st, s)) == ShutIfHeld(Next(Of(st), Replace(call, st.sources[s].dest, s)), call)
  {
    var zone := st.sources[s].dest;
    var source := st.sources[s].(active := true, routed := true, sink := None, now := NOTHING);
    var begun := st.(sources := st.sources[s := source], art := st.art - {s});
    DriverSet(begun, zone, Some(Airplay(s)));
    DetachedDrivers(WithDriver(begun, zone, Some(Airplay(s))), st.zones[zone].current);
    HeldIsShut(Next(Of(st), Replace(call, zone, s)), call, st.zones[zone].current);
  }

  /** So are `stop`, `session_ended`, `delete_zone`, and the commit of a `reroute`. */
  lemma {:induction false} StopIsItsSections(st: State, call: CallId, zone: ZoneId)
    requires zone in st.zones
    ensures Of(Stop(st, zone)) == ShutIfHeld(Next(Of(st), Take(call, zone)), call)
  {
    TakenAndShut(st, call, zone);
    SameDrivers(PlayTake(st, zone), Stop(st, zone));
  }

  lemma {:induction false} SameDrivers(st: State, st': State)
    requires st'.zones == st.zones && st'.spawned == st.spawned && st'.stops == st.stops
    ensures Of(st') == Of(st)
  {
  }

  /** The source leaves its zone, if it drives it. */
  function ClearIfDriven(d: Drivers, zone: ZoneId, source: ZoneId): (d': Drivers) {
    if zone in d.zones && d.zones[zone] == Some(Airplay(source)) then Next(d, Clear(zone, source)) else d
  }

  lemma {:induction false} ClearedDrivers(st: State, zone: ZoneId, s: ZoneId)
    ensures Of(if DrivenBy(st, zone, s) then WithDriver(st, zone, None) else st) == ClearIfDriven(Of(st), zone, s)
  {
    if DrivenBy(st, zone, s) {
      DriverSet(st, zone, None);
    }
  }

  lemma {:induction false} SessionEndedIsItsSections(st: State, s: ZoneId)
    requires s in st.sources
    ensures Of(SessionEnded(st, s)) == ClearIfDriven(Of(st), st.sources[s].dest, s)
  {
    var dest := st.sources[s].dest;
    var ended := st.(sources := st.sources[s := IdleSource(s, st.sources[s].name)], art := st.art - {s});
    SameDrivers(st, ended);
    ClearedDrivers(ended, dest, s);
    SameDrivers(if DrivenBy(ended, dest, s) then WithDriver(ended, dest, None) else ended, SessionEnded(st, s));
  }

  lemma {:induction false} DeleteZoneIsItsSections(st: State, call: CallId, zone: ZoneId)
    requires zone in st.zones
    ensures Of(DeleteZone(st, zone).value) == ShutIfHeld(Next(Of(st), Remove(call, zone)), call)
  {
    var removed := st.(zones := st.zones - {zone});
    assert Of(removed).zones == Of(st).zones - {zone};
    DetachedDrivers(removed, st.zones[zone].current);
    HeldIsShut(Next(Of(st), Remove(call, zone)), call, st.zones[zone].current);
    SameDrivers(Detached(removed, st.zones[zone].current), DeleteZone(st, zone).value);
  }

  lemma {:induction false} RerouteIsItsSections(st: State, call: CallId, s: ZoneId, zone: ZoneId, sink: Sink)
    requires s in st.sources && zone in st.zones
    ensures var left := ClearIfDriven(Of(st), st.sources[s].dest, s);
            && zone in left.zones && call !in left.hands
            && var taken := ShutIfHeld(Next(left, Take(call, zone)), call);
               zone in taken.zones && Of(Rerouted(st, s, zone, sink)) == Next(taken, Point(zone, s))
  {
    var dest := st.sources[s].dest;
    var pointed := Pointed(st, s, zone, sink);
    SameDrivers(st, pointed);
    ClearedDrivers(pointed, dest, s);
    var left := Left(pointed, s, dest);
    SameDrivers(if DrivenBy(pointed, dest, s) then WithDriver(pointed, dest, None) else pointed, left);
    PlayTakeKeepsZone(left, zone);
    TakenAndShut(left, call, zone);
    DriverSet(PlayTake(left, zone), zone, Some(Airplay(s)));
  }
}
