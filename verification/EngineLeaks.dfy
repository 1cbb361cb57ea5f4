/**
 Which calls on zones can leak a decode pipeline when they run at the same time (src/audio/engine.rs): each call is
 the sections it goes through, and calls about to begin can leak under some schedule exactly when two of them clash.
 */
module EngineLeaks {
  import opened Wrappers
  import opened Reachability
  import opened StreamPools
  import opened EngineState
  import opened EngineSections

  /** A call that has resolved its sink, if it needs one, and is about to touch drivers. */
  datatype Job =
    | PlayOn(zone: ZoneId, sink: Sink)
    | RerouteTo(zone: ZoneId, from: ZoneId, source: ZoneId)
    | BeginOn(zone: ZoneId, source: ZoneId)
    | EndOn(zone: ZoneId, source: ZoneId)
    | StopOn(zone: ZoneId)
    | DeleteOf(zone: ZoneId)
    | CreateAs(zone: ZoneId)

  /** A reroute leaves its old zone first; a driver is taken, then detached, and a new one is placed at last. */
  datatype Phase = Leaving | Taking | Shutting | Placing | Over

  datatype Thread = Thread(job: Job, phase: Phase)

  datatype System = System(d: Drivers, threads: map<CallId, Thread>)

  function FirstPhase(job: Job): (phase: Phase) { if job.RerouteTo? then Leaving else Taking }

  /** Calls that make something the zone's driver without taking the driver in the same section. */
  predicate Places(job: Job) { job.PlayOn? || job.RerouteTo? }

  /** The section of the phase; it does something only if it is enabled. */
  function Wanted(id: CallId, t: Thread): (e: Option<Section>) {
    match t.phase
    case Leaving => if t.job.RerouteTo? then Some(Clear(t.job.from, t.job.source)) else None
    case Taking =>
      (match t.job
       case BeginOn(zone, source) => Some(Replace(id, zone, source))
       case EndOn(zone, source) => Some(Clear(zone, source))
       case DeleteOf(zone) => Some(Remove(id, zone))
       case CreateAs(zone) => Some(Insert(zone))
       case _ => Some(Take(id, t.job.zone)))
    case Shutting => Some(Shut(id))
    case Placing =>
      (match t.job
       case PlayOn(zone, sink) => Some(Install(zone, sink))
       case RerouteTo(zone, _, source) => Some(Point(zone, source))
       case _ => None)
    case Over => None
  }

  /** `play` gives up when its zone is gone. */
  function NextPhase(d: Drivers, t: Thread): (phase: Phase) {
    match t.phase
    case Leaving => Taking
    case Taking =>
      if t.job.EndOn? || t.job.CreateAs? || (t.job.PlayOn? && t.job.zone !in d.zones) then Over else Shutting
    case Shutting => if Places(t.job) then Placing else Over
    case _ => Over
  }

  predicate Acts(d: Drivers, id: CallId, t: Thread) { Wanted(id, t).Some? && Enabled(d, Wanted(id, t).value) }

  predicate Live(s: System, id: CallId) { id in s.threads && s.threads[id].phase != Over }

  function Advanced(s: System, id: CallId): (s': System)
    requires Live(s, id)
  {
    var t := s.threads[id];
    System(if Acts(s.d, id, t) then Next(s.d, Wanted(id, t).value) else s.d,
           s.threads[id := t.(phase := NextPhase(s.d, t))])
  }

  // ----- A call alone -----------------------------------------------------------------------------

  function PhasesLeft(phase: Phase): nat {
    match phase
    case Leaving => 4
    case Taking => 3
    case Shutting => 2
    case Placing => 1
    case Over => 0
  }

  function Alone(id: CallId, d: Drivers, job: Job, phase: Phase): (s: System) {
    System(d, map[id := Thread(job, phase)])
  }

  /** The drivers a call leaves when nothing comes between its sections. */
  function RunAlone(id: CallId, d: Drivers, job: Job, phase: Phase): (d': Drivers)
    decreases PhasesLeft(phase)
  {
    if phase == Over then d
    else RunAlone(id, Advanced(Alone(id, d, job, phase), id).d, job, NextPhase(d, Thread(job, phase)))
  }

  lemma {:induction false} AloneTakes(id: CallId, d: Drivers, job: Job, e: Section)
    requires Wanted(id, Thread(job, Taking)) == Some(e) && Enabled(d, e)
    requires NextPhase(d, Thread(job, Taking)) == Shutting
    ensures RunAlone(id, d, job, Taking) ==
            RunAlone(id, ShutIfHeld(Next(d, e), id), job, if Places(job) then Placing else Over)
  {
    assert RunAlone(id, d, job, Taking) == RunAlone(id, Next(d, e), job, Shutting);
  }

  lemma {:induction false} AlonePlaces(id: CallId, d: Drivers, job: Job, e: Section)
    requires Wanted(id, Thread(job, Placing)) == Some(e) && Enabled(d, e)
    ensures RunAlone(id, d, job, Placing) == Next(d, e)
  {
  }

  lemma {:induction false} AloneLeaves(id: CallId, d: Drivers, zone: ZoneId, from: ZoneId, source: ZoneId)
    ensures var job := RerouteTo(zone, from, source);
            RunAlone(id, d, job, Leaving) == RunAlone(id, ClearIfDriven(d, from, source), job, Taking)
  {
  }

  lemma {:induction false} PlayAlone(id: CallId, st: State, zone: ZoneId, sink: Sink)
    requires zone in st.zones
    ensures RunAlone(id, Of(st), PlayOn(zone, sink), Taking) == Of(PlayInstall(PlayTake(st, zone), zone, sink))
  {
    AloneTakes(id, Of(st), PlayOn(zone, sink), Take(id, zone));
    PlayIsItsSections(st, id, zone, sink);
    var taken := ShutIfHeld(Next(Of(st), Take(id, zone)), id);
    AlonePlaces(id, taken, PlayOn(zone, sink), Install(zone, sink));
  }

  lemma {:induction false} StopAlone(id: CallId, st: State, zone: ZoneId)
    requires zone in st.zones
    ensures RunAlone(id, Of(st), StopOn(zone), Taking) == Of(Stop(st, zone))
  {
    AloneTakes(id, Of(st), StopOn(zone), Take(id, zone));
    StopIsItsSections(st, id, zone);
  }

  lemma {:induction false} SessionBeganAlone(id: CallId, st: State, s: ZoneId)
    requires s in st.sources && st.sources[s].dest in st.zones
    ensures RunAlone(id, Of(st), BeginOn(st.sources[s].dest, s), Taking) == Of(SessionBegan(st, s))
  {
    var zone := st.sources[s].dest;
    AloneTakes(id, Of(st), BeginOn(zone, s), Replace(id, zone, s));
    SessionBeganIsItsSections(st, id, s);
  }

  lemma {:induction false} SessionEndedAlone(id: CallId, st: State, s: ZoneId)
    requires s in st.sources
    ensures RunAlone(id, Of(st), EndOn(st.sources[s].dest, s), Taking) == Of(SessionEnded(st, s))
  {
    SessionEndedIsItsSections(st, s);
  }

  lemma {:induction false} DeleteZoneAlone(id: CallId, st: State, zone: ZoneId)
    requires zone in st.zones
    ensures RunAlone(id, Of(st), DeleteOf(zone), Taking) == Of(DeleteZone(st, zone).value)
  {
    AloneTakes(id, Of(st), DeleteOf(zone), Remove(id, zone));
    DeleteZoneIsItsSections(st, id, zone);
  }

  lemma {:induction false} CreateZoneAlone(id: CallId, st: State, zone: ZoneId, name: Text)
    ensures RunAlone(id, Of(st), CreateAs(zone), Taking) == Of(CreateZone(st, zone, name))
  {
    var created := st.(zones := st.zones[zone := Zone(name, [], None)]);
    assert Of(created).zones == Of(st).zones[zone := None];
    SameDrivers(created, CreateZone(st, zone, name));
  }

  lemma {:induction false} RerouteAlone(id: CallId, st: State, s: ZoneId, zone: ZoneId, sink: Sink)
    requires s in st.sources && zone in st.zones
    ensures RunAlone(id, Of(st), RerouteTo(zone, st.sources[s].dest, s), Leaving) == Of(Rerouted(st, s, zone, sink))
  {
    var job, left := RerouteTo(zone, st.sources[s].dest, s), ClearIfDriven(Of(st), st.sources[s].dest, s);
    AloneLeaves(id, Of(st), zone, st.sources[s].dest, s);
    RerouteIsItsSections(st, id, s, zone, sink);
    AloneTakes(id, left, job, Take(id, zone));
    var taken := ShutIfHeld(Next(left, Take(id, zone)), id);
    AlonePlaces(id, taken, job, Point(zone, s));
  }

  // ----- Schedules --------------------------------------------------------------------------------

  ghost predicate Moves(s: System, s': System) {
    exists id :: Live(s, id) && s' == Advanced(s, id)
  }

  /** Every call is about to begin, and nothing has leaked. */
  ghost predicate Poised(s: System) {
    && s.d.hands == map[] && OnePlace(s.d) && NoneLeaked(s.d)
    && forall id :: id in s.threads ==> s.threads[id].phase == FirstPhase(s.threads[id].job)
  }

  ghost predicate MayLeak(s: System) {
    exists t: System, n: nat :: Steps(Moves, s, t, n) && !NoneLeaked(t.d)
  }

  // ----- The clash --------------------------------------------------------------------------------

  predicate Creates(s: System, id: CallId, zone: ZoneId) { id in s.threads && s.threads[id].job == CreateAs(zone) }

  predicate Plays(s: System, id: CallId, zone: ZoneId) {
    id in s.threads && s.threads[id].job.PlayOn? && s.threads[id].job.zone == zone
  }

  predicate PlacesOn(s: System, id: CallId, zone: ZoneId) {
    id in s.threads && Places(s.threads[id].job) && s.threads[id].job.zone == zone
  }

  /** The zone exists, or is created by a call other than `but`. */
  ghost predicate Comes(s: System, zone: ZoneId, but: CallId) {
    zone in s.d.zones || exists c :: c != but && Creates(s, c, zone)
  }

  /** Two calls place a driver on the zone, and one of them is a `play`. */
  ghost predicate PlayClash(s: System, zone: ZoneId, p: CallId, q: CallId) {
    p != q && Plays(s, p, zone) && PlacesOn(s, q, zone) && Comes(s, zone, q)
  }

  /** A zone is created under an id that runs a URL already, or that a `play` may run one on before. */
  ghost predicate CreateClash(s: System, zone: ZoneId, c: CallId) {
    Creates(s, c, zone) && (RunsUrl(s.d, zone) || exists p :: Plays(s, p, zone) && Comes(s, zone, c))
  }

  ghost predicate Clashes(s: System) {
    (exists zone, p, q :: PlayClash(s, zone, p, q)) || exists zone, c :: CreateClash(s, zone, c)
  }

  // ----- Without a clash nothing leaks ------------------------------------------------------------

  /** From here on the call must find no URL on its zone. */
  predicate Exposed(t: Thread) {
    (Places(t.job) && (t.phase.Shutting? || t.phase.Placing?)) || (t.job.CreateAs? && t.phase.Taking?)
  }

  ghost predicate SameJobs(s0: System, s: System) {
    s.threads.Keys == s0.threads.Keys && forall id :: id in s0.threads ==> s.threads[id].job == s0.threads[id].job
  }

  ghost predicate WasCreated(s: System, zone: ZoneId) {
    exists c :: Creates(s, c, zone) && s.threads[c].phase == Over
  }

  ghost predicate Calm(s0: System, s: System) {
    && SameJobs(s0, s) && OnePlace(s.d) && NoneLeaked(s.d)
    && (forall id :: id in s.threads && s.threads[id].phase == Leaving ==> s.threads[id].job.RerouteTo?)
    && (forall id :: id in s.d.hands ==> id in s.threads && s.threads[id].phase == Shutting)
    && (forall zone :: zone in s.d.zones ==> zone in s0.d.zones || WasCreated(s, zone))
    && (forall id :: id in s.threads && Exposed(s.threads[id]) ==> !RunsUrl(s.d, s.threads[id].job.zone))
  }

  lemma {:induction false} NewUrlIsInstalled(d: Drivers, e: Section, zone: ZoneId)
    requires Enabled(d, e) && RunsUrl(Next(d, e), zone)
    ensures RunsUrl(d, zone) || (e.Install? && e.zone == zone && zone in d.zones)
  {
  }

  lemma {:induction false} CalmSectionIsSafe(s0: System, s: System, id: CallId)
    requires Calm(s0, s) && Live(s, id) && Acts(s.d, id, s.threads[id])
    ensures !Overwrites(s.d, Wanted(id, s.threads[id]).value)
  {
  }

  /** A call that comes to be exposed has just taken the driver, or finds no zone. */
  lemma {:induction false} OwnZoneIsClear(s0: System, s: System, id: CallId)
    requires Calm(s0, s) && Live(s, id) && Exposed(Advanced(s, id).threads[id])
    ensures !RunsUrl(Advanced(s, id).d, s.threads[id].job.zone)
  {
  }

  /** Another call can put a URL on the zone of an exposed one only if they clash. */
  lemma {:induction false} OthersStayClear(s0: System, s: System, id: CallId, q: CallId)
    requires Calm(s0, s) && Live(s, id) && q in s.threads && q != id && Exposed(s.threads[q])
    ensures RunsUrl(Advanced(s, id).d, s.threads[q].job.zone) ==> Clashes(s0)
  {
    var zone := s.threads[q].job.zone;
    if RunsUrl(Advanced(s, id).d, zone) {
      NewUrlIsInstalled(s.d, Wanted(id, s.threads[id]).value, zone);
      assert Plays(s0, id, zone) && zone in s.d.zones;
      if zone !in s0.d.zones {
        var c :| Creates(s, c, zone) && s.threads[c].phase == Over;
        assert c != q && Creates(s0, c, zone);
      }
      assert Comes(s0, zone, q);
      assert if s.threads[q].job.CreateAs? then CreateClash(s0, zone, q) else PlayClash(s0, zone, id, q);
    }
  }

  /** A call takes for itself and goes on to detach, and it is over with the driver once it has. */
  lemma {:induction false} WantedTakes(d: Drivers, id: CallId, t: Thread)
    requires Acts(d, id, t)
    ensures Takes(Wanted(id, t).value) ==>
      Wanted(id, t).value.call == id && t.phase == Taking && NextPhase(d, t) == Shutting
    ensures t.phase == Shutting ==> Wanted(id, t) == Some(Shut(id))
    ensures Wanted(id, t).value.Remove? ==> t.job.DeleteOf?
  {
  }

  lemma {:induction false} HandsAfter(d: Drivers, e: Section, h: CallId)
    requires Enabled(d, e) && h in Next(d, e).hands
    ensures (h in d.hands && !(e.Shut? && e.call == h)) || (Takes(e) && e.call == h)
  {
  }

  lemma {:induction false} ZonesAfter(d: Drivers, e: Section)
    requires Enabled(d, e) && !e.Remove?
    ensures d.zones.Keys <= Next(d, e).zones.Keys
  {
  }

  lemma {:induction false} HandsStay(s0: System, s: System, id: CallId, h: CallId)
    requires Calm(s0, s) && Live(s, id) && h in Advanced(s, id).d.hands
    ensures h in s.threads && Advanced(s, id).threads[h].phase == Shutting
  {
    if Acts(s.d, id, s.threads[id]) {
      WantedTakes(s.d, id, s.threads[id]);
      HandsAfter(s.d, Wanted(id, s.threads[id]).value, h);
    }
  }

  lemma {:induction false} ZonesComeByCreation(s0: System, s: System, id: CallId, zone: ZoneId)
    requires Calm(s0, s) && Live(s, id) && zone in Advanced(s, id).d.zones
    ensures zone in s0.d.zones || WasCreated(Advanced(s, id), zone)
  {
    var s' := Advanced(s, id);
    if zone in s.d.zones {
      if zone !in s0.d.zones {
        var c :| Creates(s, c, zone) && s.threads[c].phase == Over;
        assert Creates(s', c, zone) && s'.threads[c].phase == Over;
      }
    } else {
      assert Creates(s', id, zone) && s'.threads[id].phase == Over;
    }
  }

  lemma {:induction false} StaysCalm(s0: System, s: System, id: CallId)
    requires Poised(s0) && !Clashes(s0) && Calm(s0, s) && Live(s, id)
    ensures Calm(s0, Advanced(s, id))
  {
    var s' := Advanced(s, id);
    if Acts(s.d, id, s.threads[id]) {
      CalmSectionIsSafe(s0, s, id);
      SectionKeepsOnePlace(s.d, Wanted(id, s.threads[id]).value);
      SafeSectionLeaksNone(s.d, Wanted(id, s.threads[id]).value);
    }
    forall h | h in s'.d.hands ensures h in s'.threads && s'.threads[h].phase == Shutting {
      HandsStay(s0, s, id, h);
    }
    forall zone | zone in s'.d.zones ensures zone in s0.d.zones || WasCreated(s', zone) {
      ZonesComeByCreation(s0, s, id, zone);
    }
    forall q | q in s'.threads && Exposed(s'.threads[q]) ensures !RunsUrl(s'.d, s'.threads[q].job.zone) {
      if q == id {
        OwnZoneIsClear(s0, s, id);
      } else {
        OthersStayClear(s0, s, id, q);
      }
    }
  }

  lemma {:induction false} CalmAlong(s0: System, t: System, n: nat)
    requires Poised(s0) && !Clashes(s0) && Calm(s0, s0) && Steps(Moves, s0, t, n)
    ensures Calm(s0, t)
  {
    var calm := (s: System) => Calm(s0, s);
    forall a, b | calm(a) && Moves(a, b) ensures calm(b) {
      var id :| Live(a, id) && b == Advanced(a, id);
      StaysCalm(s0, a, id);
    }
    KeptAlong(Moves, calm, s0, t, n);
  }

  lemma {:induction false} BeginsCalm(s: System)
    requires Poised(s) && !Clashes(s)
    ensures Calm(s, s)
  {
    forall id | id in s.threads && Exposed(s.threads[id]) ensures !RunsUrl(s.d, s.threads[id].job.zone) {
      assert Creates(s, id, s.threads[id].job.zone);
      assert !CreateClash(s, s.threads[id].job.zone, id);
    }
  }

  lemma {:induction false} NoClashNoLeak(s: System)
    requires Poised(s) && !Clashes(s)
    ensures !MayLeak(s)
  {
    BeginsCalm(s);
    forall t: System, n: nat | Steps(Moves, s, t, n) ensures NoneLeaked(t.d) {
      CalmAlong(s, t, n);
    }
  }

  // ----- With a clash some schedule leaks ---------------------------------------------------------

  ghost predicate CanReach(s: System, t: System) { exists n: nat :: Steps(Moves, s, t, n) }

  lemma {:induction false} ReachOn(s: System, t: System, u: System)
    requires CanReach(s, t) && CanReach(t, u)
    ensures CanReach(s, u)
  {
    var n: nat :| Steps(Moves, s, t, n);
    var m: nat :| Steps(Moves, t, u, m);
    StepsOnward(Moves, s, t, n, u, m);
  }

  lemma {:induction false} ReachSelf(s: System)
    ensures CanReach(s, s)
  {
    assert Steps(Moves, s, s, 0);
  }

  lemma {:induction false} ReachNext(s: System, id: CallId)
    requires Live(s, id)
    ensures CanReach(s, Advanced(s, id))
  {
    var t := Advanced(s, id);
    assert Moves(s, t) && Steps(Moves, t, t, 0) && Steps(Moves, s, t, 1);
  }

  ghost predicate OnTheWay(s0: System, s: System) {
    CanReach(s0, s) && OnePlace(s.d) && s0.d.zones.Keys <= s.d.zones.Keys
  }

  lemma {:induction false} OneStepOn(s0: System, s: System, id: CallId)
    requires OnTheWay(s0, s) && Live(s, id) && !s.threads[id].job.DeleteOf?
    ensures OnTheWay(s0, Advanced(s, id)) && s.d.zones.Keys <= Advanced(s, id).d.zones.Keys
  {
    ReachNext(s, id);
    ReachOn(s0, s, Advanced(s, id));
    if Acts(s.d, id, s.threads[id]) {
      var e := Wanted(id, s.threads[id]).value;
      WantedTakes(s.d, id, s.threads[id]);
      SectionKeepsOnePlace(s.d, e);
      ZonesAfter(s.d, e);
    }
  }

  /** The section of one phase: the call is in the next phase, and no other call has moved. */
  lemma {:induction false} PhaseOn(s0: System, s: System, id: CallId, next: Phase) returns (t: System)
    requires OnTheWay(s0, s) && Live(s, id) && !s.threads[id].job.DeleteOf?
    requires next == NextPhase(s.d, s.threads[id])
    ensures OnTheWay(s0, t) && s.d.zones.Keys <= t.d.zones.Keys
    ensures t.threads == s.threads[id := Thread(s.threads[id].job, next)]
  {
    OneStepOn(s0, s, id);
    t := Advanced(s, id);
  }

  lemma {:induction false} TakenToPlacing(s0: System, s: System, id: CallId) returns (t: System)
    requires OnTheWay(s0, s) && id in s.threads && s.threads[id].phase == Taking
    requires Places(s.threads[id].job) && s.threads[id].job.zone in s.d.zones
    ensures OnTheWay(s0, t) && s.d.zones.Keys <= t.d.zones.Keys
    ensures t.threads == s.threads[id := Thread(s.threads[id].job, Placing)]
  {
    t := PhaseOn(s0, s, id, Shutting);
    t := PhaseOn(s0, t, id, Placing);
  }

  /** The call goes on until it is about to place its driver. */
  lemma {:induction false} UpToPlacing(s0: System, s: System, id: CallId) returns (t: System)
    requires OnTheWay(s0, s) && id in s.threads && s.threads[id].phase == FirstPhase(s.threads[id].job)
    requires Places(s.threads[id].job) && s.threads[id].job.zone in s.d.zones
    ensures OnTheWay(s0, t) && s.d.zones.Keys <= t.d.zones.Keys
    ensures t.threads == s.threads[id := Thread(s.threads[id].job, Placing)]
  {
    t := s;
    if s.threads[id].job.RerouteTo? {
      t := PhaseOn(s0, t, id, Taking);
    }
    t := TakenToPlacing(s0, t, id);
  }

  /** A `play` that is about to place its driver does: the zone runs a URL. */
  lemma {:induction false} InstallOn(s0: System, s: System, id: CallId) returns (t: System)
    requires OnTheWay(s0, s) && id in s.threads && s.threads[id].phase == Placing
    requires s.threads[id].job.PlayOn? && s.threads[id].job.zone in s.d.zones
    ensures OnTheWay(s0, t) && RunsUrl(t.d, s.threads[id].job.zone)
    ensures t.threads == s.threads[id := Thread(s.threads[id].job, Over)]
  {
    OneStepOn(s0, s, id);
    t := Advanced(s, id);
  }

  /** The zone comes into being, if it does not exist, and the call `but` has not moved. */
  lemma {:induction false} ZoneComes(s0: System, zone: ZoneId, but: CallId) returns (t: System)
    requires Poised(s0) && Comes(s0, zone, but)
    ensures OnTheWay(s0, t) && zone in t.d.zones && t.threads.Keys == s0.threads.Keys
    ensures forall id :: id in s0.threads && (id == but || !Creates(s0, id, zone)) ==> t.threads[id] == s0.threads[id]
  {
    t := s0;
    ReachSelf(s0);
    if zone !in s0.d.zones {
      var c :| c != but && Creates(s0, c, zone);
      OneStepOn(s0, s0, c);
      t := Advanced(s0, c);
    }
  }

  /** A call about to overwrite the URL of its zone does so. */
  lemma {:induction false} OverwritesNow(s0: System, s: System, id: CallId)
    requires OnTheWay(s0, s) && Live(s, id) && Acts(s.d, id, s.threads[id])
    requires Overwrites(s.d, Wanted(id, s.threads[id]).value)
    ensures MayLeak(s0)
  {
    var t := Advanced(s, id);
    OverwritingLeaks(s.d, Wanted(id, s.threads[id]).value);
    ReachNext(s, id);
    ReachOn(s0, s, t);
    var n: nat :| Steps(Moves, s0, t, n);
  }

  /** Both calls take and detach before either places; then the `play` does, and the other overwrites it. */
  lemma {:induction false} PlayClashLeaks(s: System, zone: ZoneId, p: CallId, q: CallId)
    requires Poised(s) && PlayClash(s, zone, p, q)
    ensures MayLeak(s)
  {
    var t := ZoneComes(s, zone, q);
    t := UpToPlacing(s, t, q);
    t := UpToPlacing(s, t, p);
    t := InstallOn(s, t, p);
    OverwritesNow(s, t, q);
  }

  /** The zone is created once more while it runs a URL. */
  lemma {:induction false} CreateClashLeaks(s: System, zone: ZoneId, c: CallId)
    requires Poised(s) && CreateClash(s, zone, c)
    ensures MayLeak(s)
  {
    if RunsUrl(s.d, zone) {
      ReachSelf(s);
      OverwritesNow(s, s, c);
    } else {
      var p :| Plays(s, p, zone) && Comes(s, zone, c);
      var t := ZoneComes(s, zone, c);
      t := UpToPlacing(s, t, p);
      t := InstallOn(s, t, p);
      OverwritesNow(s, t, c);
    }
  }

  /**
   For any calls on zones that are about to begin: some schedule of their sections leaks a pipeline if and only if a
   `play` and another `play` or a `reroute` place drivers on one zone that exists or is about to, or a zone is created
   under an id that runs a URL or is about to.
   */
  lemma {:induction false} CallsLeakExactly(s: System)
    requires Poised(s)
    ensures MayLeak(s) <==> Clashes(s)
  {
    if zone, p, q :| PlayClash(s, zone, p, q) {
      PlayClashLeaks(s, zone, p, q);
    } else if zone, c :| CreateClash(s, zone, c) {
      CreateClashLeaks(s, zone, c);
    } else {
      NoClashNoLeak(s);
    }
  }
}
