/**
 `sink_for_zone` and `release_zone` at the level of their locks (src/audio/snapcast_router.rs). Each
 call takes the pool lock, lets it go, and only then takes the lock of the desired routing, so any
 number of concurrent calls interleave section by section.
 */
module RouterThreads {
  import opened Wrappers
  import opened Reachability
  import opened StreamPools
  import opened SnapcastControl
  import opened SnapcastRouters

  datatype ThreadId = ThreadId(number: nat)

  datatype Call = Request(zone: ZoneId, clients: seq<ClientId>) | Give(zone: ZoneId)

  /** How far a call got. A request that found no free stream is `Failed`. */
  datatype Progress = Started | PoolDone(slot: nat) | Finished(slot: nat) | Failed

  datatype Thread = Thread(call: Call, progress: Progress)

  datatype System = System(routing: Routing, threads: map<ThreadId, Thread>)

  predicate Live(t: Thread) {
    t.progress.Started? || t.progress.PoolDone?
  }

  /** The next lock section of a live call. */
  function Section(r: Routing, t: Thread): (Routing, Progress)
    requires Live(t)
  {
    match (t.call, t.progress)
    case (Request(zone, _), Started) =>
      var (pool, slot) := Allocated(r.pool, zone);
      (r.(pool := pool), if slot.None? then Failed else PoolDone(slot.value))
    case (Request(zone, clients), PoolDone(slot)) => (r.(desired := r.desired[zone := clients]), Finished(slot))
    case (Give(zone), Started) => (r.(pool := Released(r.pool, zone)), PoolDone(0))
    case (Give(zone), PoolDone(_)) => (r.(desired := r.desired - {zone}), Finished(0))
  }

  datatype Event = Spawn(id: ThreadId, call: Call) | Advance(id: ThreadId)

  predicate Enabled(s: System, e: Event) {
    match e
    case Spawn(id, _) => id !in s.threads
    case Advance(id) => id in s.threads && Live(s.threads[id])
  }

  function Next(s: System, e: Event): System
    requires Enabled(s, e)
  {
    match e
    case Spawn(id, call) => s.(threads := s.threads[id := Thread(call, Started)])
    case Advance(id) =>
      var (routing, progress) := Section(s.routing, s.threads[id]);
      System(routing, s.threads[id := s.threads[id].(progress := progress)])
  }

  ghost predicate IsTrace(events: seq<Event>, states: seq<System>) {
    && |states| == |events| + 1
    && states[0].threads == map[] && Injective(states[0].routing.pool) && InStep(states[0].routing)
    && forall n :: 0 <= n < |events| ==> Enabled(states[n], events[n]) && states[n + 1] == Next(states[n], events[n])
  }

  /**
   However the calls interleave: no zone ever holds two streams, a section changes no other zone's
   stream, and a request fails exactly when every stream is held by another zone at that moment.
   */
  lemma {:induction false} SectionKeepsPool(r: Routing, t: Thread)
    requires Injective(r.pool) && Live(t)
    ensures var (r', progress) := Section(r, t);
            && Injective(r'.pool)
            && (forall k, z :: z != t.call.zone ==> (Holds(r'.pool, k, z) <==> Holds(r.pool, k, z)))
            && (progress == Failed <==>
                  t.call.Request? && t.progress == Started
                  && forall k :: 0 <= k < |r.pool| ==> r.pool[k].Some? && r.pool[k] != Some(t.call.zone))
            && (progress.PoolDone? && t.call.Request? ==> Holds(r'.pool, progress.slot, t.call.zone))
  {
    AllocateGrants(r.pool, t.call.zone);
    ReleaseTakesOnlyOwn(r.pool, t.call.zone);
  }

  /** A call whose sections nothing comes between does what the router's call does. */
  lemma {:induction false} AloneIsTheCall(r: Routing, call: Call)
    ensures var (mid, progress) := Section(r, Thread(call, Started));
            match call
            case Give(zone) => progress == PoolDone(0) && Section(mid, Thread(call, progress)).0 == Dropped(r, zone)
            case Request(zone, clients) =>
              (match Requested(r, zone, clients, true)
               case Err(e) => e == NoFreeStream && progress == Failed && mid == r
               case Ok((routing, slot)) =>
                 progress == PoolDone(slot) && Section(mid, Thread(call, progress)) == (routing, Finished(slot)))
  {
  }

  lemma {:induction false} PoolStaysInjective(events: seq<Event>, states: seq<System>, n: nat)
    requires IsTrace(events, states) && n <= |events|
    ensures Injective(states[n].routing.pool)
  {
    if n == 0 {
    } else {
      PoolStaysInjective(events, states, n - 1);
      assert Enabled(states[n - 1], events[n - 1]);
      if events[n - 1].Advance? {
        SectionKeepsPool(states[n - 1].routing, states[n - 1].threads[events[n - 1].id]);
      }
    }
  }

  // ----- Streams and desired routing --------------------------------------------------------------

  predicate InStepFor(r: Routing, zone: ZoneId) {
    zone in r.desired <==> Some(zone) in r.pool
  }

  predicate InFlight(s: System, i: ThreadId, zone: ZoneId) {
    i in s.threads && Live(s.threads[i]) && s.threads[i].call.zone == zone
  }

  predicate Between(s: System, i: ThreadId, zone: ZoneId) {
    i in s.threads && s.threads[i].progress.PoolDone? && s.threads[i].call.zone == zone
  }

  /** No request and no give-up of the zone are in flight together. */
  ghost predicate OneKind(s: System, zone: ZoneId) {
    forall i, j :: InFlight(s, i, zone) && InFlight(s, j, zone) ==>
      s.threads[i].call.Request? == s.threads[j].call.Request?
  }

  /** The zone is in step unless a call on it is between its two sections, and then the pool is as that call left it. */
  ghost predicate InStepAtRest(s: System, zone: ZoneId) {
    && (forall i :: Between(s, i, zone) ==> (s.threads[i].call.Request? <==> Some(zone) in s.routing.pool))
    && (InStepFor(s.routing, zone) || exists i :: Between(s, i, zone))
  }

  lemma {:induction false} StepKeepsInStep(s: System, e: Event, zone: ZoneId)
    requires Injective(s.routing.pool) && OneKind(s, zone) && InStepAtRest(s, zone) && Enabled(s, e)
    ensures InStepAtRest(Next(s, e), zone)
  {
    var s' := Next(s, e);
    match e {
      case Spawn(_, _) =>
        if !InStepFor(s'.routing, zone) {
          var i :| Between(s, i, zone);
          assert Between(s', i, zone);
        }
      case Advance(id) =>
        if s.threads[id].call.zone == zone {
          OwnAdvanceKeepsInStep(s, id, zone);
        } else {
          OtherAdvanceKeepsInStep(s, id, zone);
        }
    }
  }

  lemma {:induction false} OtherAdvanceKeepsInStep(s: System, id: ThreadId, zone: ZoneId)
    requires Injective(s.routing.pool) && InStepAtRest(s, zone)
    requires Enabled(s, Advance(id)) && s.threads[id].call.zone != zone
    ensures InStepAtRest(Next(s, Advance(id)), zone)
    ensures Some(zone) in Next(s, Advance(id)).routing.pool <==> Some(zone) in s.routing.pool
  {
    var s' := Next(s, Advance(id));
    SectionKeepsPool(s.routing, s.threads[id]);
    SlotOrNone(s.routing.pool, zone);
    SlotOrNone(s'.routing.pool, zone);
    if !InStepFor(s'.routing, zone) {
      var i :| Between(s, i, zone);
      assert Between(s', i, zone);
    }
  }

  /** A section does to its own zone what its call is for. */
  lemma {:induction false} OwnSection(r: Routing, t: Thread)
    requires Injective(r.pool) && Live(t)
    ensures var (r', progress) := Section(r, t); var zone := t.call.zone;
            match t.progress
            case PoolDone(_) => r'.pool == r.pool && (zone in r'.desired <==> t.call.Request?)
            case _ => r'.desired == r.desired
                      && if progress == Failed then r' == r && t.call.Request? && Some(zone) !in r.pool
                         else Some(zone) in r'.pool <==> t.call.Request?
  {
    AllocateGrants(r.pool, t.call.zone);
    SlotOrNone(Allocated(r.pool, t.call.zone).0, t.call.zone);
  }

  lemma {:induction false} OwnAdvanceKeepsInStep(s: System, id: ThreadId, zone: ZoneId)
    requires Injective(s.routing.pool) && OneKind(s, zone) && InStepAtRest(s, zone)
    requires Enabled(s, Advance(id)) && s.threads[id].call.zone == zone
    ensures InStepAtRest(Next(s, Advance(id)), zone)
  {
    var s' := Next(s, Advance(id));
    OwnSection(s.routing, s.threads[id]);
    assert InFlight(s, id, zone);
    forall i | Between(s', i, zone) ensures s'.threads[i].call.Request? <==> Some(zone) in s'.routing.pool {
      if i != id {
        assert Between(s, i, zone) && InFlight(s, i, zone);
      }
    }
    if s'.threads[id].progress.PoolDone? {
      assert Between(s', id, zone);
    } else if s.threads[id].progress.PoolDone? {
      assert Between(s, id, zone);
    } else if i :| Between(s, i, zone) {
      assert InFlight(s, i, zone);
      assert false;
    }
  }

  /**
   Any run, calls starting at any time: as long as requests and give-ups of the zone are never in flight together,
   however many of one kind there are, the zone holds a stream exactly if it has a desired routing, whenever no
   call on it is between its two sections.
   */
  lemma {:induction false} OneKindStaysInStep(events: seq<Event>, states: seq<System>, n: nat, zone: ZoneId)
    requires IsTrace(events, states) && n <= |events|
    requires forall m :: 0 <= m < n ==> OneKind(states[m], zone)
    ensures InStepAtRest(states[n], zone)
    ensures (forall i :: !Between(states[n], i, zone)) ==> InStepFor(states[n].routing, zone)
  {
    if n == 0 {
      assert InStepFor(states[0].routing, zone);
    } else {
      OneKindStaysInStep(events, states, n - 1, zone);
      PoolStaysInjective(events, states, n - 1);
      assert Enabled(states[n - 1], events[n - 1]);
      StepKeepsInStep(states[n - 1], events[n - 1], zone);
    }
  }

  // ----- Exactly which calls may be in flight together --------------------------------------------

  /** Some schedule of sections of the calls in flight leads from `s` to `t`. */
  ghost predicate CanLead(s: System, t: System) {
    exists n: nat :: Steps(Moves, s, t, n)
  }

  ghost predicate Moves(s: System, s': System) {
    exists id :: Advances(s, id, s')
  }

  predicate Advances(s: System, id: ThreadId, s': System) {
    Enabled(s, Advance(id)) && s' == Next(s, Advance(id))
  }

  /** The pool and the desired routing agree, and every call is about to begin. */
  ghost predicate Poised(s: System) {
    Injective(s.routing.pool) && InStep(s.routing) && forall i :: i in s.threads ==> s.threads[i].progress == Started
  }

  /** However the calls are scheduled: once those on the zone are over, it is in step. */
  ghost predicate AlwaysInStep(s: System, zone: ZoneId) {
    forall t :: CanLead(s, t) && (forall i :: !InFlight(t, i, zone)) ==> InStepFor(t.routing, zone)
  }

  /** Some stream is free, or the zone's own, or will be given up. */
  predicate Grantable(s: System, zone: ZoneId) {
    exists k :: 0 <= k < |s.routing.pool| && MayGet(s, zone, s.routing.pool[k])
  }

  predicate MayGet(s: System, zone: ZoneId, slot: Option<ZoneId>) {
    slot.None? || slot.value == zone || exists i :: i in s.threads && s.threads[i].call == Give(slot.value)
  }

  /** A request that can be granted and a give-up are in flight together. */
  predicate Clashes(s: System, zone: ZoneId) {
    && (exists i :: i in s.threads && s.threads[i].call.Request? && s.threads[i].call.zone == zone)
    && (exists i :: i in s.threads && s.threads[i].call == Give(zone))
    && Grantable(s, zone)
  }

  /** The threads and their calls stay what they are. */
  predicate SameCalls(s: System, t: System) {
    t.threads.Keys == s.threads.Keys && forall i :: i in s.threads ==> t.threads[i].call == s.threads[i].call
  }

  predicate AllOneKind(s: System, zone: ZoneId) {
    (forall i :: i in s.threads && s.threads[i].call.zone == zone ==> s.threads[i].call.Request?)
    || (forall i :: i in s.threads && s.threads[i].call.zone == zone ==> s.threads[i].call.Give?)
  }

  lemma {:induction false} AllOneKindStep(s: System, id: ThreadId, s': System, zone: ZoneId)
    requires Injective(s.routing.pool) && AllOneKind(s, zone) && InStepAtRest(s, zone) && Advances(s, id, s')
    ensures Injective(s'.routing.pool) && AllOneKind(s', zone) && InStepAtRest(s', zone)
  {
    SectionKeepsPool(s.routing, s.threads[id]);
    StepKeepsInStep(s, Advance(id), zone);
  }

  lemma {:induction false} AllOneKindLeads(s: System, t: System, n: nat, zone: ZoneId)
    requires Steps(Moves, s, t, n) && Injective(s.routing.pool) && AllOneKind(s, zone) && InStepAtRest(s, zone)
    ensures InStepAtRest(t, zone)
    decreases n
  {
    if n == 0 {
    } else {
      var mid :| Moves(s, mid) && Steps(Moves, mid, t, n - 1);
      var id :| Advances(s, id, mid);
      AllOneKindStep(s, id, mid, zone);
      AllOneKindLeads(mid, t, n - 1, zone);
    }
  }

  /** Every stream is another zone's that nobody gives up, and no request of the zone has got one. */
  ghost predicate Hopeless(s: System, zone: ZoneId) {
    && !Grantable(s, zone) && zone !in s.routing.desired
    && forall i :: i in s.threads && s.threads[i].call.Request? && s.threads[i].call.zone == zone ==>
         s.threads[i].progress == Started || s.threads[i].progress == Failed
  }

  lemma {:induction false} HopelessStep(s: System, id: ThreadId, s': System, zone: ZoneId)
    requires Injective(s.routing.pool) && Hopeless(s, zone) && Advances(s, id, s')
    ensures Hopeless(s', zone) && s'.routing.pool == s.routing.pool
  {
    var own := s.threads[id].call.zone;
    forall k | 0 <= k < |s.routing.pool| ensures s.routing.pool[k].Some? && s.routing.pool[k].value != zone {
      assert !MayGet(s, zone, s.routing.pool[k]);
    }
    AllocateGrants(s.routing.pool, own);
    if s.threads[id].call.Give? {
      assert forall k :: 0 <= k < |s.routing.pool| ==> !MayGet(s, zone, s.routing.pool[k]);
      assert s'.routing.pool == s.routing.pool;
    } else if s.threads[id].progress.Started? {
      SlotOrNone(s.routing.pool, own);
    }
    assert SameCalls(s, s');
    assert !Grantable(s', zone) by {
      forall k | 0 <= k < |s'.routing.pool| ensures !MayGet(s', zone, s'.routing.pool[k]) {
        assert !MayGet(s, zone, s.routing.pool[k]);
      }
    }
  }

  lemma {:induction false} HopelessLeads(s: System, t: System, n: nat, zone: ZoneId)
    requires Steps(Moves, s, t, n) && Injective(s.routing.pool) && Hopeless(s, zone)
    ensures Hopeless(t, zone)
    decreases n
  {
    if n == 0 {
    } else {
      var mid :| Moves(s, mid) && Steps(Moves, mid, t, n - 1);
      var id :| Advances(s, id, mid);
      HopelessStep(s, id, mid, zone);
      HopelessLeads(mid, t, n - 1, zone);
    }
  }

  lemma {:induction false} HopelessIsInStep(s: System, zone: ZoneId)
    requires Hopeless(s, zone)
    ensures InStepFor(s.routing, zone)
  {
    forall k | 0 <= k < |s.routing.pool| ensures s.routing.pool[k] != Some(zone) {
      assert !MayGet(s, zone, s.routing.pool[k]);
    }
  }

  lemma {:induction false} NoClashStaysInStep(s: System, zone: ZoneId)
    requires Poised(s) && !Clashes(s, zone)
    ensures AlwaysInStep(s, zone)
  {
    forall t | CanLead(s, t) && (forall i :: !InFlight(t, i, zone)) ensures InStepFor(t.routing, zone) {
      var n: nat :| Steps(Moves, s, t, n);
      if AllOneKind(s, zone) {
        assert InStepFor(s.routing, zone);
        AllOneKindLeads(s, t, n, zone);
        assert forall i :: Between(t, i, zone) ==> InFlight(t, i, zone);
      } else {
        forall k | 0 <= k < |s.routing.pool| ensures s.routing.pool[k] != Some(zone) {
          assert !MayGet(s, zone, s.routing.pool[k]);
        }
        HopelessLeads(s, t, n, zone);
        HopelessIsInStep(t, zone);
      }
    }
  }

  lemma {:induction false} LeadsOn(s: System, t: System, u: System)
    requires CanLead(s, t) && CanLead(t, u)
    ensures CanLead(s, u)
  {
    var n: nat :| Steps(Moves, s, t, n);
    var m: nat :| Steps(Moves, t, u, m);
    StepsOnward(Moves, s, t, n, u, m);
  }

  lemma {:induction false} LeadsNowhere(s: System)
    ensures CanLead(s, s)
  {
    assert Steps(Moves, s, s, 0);
  }

  lemma {:induction false} OneAdvance(s: System, id: ThreadId, t: System)
    requires Advances(s, id, t)
    ensures CanLead(s, t)
  {
    assert Moves(s, t) && Steps(Moves, t, t, 0) && Steps(Moves, s, t, 1);
  }

  /** Some stream is free or the zone's own, so a request would be granted now. */
  predicate Roomy(r: Routing, zone: ZoneId) {
    exists k :: 0 <= k < |r.pool| && (r.pool[k] == None || r.pool[k] == Some(zone))
  }

  /** What a section of the zone's own call leaves: as much room, and a request is granted. */
  lemma {:induction false} RoomStays(r: Routing, t: Thread)
    requires Injective(r.pool) && Live(t) && Roomy(r, t.call.zone)
    ensures var (r', progress) := Section(r, t);
            && Injective(r'.pool) && Roomy(r', t.call.zone)
            && progress == (if t.progress.Started? then PoolDone(progress.slot) else Finished(progress.slot))
  {
    var zone := t.call.zone;
    var k :| 0 <= k < |r.pool| && (r.pool[k] == None || r.pool[k] == Some(zone));
    SectionKeepsPool(r, t);
    AllocateGrants(r.pool, zone);
    if t.call.Give? || t.progress.PoolDone? {
      assert Section(r, t).0.pool[k] == None || Section(r, t).0.pool[k] == Some(zone);
    } else {
      assert Holds(Section(r, t).0.pool, Section(r, t).1.slot, zone);
    }
  }

  /** If another zone's stream has to be given up first, it is. */
  lemma {:induction false} MakeRoom(s: System, zone: ZoneId) returns (t: System)
    requires Poised(s) && Grantable(s, zone)
    ensures CanLead(s, t) && Injective(t.routing.pool) && Roomy(t.routing, zone) && SameCalls(s, t)
    ensures forall i :: i in s.threads && s.threads[i].call.zone == zone ==> t.threads[i] == s.threads[i]
  {
    var k :| 0 <= k < |s.routing.pool| && MayGet(s, zone, s.routing.pool[k]);
    if s.routing.pool[k] == None || s.routing.pool[k] == Some(zone) {
      t := s;
      LeadsNowhere(s);
    } else {
      var i :| i in s.threads && s.threads[i].call == Give(s.routing.pool[k].value);
      t := Next(s, Advance(i));
      OneAdvance(s, i, t);
      SectionKeepsPool(s.routing, s.threads[i]);
      assert t.routing.pool[k] == None;
    }
  }

  lemma {:induction false} FinishOne(s: System, id: ThreadId, zone: ZoneId) returns (t: System)
    requires Injective(s.routing.pool) && Roomy(s.routing, zone)
    requires id in s.threads && s.threads[id].progress == Started && s.threads[id].call.zone == zone
    ensures CanLead(s, t) && Injective(t.routing.pool) && Roomy(t.routing, zone)
    ensures id in t.threads && !Live(t.threads[id]) && t.threads == s.threads[id := t.threads[id]]
    ensures t.threads[id].call == s.threads[id].call
    ensures Some(zone) in t.routing.pool <==> s.threads[id].call.Request?
  {
    var mid := Next(s, Advance(id));
    RoomStays(s.routing, s.threads[id]);
    t := Next(mid, Advance(id));
    RoomStays(mid.routing, mid.threads[id]);
    OwnSection(s.routing, s.threads[id]);
    OneAdvance(s, id, mid);
    OneAdvance(mid, id, t);
    LeadsOn(s, mid, t);
  }

  /** Calls on the zone run one after the other, each to its end. */
  lemma {:induction false} FinishAll(s: System, todo: set<ThreadId>, zone: ZoneId) returns (t: System)
    requires Injective(s.routing.pool) && Roomy(s.routing, zone)
    requires forall i :: i in todo ==>
               i in s.threads && s.threads[i].progress == Started && s.threads[i].call.zone == zone
    ensures CanLead(s, t) && Injective(t.routing.pool) && Roomy(t.routing, zone) && SameCalls(s, t)
    ensures forall i :: i in s.threads ==> if i in todo then !Live(t.threads[i]) else t.threads[i] == s.threads[i]
    decreases |todo|
  {
    if todo == {} {
      t := s;
      LeadsNowhere(s);
    } else {
      var id :| id in todo;
      var mid := FinishOne(s, id, zone);
      t := FinishAll(mid, todo - {id}, zone);
      LeadsOn(s, mid, t);
    }
  }

  /** The give-up frees the stream, the request gets one and records its clients, and the give-up erases them. */
  lemma {:induction false} Cross(s: System, give: ThreadId, request: ThreadId, zone: ZoneId) returns (t: System)
    requires Injective(s.routing.pool) && Roomy(s.routing, zone) && give in s.threads && request in s.threads
    requires s.threads[give] == Thread(Give(zone), Started)
    requires s.threads[request].call.Request? && s.threads[request].call.zone == zone
             && s.threads[request].progress == Started
    ensures CanLead(s, t) && SameCalls(s, t) && Some(zone) in t.routing.pool && zone !in t.routing.desired
    ensures forall i :: i in s.threads ==>
              if i == give || i == request then !Live(t.threads[i]) else t.threads[i] == s.threads[i]
  {
    var a := Next(s, Advance(give));
    RoomStays(s.routing, s.threads[give]);
    OneAdvance(s, give, a);
    var b := FinishOne(a, request, zone);
    t := Next(b, Advance(give));
    OneAdvance(b, give, t);
    LeadsOn(s, a, b);
    LeadsOn(s, b, t);
  }

  /** A give-up and a request of one zone, both about to begin. */
  function Two(r: Routing, zone: ZoneId, clients: seq<ClientId>): (s: System) {
    System(r, map[ThreadId(0) := Thread(Give(zone), Started), ThreadId(1) := Thread(Request(zone, clients), Started)])
  }

  /**
   A give-up and a request of a zone that plays can cross: the zone then holds a stream but has no desired routing,
   so the reconciler never groups its clients although it plays.
   */
  lemma {:induction false} CrossedCallsLoseTheRouting(r: Routing, zone: ZoneId, clients: seq<ClientId>)
    requires Injective(r.pool) && InStep(r) && zone in r.desired
    ensures exists t :: CanLead(Two(r, zone, clients), t) && (forall i :: !InFlight(t, i, zone))
              && Some(zone) in t.routing.pool && zone !in t.routing.desired
  {
    var k :| 0 <= k < |r.pool| && r.pool[k] == Some(zone);
    assert Roomy(r, zone);
    var t := Cross(Two(r, zone, clients), ThreadId(0), ThreadId(1), zone);
  }

  lemma {:induction false} ClashBreaks(s: System, zone: ZoneId)
    requires Poised(s) && Clashes(s, zone)
    ensures !AlwaysInStep(s, zone)
  {
    var request :| request in s.threads && s.threads[request].call.Request? && s.threads[request].call.zone == zone;
    var give :| give in s.threads && s.threads[give].call == Give(zone);
    var a := MakeRoom(s, zone);
    var others := set i | i in a.threads && a.threads[i].call.zone == zone && i != request && i != give;
    var b := FinishAll(a, others, zone);
    var c := Cross(b, give, request, zone);
    LeadsOn(s, a, b);
    LeadsOn(s, b, c);
    assert forall i :: !InFlight(c, i, zone);
  }

  /**
   Calls about to begin, in a router in step: every schedule of them leaves the zone in step exactly when no request
   of it that can be granted and no give-up of it are among them.
   */
  lemma {:induction false} ZonesStayInStepExactly(s: System, zone: ZoneId)
    requires Poised(s)
    ensures AlwaysInStep(s, zone) <==> !Clashes(s, zone)
  {
    if Clashes(s, zone) {
      ClashBreaks(s, zone);
    } else {
      NoClashStaysInStep(s, zone);
    }
  }
}
