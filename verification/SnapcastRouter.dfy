/**
 The engine's seam into Snapcast (src/audio/snapcast_router.rs, `SnapcastRouter`): the stream pool
 and the desired routing, and the entries a reconcile pass is given.
 */
module SnapcastRouters {
  import opened Wrappers
  import opened StreamPools
  import opened SnapcastControl
  import opened SnapcastReconcile
  import opened SnapcastConvergence

  datatype RouterError = NoFreeStream | ServerDown

  /** The router's own state: who holds which stream, and who wants which clients. */
  datatype Routing = Routing(pool: Allocation, desired: map<ZoneId, seq<ClientId>>)

  /** `up` tells whether snapserver runs or could be started. */
  function Requested(r: Routing, zone: ZoneId, clients: seq<ClientId>, up: bool): Result<(Routing, nat), RouterError> {
    if !up then Err(ServerDown)
    else
      var (pool, slot) := Allocated(r.pool, zone);
      if slot.None? then Err(NoFreeStream)
      else Ok((Routing(pool, r.desired[zone := clients]), slot.value))
  }

  function Dropped(r: Routing, zone: ZoneId): Routing {
    Routing(Released(r.pool, zone), r.desired - {zone})
  }

  /** The zones that hold a stream are exactly those with a desired routing. */
  ghost predicate InStep(r: Routing) {
    forall zone :: zone in r.desired <==> Some(zone) in r.pool
  }

  /** `entries` lists, in the order of `zones`, every desired zone that holds a stream, once. */
  ghost predicate IsEntries(r: Routing, zones: seq<ZoneId>, entries: seq<ZoneRouting>) {
    && (forall i, j :: 0 <= i < j < |zones| ==> zones[i] != zones[j])
    && (forall z :: z in zones <==> z in r.desired && Some(z) in r.pool)
    && |entries| == |zones|
    && (forall i :: 0 <= i < |zones| ==> IsEntry(r, zones[i], entries[i]))
  }

  predicate IsEntry(r: Routing, zone: ZoneId, entry: ZoneRouting) {
    var stream := Find(r.pool, Some(zone));
    stream.Some? && zone in r.desired && entry == ZoneRouting(stream.value, r.desired[zone])
  }

  /** What the reconciler is handed never names a stream twice, and each stream is its zone's. */
  lemma {:induction false} EntriesHaveDistinctStreams(r: Routing, zones: seq<ZoneId>, entries: seq<ZoneRouting>)
    requires IsEntries(r, zones, entries)
    ensures DistinctStreams(entries)
    ensures forall i :: 0 <= i < |zones| ==> Holds(r.pool, entries[i].stream, zones[i])
  {
    forall i, j | 0 <= i < j < |entries| ensures entries[i].stream != entries[j].stream {
      assert r.pool[entries[i].stream] == Some(zones[i]) && r.pool[entries[j].stream] == Some(zones[j]);
    }
  }

  /** A release leaves the streams and the desired routing of the other zones in step. */
  lemma {:induction false} DroppedKeepsInStep(r: Routing, zone: ZoneId)
    requires Injective(r.pool) && InStep(r)
    ensures Injective(Dropped(r, zone).pool) && InStep(Dropped(r, zone))
  {
    ReleaseTakesOnlyOwn(r.pool, zone);
    var r' := Dropped(r, zone);
    forall z ensures z in r'.desired <==> Some(z) in r'.pool {
      SlotOrNone(r.pool, z);
      SlotOrNone(r'.pool, z);
    }
  }

  /**
   A successful request keeps streams and desired routing in step and gives the zone the slot it
   returns; a release takes back all that a first request did.
   */
  lemma {:induction false} RequestedKeepsInStep(r: Routing, zone: ZoneId, clients: seq<ClientId>)
    requires Injective(r.pool) && InStep(r)
    requires Requested(r, zone, clients, true).Ok?
    ensures var (r', slot) := Requested(r, zone, clients, true).value;
            && Injective(r'.pool) && InStep(r') && Holds(r'.pool, slot, zone)
            && (zone !in r.desired ==> Dropped(r', zone) == r)
  {
    AllocateGrants(r.pool, zone);
    var (r', slot) := Requested(r, zone, clients, true).value;
    forall z ensures z in r'.desired <==> Some(z) in r'.pool {
      SlotOrNone(r.pool, z);
      SlotOrNone(r'.pool, z);
      assert z != zone ==> forall k :: Holds(r'.pool, k, z) <==> Holds(r.pool, k, z);
      assert z == zone ==> Holds(r'.pool, slot, z);
    }
    if zone !in r.desired {
      ReleaseUndoesAllocate(r.pool, zone);
      assert r'.desired - {zone} == r.desired;
    }
  }

  lemma {:induction false} SlotOrNone(pool: Allocation, zone: ZoneId)
    ensures Some(zone) in pool <==> exists k :: Holds(pool, k, zone)
  {
    if Some(zone) in pool {
      var k :| 0 <= k < |pool| && pool[k] == Some(zone);
      assert Holds(pool, k, zone);
    }
  }

  /** Over a connection that carries `replies` a pass with so many entries has this outcome or goes through. */
  predicate ConnectionDecides(entries: nat, replies: seq<Reply>, r: Result<(), ControlError>) {
    && (r == Err(Malformed) <==> replies != [] && replies[0].Garbled?)
    && (|replies| > 2 * entries ==> r != Err(Unanswered))
    && (replies == [] ==> r == Err(Unanswered))
  }

  /** One pass over the entries of `r` has turned the server from `before` into `after`. */
  ghost predicate PassMade(r: Routing, before: Server, replies: seq<Reply>, after: Server) {
    exists zones, entries, states, outcome ::
      && IsEntries(r, zones, entries) && ConnectionDecides(|entries|, replies, outcome)
      && states != [] && states[0] == before && PassGives(entries, states, outcome, after)
  }

  class SnapcastRouter {
    const pool: StreamPool
    /** The foreign server; the hub talks to it once `started`. */
    const server: Snapserver
    var started: bool
    var desired: map<ZoneId, seq<ClientId>>

    ghost function Value(): Routing
      reads this, pool.slots
    {
      Routing(pool.slots[..], desired)
    }

    constructor (server: Snapserver)
      ensures fresh(pool.slots) && this.server == server && !started
      ensures Value().desired == map[] && |Value().pool| == STREAM_POOL_SIZE
      ensures forall k :: 0 <= k < STREAM_POOL_SIZE ==> Value().pool[k] == None
    {
      this.server := server;
      pool := new StreamPool(STREAM_POOL_SIZE);
      started := false;
      desired := map[];
    }

    /** `canStart` is the outcome of starting snapserver, should it have to be started. */
    method SinkForZone(zone: ZoneId, clients: seq<ClientId>, canStart: bool) returns (r: Result<nat, RouterError>)
      requires server.Valid()
      modifies this, pool.slots, server
      ensures server.Valid()
      ensures match Requested(old(Value()), zone, clients, old(started) || canStart)
              case Ok((routing, slot)) => r == Ok(slot) && Value() == routing
              case Err(e) => r == Err(e) && Value() == old(Value())
      ensures r.Ok? ==> started && PassMade(Value(), old(server.state), old(server.replies), server.state)
      ensures r.Err? ==> server.state == old(server.state)
      ensures old(started) ==> started
    {
      if !started && !canStart {
        return Err(ServerDown);
      }
      started := true;
      var slot := pool.Allocate(zone);
      if slot.None? {
        return Err(NoFreeStream);
      }
      desired := desired[zone := clients];
      var _ := ReconcileNow();
      return Ok(slot.value);
    }

    method ReleaseZone(zone: ZoneId)
      modifies this, pool.slots
      ensures Value() == Dropped(old(Value()), zone) && started == old(started)
    {
      pool.Release(zone);
      desired := desired - {zone};
    }

    /** One reconcile pass over the current entries; without a running server nothing happens. */
    method ReconcileNow() returns (ghost states: seq<Server>)
      requires server.Valid()
      modifies server
      ensures server.Valid()
      ensures !started ==> server.state == old(server.state)
      ensures started ==> exists zones, entries, r ::
                && IsEntries(Value(), zones, entries) && PassGives(entries, states, r, server.state)
                && states != [] && states[0] == old(server.state)
      ensures started ==> PassMade(Value(), old(server.state), old(server.replies), server.state)
      ensures old(server.replies) == [] ==> server.replies == [] && server.state == old(server.state)
    {
      if !started {
        return [];
      }
      var zones, entries := Entries();
      var r;
      r, states := Reconcile(server, entries);
      assert IsEntries(Value(), zones, entries) && PassGives(entries, states, r, server.state);
      assert ConnectionDecides(|entries|, old(server.replies), r);
    }

    method Entries() returns (ghost zones: seq<ZoneId>, entries: seq<ZoneRouting>)
      ensures IsEntries(Value(), zones, entries)
    {
      zones, entries := [], [];
      var todo := desired.Keys;
      while todo != {}
        invariant todo <= desired.Keys
        invariant forall i, j :: 0 <= i < j < |zones| ==> zones[i] != zones[j]
        invariant forall z :: z in zones <==> z in desired && z !in todo && Some(z) in pool.slots[..]
        invariant |entries| == |zones|
        invariant forall i :: 0 <= i < |zones| ==> IsEntry(Value(), zones[i], entries[i])
        decreases |todo|
      {
        var zone :| zone in todo;
        var stream := pool.StreamFor(zone);
        if stream.Some? {
          zones := zones + [zone];
          entries := entries + [ZoneRouting(stream.value, desired[zone])];
        }
        todo := todo - {zone};
      }
    }
  }
}
