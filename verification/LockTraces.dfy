/**
 The mutexes and thread joins of the engine, the router and the receivers (src/audio/engine.rs,
 src/audio/snapcast_router.rs, src/audio/airplay_manager.rs, src/audio/airplay_factory.rs). A call is the
 sequence of guards it takes, each with what is locked or joined while it is held. A thread that others join
 holds a lock on its own life until it ends. Any number of threads running any calls can always make progress.
 */
module LockTraces {
  import opened Wrappers

  /** The threads that others join: decoders, threads of output devices, the readers of a receiver, monitors. */
  datatype Worker = Decoder(n: nat) | Device(n: nat) | PumpOf(receiver: nat) | MetaOf(receiver: nat) | Monitor(n: nat)

  datatype Lock =
    | AirplayHandle | Receivers | Supervisor | Child | Pump | Meta
    | Sources | Zones | ArtCache | Registry
    | Started | Desired | Pool | Control | SinkBuffer(slot: nat)
    | Life(worker: Worker)

  /** A guard of `lock`, and what is locked before the guard is dropped. */
  datatype Guard = Guard(lock: Lock, inside: seq<Guard>)

  datatype Action = Acquire(lock: Lock) | Release(lock: Lock)

  /** The acquisitions and releases a sequence of guards stands for. */
  function Flatten(guards: seq<Guard>): seq<Action> {
    if guards == [] then []
    else [Acquire(guards[0].lock)] + Flatten(guards[0].inside) + [Release(guards[0].lock)] + Flatten(guards[1..])
  }

  const RANKS := 7

  /** The order in which locks nest. */
  function Rank(l: Lock): (r: nat)
    ensures r < RANKS
  {
    match l
    case AirplayHandle => 0
    case Receivers => 1
    case Supervisor => 2
    case Pump => 2
    case Meta => 2
    case Sources => 3
    case Desired => 3
    case Started => 3
    case Zones => 4
    case Pool => 4
    case Registry => 4
    case Life(worker) =>
      (match worker
       case PumpOf(_) => 2
       case MetaOf(_) => 2
       case Decoder(_) => 3
       case Monitor(_) => 4
       case Device(_) => 5)
    case _ => 6
  }

  /** Every guard is taken while only locks of lower rank are held. */
  predicate Ordered(guards: seq<Guard>, above: int) {
    forall g :: g in guards ==> Rank(g.lock) > above && Ordered(g.inside, Rank(g.lock))
  }

  // ----- The calls --------------------------------------------------------------------------------

  function Alone(l: Lock): Guard { Guard(l, []) }

  /** A join ends when the thread has ended. */
  function Join(worker: Worker): Guard { Alone(Life(worker)) }

  function Times(n: nat, guards: seq<Guard>): seq<Guard> {
    if n == 0 then [] else guards + Times(n - 1, guards)
  }

  function If(b: bool, guards: seq<Guard>): seq<Guard> {
    if b then guards else []
  }

  /** The last handles of output devices are given up: each device's thread is joined. */
  function DropSinks(freed: seq<nat>): seq<Guard> {
    if freed == [] then [] else [Join(Device(freed[0]))] + DropSinks(freed[1..])
  }

  /** A guard under which handles of sinks are replaced. */
  function Replacing(l: Lock, freed: seq<nat>): Guard { Guard(l, DropSinks(freed)) }

  /** A reconcile pass: the entries are computed with `pool` locked inside `desired`. */
  function ReconcileNow(started: bool, requests: nat): seq<Guard> {
    [Alone(Started)] + If(started, [Guard(Desired, [Alone(Pool)])] + Times(requests, [Alone(Control)]))
  }

  /** Dropping a supervisor kills its child under the child's lock, then joins its monitor. */
  function DropSupervisor(monitor: nat): seq<Guard> {
    [Alone(Child), Join(Monitor(monitor))]
  }

  /** How far `zone_sink` gets. */
  datatype SinkPath =
    | Rejected
    | DeviceRefused(device: nat)
    | DeviceKnown
    | DeviceOpened(freed: seq<nat>)
    | NoDongles(listed: nat)
    | NoServer(listed: nat)
    | NoConnection(listed: nat, monitor: nat)
    | PoolFull(listed: nat)
    | Granted(listed: nat, requests: nat)

  predicate Grants(path: SinkPath) {
    path.DeviceKnown? || path.DeviceOpened? || path.Granted?
  }

  function Listed(n: nat): seq<Guard> { Times(n, [Alone(Registry)]) }

  function ZoneSink(path: SinkPath): seq<Guard> {
    match path
    case Rejected => []
    case DeviceRefused(device) => [Alone(Registry), Join(Device(device))]
    case DeviceKnown => [Alone(Registry)]
    case DeviceOpened(freed) => [Alone(Registry), Replacing(Registry, freed)]
    case NoDongles(listed) => Listed(listed)
    case NoServer(listed) => Listed(listed) + [Alone(Started)]
    case NoConnection(listed, monitor) => Listed(listed) + [Guard(Started, DropSupervisor(monitor))]
    case PoolFull(listed) => Listed(listed) + [Alone(Started), Alone(Pool)]
    case Granted(listed, requests) =>
      Listed(listed) + [Alone(Started), Alone(Pool), Alone(Desired)] + ReconcileNow(true, requests)
  }

  const RELEASE_ZONE := [Alone(Pool), Alone(Desired)]

  /** The driver found on a zone: a URL pipeline is joined, a source is unrouted. */
  datatype Driver = Nobody | Url(decoder: nat) | Source(freed: seq<nat>)

  function Detach(driver: Driver): seq<Guard> {
    match driver
    case Nobody => []
    case Url(decoder) => [Join(Decoder(decoder))]
    case Source(freed) => [Replacing(Sources, freed)]
  }

  datatype Receiver = Receiver(id: nat, monitor: nat)

  /** Dropping a receiver: its supervisor under its own guard, then its two readers. */
  function TearDown(r: Receiver): seq<Guard> {
    [Guard(Supervisor, DropSupervisor(r.monitor))]
    + [Alone(Pump), Join(PumpOf(r.id)), Alone(Meta), Join(MetaOf(r.id))]
  }

  function TearDownAll(receivers: seq<Receiver>): seq<Guard> {
    if receivers == [] then [] else TearDown(receivers[0]) + TearDownAll(receivers[1..])
  }

  /** One receiver in a pass of the manager: torn down, restarted, or given up at some step of its creation. */
  datatype Change =
    | Gone(receiver: Receiver)
    | Renamed(oldMonitor: nat)
    | NotCreated(pumped: bool, receiver: Receiver)

  function Applied(change: Change): seq<Guard> {
    match change
    case Gone(receiver) => TearDown(receiver)
    case Renamed(oldMonitor) => [Guard(Supervisor, DropSupervisor(oldMonitor))]
    case NotCreated(pumped, receiver) => If(pumped, [Join(PumpOf(receiver.id))]) + DropSupervisor(receiver.monitor)
  }

  function AllApplied(changes: seq<Change>): seq<Guard> {
    if changes == [] then [] else Applied(changes[0]) + AllApplied(changes[1..])
  }

  /** The receiver manager: off, or the changes of its pass and the receivers that go with its last handle. */
  datatype Manager = Off | On(changes: seq<Change>, last: seq<Receiver>)

  /** The manager works when none of the engine's locks is held. */
  function Managed(manager: Manager): seq<Guard> {
    match manager
    case Off => []
    case On(changes, last) => [Guard(Receivers, AllApplied(changes))] + TearDownAll(last)
  }

  /** Zones, sources and the manager's handle are locked one after the other. */
  function ReconcileAirplay(freed: seq<nat>, manager: Manager): seq<Guard> {
    [Alone(Zones), Replacing(Sources, freed), Alone(AirplayHandle)] + Managed(manager)
  }

  datatype Call =
    | Play(known: bool, path: SinkPath, there: bool, driver: Driver, freed: seq<nat>)
    | Stop(driver: Driver)
    | SessionBegan(known: bool, freed: seq<nat>, driver: Driver)
    | SessionEnded(known: bool, freed: seq<nat>)
    | Reroute(moves: bool, known: bool, path: SinkPath, freed: seq<nat>, left: bool, driver: Driver)
    | SinkAtHand
    | SinkForSource(known: bool, path: SinkPath, freed: seq<nat>)
    | TrackUpdate
    | ArtUpdate(known: bool)
    | GetArt
    | ListSources
    | ListZones
    | ListTargets
    | CreateZone(freed: seq<nat>, manager: Manager)
    | DeleteZone(known: bool, driver: Driver, freed: seq<nat>, manager: Manager)
    | RenameZone(known: bool, freed: seq<nat>, manager: Manager)
    | SetZoneOutputs(checked: nat, valid: bool, known: bool, started: bool, requests: nat)
    | RegisterDongle(device: seq<nat>, freed: seq<nat>, manager: Manager, started: bool, requests: nat)
    | DongleOffline
    | EnableAirplay(replaced: seq<Receiver>, freed: seq<nat>, manager: Manager)
    | SnapcastNotify(started: bool, requests: nat)
    | SinkWrite(slot: nat)
    | SinkDropped(freed: seq<nat>)
    | SuperviseChild(relaunches: nat)

  /** The old driver is taken and detached, and the new pipeline installed. */
  function Installing(there: bool, driver: Driver, freed: seq<nat>): seq<Guard> {
    [Alone(Zones)] + If(there, Detach(driver) + [Replacing(Zones, freed)])
  }

  /** Steps 5 to 5c of a reroute. */
  function Moving(freed: seq<nat>, left: bool, driver: Driver): seq<Guard> {
    [Replacing(Sources, freed), Alone(Zones)] + If(left, RELEASE_ZONE) + [Alone(Zones)] + Detach(driver)
      + [Alone(Zones)]
  }

  /** The guards of one call; its parameters say which branches it takes and how often it loops. */
  function Guards(call: Call): seq<Guard> {
    match call
    case Play(known, path, there, driver, freed) =>
      [Alone(Zones)] + If(known, ZoneSink(path) + If(Grants(path), Installing(there, driver, freed)))
    case Stop(driver) => [Alone(Zones)] + Detach(driver) + RELEASE_ZONE
    case SessionBegan(known, freed, driver) =>
      [Replacing(Sources, freed)] + If(known, [Alone(ArtCache), Alone(Zones)] + Detach(driver))
    case SessionEnded(known, freed) =>
      [Replacing(Sources, freed)] + If(known, [Alone(Zones)] + RELEASE_ZONE + [Alone(ArtCache)])
    case Reroute(moves, known, path, freed, left, driver) =>
      [Alone(Sources)]
      + If(moves, [Alone(Zones)] + If(known, ZoneSink(path) + If(Grants(path), Moving(freed, left, driver))))
    case SinkAtHand => [Alone(Sources)]
    case SinkForSource(known, path, freed) =>
      [Guard(Sources, [Alone(Zones)])] + If(known, ZoneSink(path) + If(Grants(path), [Replacing(Sources, freed)]))
    case TrackUpdate => [Alone(Sources)]
    case ArtUpdate(known) => [Alone(Sources)] + If(known, [Alone(ArtCache)])
    case GetArt => [Alone(ArtCache)]
    case ListSources => [Alone(Sources)]
    case ListZones => [Alone(Zones)]
    case ListTargets => [Alone(Registry)]
    case CreateZone(freed, manager) => [Alone(Zones)] + ReconcileAirplay(freed, manager)
    case DeleteZone(known, driver, freed, manager) =>
      [Alone(Zones)] + If(known, Detach(driver) + RELEASE_ZONE + ReconcileAirplay(freed, manager))
    case RenameZone(known, freed, manager) => [Alone(Zones)] + If(known, ReconcileAirplay(freed, manager))
    case SetZoneOutputs(checked, valid, known, started, requests) =>
      Listed(checked) + If(valid, [Alone(Zones)] + If(known, ReconcileNow(started, requests)))
    case RegisterDongle(device, freed, manager, started, requests) =>
      [Replacing(Registry, device)] + [Alone(Zones)] + ReconcileAirplay(freed, manager)
        + ReconcileNow(started, requests)
    case DongleOffline => [Alone(Registry)]
    case EnableAirplay(replaced, freed, manager) =>
      [Guard(AirplayHandle, TearDownAll(replaced))] + ReconcileAirplay(freed, manager)
    case SnapcastNotify(started, requests) => ReconcileNow(started, requests)
    case SinkWrite(slot) => [Alone(SinkBuffer(slot))]
    case SinkDropped(freed) => DropSinks(freed)
    case SuperviseChild(relaunches) => Times(1 + 2 * relaunches, [Alone(Child)])
  }

  /** A thread runs calls one after the other. */
  function Program(calls: seq<Call>): seq<Guard> {
    if calls == [] then [] else Guards(calls[0]) + Program(calls[1..])
  }

  /** What the threads that others join do; any other thread does anything. */
  predicate MayRun(worker: Option<Worker>, call: Call) {
    match worker
    case None => true
    case Some(Decoder(_)) => call.SinkWrite? || call.SinkDropped?
    case Some(Device(_)) => call.SinkWrite?
    case Some(PumpOf(_)) =>
      call.SessionBegan? || call.SinkAtHand? || call.SinkForSource? || call.SinkWrite? || call.SinkDropped?
        || call.SessionEnded?
    case Some(MetaOf(_)) => call.TrackUpdate? || call.ArtUpdate?
    case Some(Monitor(_)) => call.SuperviseChild?
  }

  /** What is locked as long as the thread runs. */
  function Floor(worker: Option<Worker>): int {
    if worker.None? then -1 else Rank(Life(worker.value))
  }

  // ----- The order --------------------------------------------------------------------------------

  lemma {:induction false} OrderedConcat(a: seq<Guard>, b: seq<Guard>, above: int)
    requires Ordered(a, above) && Ordered(b, above)
    ensures Ordered(a + b, above)
  {
  }

  lemma {:induction false} OrderedIf(b: bool, guards: seq<Guard>, above: int)
    requires b ==> Ordered(guards, above)
    ensures Ordered(If(b, guards), above)
  {
  }

  lemma {:induction false} OrderedOne(l: Lock, inside: seq<Guard>, above: int)
    requires Rank(l) > above && Ordered(inside, Rank(l))
    ensures Ordered([Guard(l, inside)], above)
  {
  }

  lemma {:induction false} OrderedLower(guards: seq<Guard>, above: int, lower: int)
    requires Ordered(guards, above) && lower <= above
    ensures Ordered(guards, lower)
  {
  }

  lemma {:induction false} TimesOrdered(n: nat, guards: seq<Guard>, above: int)
    requires Ordered(guards, above)
    ensures Ordered(Times(n, guards), above)
  {
    if n == 0 {
    } else {
      TimesOrdered(n - 1, guards, above);
      OrderedConcat(guards, Times(n - 1, guards), above);
    }
  }

  lemma {:induction false} DropSinksOrdered(freed: seq<nat>)
    ensures Ordered(DropSinks(freed), 4)
  {
    if freed == [] {
    } else {
      DropSinksOrdered(freed[1..]);
      OrderedConcat([Join(Device(freed[0]))], DropSinks(freed[1..]), 4);
    }
  }

  lemma {:induction false} ReplacingOrdered(l: Lock, freed: seq<nat>)
    requires 2 < Rank(l) <= 4
    ensures Ordered([Replacing(l, freed)], 2)
  {
    DropSinksOrdered(freed);
    OrderedLower(DropSinks(freed), 4, Rank(l));
  }

  lemma {:induction false} DropSupervisorOrdered(monitor: nat, above: int)
    requires above <= 3
    ensures Ordered(DropSupervisor(monitor), above)
  {
  }

  lemma {:induction false} ReconcileNowOrdered(started: bool, requests: nat)
    ensures Ordered(ReconcileNow(started, requests), 2)
  {
    OrderedOne(Desired, [Alone(Pool)], 2);
    TimesOrdered(requests, [Alone(Control)], 2);
    OrderedConcat([Guard(Desired, [Alone(Pool)])], Times(requests, [Alone(Control)]), 2);
  }

  lemma {:induction false} ListedOrdered(n: nat)
    ensures Ordered(Listed(n), 2)
  {
    TimesOrdered(n, [Alone(Registry)], 2);
  }

  lemma {:induction false} ZoneSinkOrdered(path: SinkPath)
    ensures Ordered(ZoneSink(path), 2)
  {
    match path {
      case Granted(listed, requests) => GrantedOrdered(listed, requests);
      case NoConnection(listed, monitor) => NoConnectionOrdered(listed, monitor);
      case NoDongles(listed) => ListedOrdered(listed);
      case NoServer(listed) =>
        ListedOrdered(listed);
        OrderedConcat(Listed(listed), [Alone(Started)], 2);
      case PoolFull(listed) =>
        ListedOrdered(listed);
        OrderedConcat(Listed(listed), [Alone(Started), Alone(Pool)], 2);
      case DeviceOpened(freed) =>
        ReplacingOrdered(Registry, freed);
        OrderedConcat([Alone(Registry)], [Replacing(Registry, freed)], 2);
      case _ =>
    }
  }

  lemma {:induction false} NoConnectionOrdered(listed: nat, monitor: nat)
    ensures Ordered(ZoneSink(NoConnection(listed, monitor)), 2)
  {
    ListedOrdered(listed);
    DropSupervisorOrdered(monitor, 3);
    OrderedOne(Started, DropSupervisor(monitor), 2);
    OrderedConcat(Listed(listed), [Guard(Started, DropSupervisor(monitor))], 2);
  }

  lemma {:induction false} GrantedOrdered(listed: nat, requests: nat)
    ensures Ordered(ZoneSink(Granted(listed, requests)), 2)
  {
    ListedOrdered(listed);
    ReconcileNowOrdered(true, requests);
    OrderedConcat(Listed(listed), [Alone(Started), Alone(Pool), Alone(Desired)], 2);
    OrderedConcat(Listed(listed) + [Alone(Started), Alone(Pool), Alone(Desired)], ReconcileNow(true, requests), 2);
  }

  lemma {:induction false} DetachOrdered(driver: Driver)
    ensures Ordered(Detach(driver), 2)
  {
    if driver.Source? {
      ReplacingOrdered(Sources, driver.freed);
    }
  }

  lemma {:induction false} TearDownOrdered(r: Receiver)
    ensures Ordered(TearDown(r), 1)
  {
    DropSupervisorOrdered(r.monitor, 2);
    OrderedOne(Supervisor, DropSupervisor(r.monitor), 1);
    var readers := [Alone(Pump), Join(PumpOf(r.id)), Alone(Meta), Join(MetaOf(r.id))];
    OrderedConcat([Guard(Supervisor, DropSupervisor(r.monitor))], readers, 1);
  }

  lemma {:induction false} TearDownAllOrdered(receivers: seq<Receiver>)
    ensures Ordered(TearDownAll(receivers), 1)
  {
    if receivers == [] {
    } else {
      TearDownOrdered(receivers[0]);
      TearDownAllOrdered(receivers[1..]);
      OrderedConcat(TearDown(receivers[0]), TearDownAll(receivers[1..]), 1);
    }
  }

  lemma {:induction false} AppliedOrdered(change: Change)
    ensures Ordered(Applied(change), 1)
  {
    match change {
      case Gone(receiver) => TearDownOrdered(receiver);
      case Renamed(oldMonitor) => DropSupervisorOrdered(oldMonitor, 2);
      case NotCreated(_, receiver) => DropSupervisorOrdered(receiver.monitor, 1);
    }
  }

  lemma {:induction false} AllAppliedOrdered(changes: seq<Change>)
    ensures Ordered(AllApplied(changes), 1)
  {
    if changes == [] {
    } else {
      AppliedOrdered(changes[0]);
      AllAppliedOrdered(changes[1..]);
      OrderedConcat(Applied(changes[0]), AllApplied(changes[1..]), 1);
    }
  }

  lemma {:induction false} ReconcileAirplayOrdered(freed: seq<nat>, manager: Manager)
    ensures Ordered(ReconcileAirplay(freed, manager), -1)
  {
    if manager.On? {
      AllAppliedOrdered(manager.changes);
      OrderedOne(Receivers, AllApplied(manager.changes), -1);
      TearDownAllOrdered(manager.last);
      OrderedLower(TearDownAll(manager.last), 1, -1);
      OrderedConcat([Guard(Receivers, AllApplied(manager.changes))], TearDownAll(manager.last), -1);
    }
    ReplacingOrdered(Sources, freed);
    assert Ordered([Alone(Zones), Replacing(Sources, freed), Alone(AirplayHandle)], -1);
    OrderedConcat([Alone(Zones), Replacing(Sources, freed), Alone(AirplayHandle)], Managed(manager), -1);
  }

  lemma {:induction false} InstallingOrdered(there: bool, driver: Driver, freed: seq<nat>)
    ensures Ordered(Installing(there, driver, freed), 2)
  {
    DetachOrdered(driver);
    ReplacingOrdered(Zones, freed);
    OrderedConcat(Detach(driver), [Replacing(Zones, freed)], 2);
  }

  lemma {:induction false} MovingOrdered(freed: seq<nat>, left: bool, driver: Driver)
    ensures Ordered(Moving(freed, left, driver), 2)
  {
    ReplacingOrdered(Sources, freed);
    DetachOrdered(driver);
    OrderedConcat(Detach(driver), [Alone(Zones)], 2);
    var before := [Replacing(Sources, freed), Alone(Zones)] + If(left, RELEASE_ZONE) + [Alone(Zones)];
    assert Ordered(before, 2);
    OrderedConcat(before, Detach(driver), 2);
    OrderedConcat(before + Detach(driver), [Alone(Zones)], 2);
  }

  /** What follows the resolution of a sink comes after it. */
  lemma {:induction false} ResolvedOrdered(path: SinkPath, next: seq<Guard>)
    requires Ordered(next, 2)
    ensures Ordered(ZoneSink(path) + If(Grants(path), next), 2)
  {
    ZoneSinkOrdered(path);
    OrderedIf(Grants(path), next, 2);
    OrderedConcat(ZoneSink(path), If(Grants(path), next), 2);
  }

  lemma {:induction false} PlayOrdered(call: Call)
    requires call.Play?
    ensures Ordered(Guards(call), 2)
  {
    var next := Installing(call.there, call.driver, call.freed);
    InstallingOrdered(call.there, call.driver, call.freed);
    ResolvedOrdered(call.path, next);
    OrderedIf(call.known, ZoneSink(call.path) + If(Grants(call.path), next), 2);
    OrderedConcat([Alone(Zones)], If(call.known, ZoneSink(call.path) + If(Grants(call.path), next)), 2);
  }

  lemma {:induction false} RerouteOrdered(call: Call)
    requires call.Reroute?
    ensures Ordered(Guards(call), 2)
  {
    var next := Moving(call.freed, call.left, call.driver);
    MovingOrdered(call.freed, call.left, call.driver);
    ResolvedOrdered(call.path, next);
    var resolved := If(call.known, ZoneSink(call.path) + If(Grants(call.path), next));
    OrderedIf(call.known, ZoneSink(call.path) + If(Grants(call.path), next), 2);
    OrderedConcat([Alone(Zones)], resolved, 2);
    OrderedIf(call.moves, [Alone(Zones)] + resolved, 2);
    OrderedConcat([Alone(Sources)], If(call.moves, [Alone(Zones)] + resolved), 2);
  }

  lemma {:induction false} SinkForSourceOrdered(call: Call)
    requires call.SinkForSource?
    ensures Ordered(Guards(call), 2)
  {
    var next := [Replacing(Sources, call.freed)];
    ReplacingOrdered(Sources, call.freed);
    ResolvedOrdered(call.path, next);
    OrderedIf(call.known, ZoneSink(call.path) + If(Grants(call.path), next), 2);
    OrderedOne(Sources, [Alone(Zones)], 2);
    OrderedConcat([Guard(Sources, [Alone(Zones)])],
                  If(call.known, ZoneSink(call.path) + If(Grants(call.path), next)), 2);
  }

  lemma {:induction false} StopOrdered(call: Call)
    requires call.Stop?
    ensures Ordered(Guards(call), 2)
  {
    DetachOrdered(call.driver);
    OrderedConcat([Alone(Zones)], Detach(call.driver), 2);
    OrderedConcat([Alone(Zones)] + Detach(call.driver), RELEASE_ZONE, 2);
  }

  lemma {:induction false} SessionBeganOrdered(call: Call)
    requires call.SessionBegan?
    ensures Ordered(Guards(call), 2)
  {
    ReplacingOrdered(Sources, call.freed);
    DetachOrdered(call.driver);
    OrderedConcat([Alone(ArtCache), Alone(Zones)], Detach(call.driver), 2);
    OrderedIf(call.known, [Alone(ArtCache), Alone(Zones)] + Detach(call.driver), 2);
    OrderedConcat([Replacing(Sources, call.freed)],
                  If(call.known, [Alone(ArtCache), Alone(Zones)] + Detach(call.driver)), 2);
  }

  lemma {:induction false} SessionEndedOrdered(call: Call)
    requires call.SessionEnded?
    ensures Ordered(Guards(call), 2)
  {
    ReplacingOrdered(Sources, call.freed);
    var cleared := [Alone(Zones)] + RELEASE_ZONE + [Alone(ArtCache)];
    OrderedConcat([Alone(Zones)], RELEASE_ZONE, 2);
    OrderedConcat([Alone(Zones)] + RELEASE_ZONE, [Alone(ArtCache)], 2);
    OrderedIf(call.known, cleared, 2);
    OrderedConcat([Replacing(Sources, call.freed)], If(call.known, cleared), 2);
  }

  lemma {:induction false} DeleteZoneOrdered(call: Call)
    requires call.DeleteZone?
    ensures Ordered(Guards(call), -1)
  {
    var reconciled := ReconcileAirplay(call.freed, call.manager);
    ReconcileAirplayOrdered(call.freed, call.manager);
    DetachOrdered(call.driver);
    OrderedLower(Detach(call.driver), 2, -1);
    OrderedConcat(Detach(call.driver), RELEASE_ZONE, -1);
    OrderedConcat(Detach(call.driver) + RELEASE_ZONE, reconciled, -1);
    OrderedIf(call.known, Detach(call.driver) + RELEASE_ZONE + reconciled, -1);
    OrderedConcat([Alone(Zones)], If(call.known, Detach(call.driver) + RELEASE_ZONE + reconciled), -1);
  }

  lemma {:induction false} CreateZoneOrdered(call: Call)
    requires call.CreateZone?
    ensures Ordered(Guards(call), -1)
  {
    ReconcileAirplayOrdered(call.freed, call.manager);
    OrderedConcat([Alone(Zones)], ReconcileAirplay(call.freed, call.manager), -1);
  }

  lemma {:induction false} RenameZoneOrdered(call: Call)
    requires call.RenameZone?
    ensures Ordered(Guards(call), -1)
  {
    ReconcileAirplayOrdered(call.freed, call.manager);
    OrderedIf(call.known, ReconcileAirplay(call.freed, call.manager), -1);
    OrderedConcat([Alone(Zones)], If(call.known, ReconcileAirplay(call.freed, call.manager)), -1);
  }

  lemma {:induction false} RegisteringOrdered(device: seq<nat>)
    ensures Ordered([Replacing(Registry, device)] + [Alone(Zones)], -1)
  {
    ReplacingOrdered(Registry, device);
    OrderedLower([Replacing(Registry, device)], 2, -1);
    OrderedConcat([Replacing(Registry, device)], [Alone(Zones)], -1);
  }

  lemma {:induction false} RegisterDongleOrdered(call: Call)
    requires call.RegisterDongle?
    ensures Ordered(Guards(call), -1)
  {
    var registered, reconciled :=
      [Replacing(Registry, call.device)] + [Alone(Zones)], ReconcileAirplay(call.freed, call.manager);
    RegisteringOrdered(call.device);
    ReconcileAirplayOrdered(call.freed, call.manager);
    ReconcileNowOrdered(call.started, call.requests);
    OrderedLower(ReconcileNow(call.started, call.requests), 2, -1);
    OrderedConcat(registered, reconciled, -1);
    OrderedConcat(registered + reconciled, ReconcileNow(call.started, call.requests), -1);
  }

  lemma {:induction false} EnableAirplayOrdered(call: Call)
    requires call.EnableAirplay?
    ensures Ordered(Guards(call), -1)
  {
    ReconcileAirplayOrdered(call.freed, call.manager);
    TearDownAllOrdered(call.replaced);
    OrderedLower(TearDownAll(call.replaced), 1, 0);
    OrderedOne(AirplayHandle, TearDownAll(call.replaced), -1);
    OrderedConcat([Guard(AirplayHandle, TearDownAll(call.replaced))], ReconcileAirplay(call.freed, call.manager), -1);
  }

  lemma {:induction false} SetZoneOutputsOrdered(call: Call)
    requires call.SetZoneOutputs?
    ensures Ordered(Guards(call), 2)
  {
    ReconcileNowOrdered(call.started, call.requests);
    ListedOrdered(call.checked);
    var checked := If(call.valid, [Alone(Zones)] + If(call.known, ReconcileNow(call.started, call.requests)));
    OrderedIf(call.known, ReconcileNow(call.started, call.requests), 2);
    OrderedConcat([Alone(Zones)], If(call.known, ReconcileNow(call.started, call.requests)), 2);
    OrderedConcat(Listed(call.checked), checked, 2);
  }

  /** The lowest rank a call stays above. */
  function Below(call: Call): (above: int) {
    match call
    case SuperviseChild(_) => 5
    case SinkWrite(_) => 5
    case SinkDropped(_) => 4
    case CreateZone(_, _) => -1
    case DeleteZone(_, _, _, _) => -1
    case RenameZone(_, _, _) => -1
    case RegisterDongle(_, _, _, _, _) => -1
    case EnableAirplay(_, _, _) => -1
    case _ => 2
  }

  /** Calls that take one or two guards, one after the other. */
  predicate IsShort(call: Call) {
    call.SinkAtHand? || call.TrackUpdate? || call.ArtUpdate? || call.GetArt? || call.ListSources? || call.ListZones?
    || call.ListTargets? || call.DongleOffline?
  }

  lemma {:induction false} ShortCallsOrdered(call: Call)
    requires IsShort(call)
    ensures Ordered(Guards(call), 2)
  {
    if call.ArtUpdate? {
      OrderedIf(call.known, [Alone(ArtCache)], 2);
      OrderedConcat([Alone(Sources)], If(call.known, [Alone(ArtCache)]), 2);
    }
  }

  lemma {:induction false} GuardsOrdered(call: Call)
    ensures Ordered(Guards(call), Below(call))
  {
    match call {
      case Play(_, _, _, _, _) => PlayOrdered(call);
      case Reroute(_, _, _, _, _, _) => RerouteOrdered(call);
      case SinkForSource(_, _, _) => SinkForSourceOrdered(call);
      case Stop(_) => StopOrdered(call);
      case SessionBegan(_, _, _) => SessionBeganOrdered(call);
      case SessionEnded(_, _) => SessionEndedOrdered(call);
      case CreateZone(_, _) => CreateZoneOrdered(call);
      case RenameZone(_, _, _) => RenameZoneOrdered(call);
      case DeleteZone(_, _, _, _) => DeleteZoneOrdered(call);
      case RegisterDongle(_, _, _, _, _) => RegisterDongleOrdered(call);
      case EnableAirplay(_, _, _) => EnableAirplayOrdered(call);
      case SetZoneOutputs(_, _, _, _, _) => SetZoneOutputsOrdered(call);
      case SnapcastNotify(started, requests) => ReconcileNowOrdered(started, requests);
      case SinkDropped(freed) => DropSinksOrdered(freed);
      case SuperviseChild(relaunches) => TimesOrdered(1 + 2 * relaunches, [Alone(Child)], 5);
      case SinkWrite(_) =>
      case _ => ShortCallsOrdered(call);
    }
  }

  /**
   Whatever branches a call takes and however often it loops, its guards and joins nest in rank order; and when a
   thread that others join makes it, they do so above that thread's own life.
   */
  lemma {:induction false} CallsAreOrdered(worker: Option<Worker>, call: Call)
    requires MayRun(worker, call)
    ensures Ordered(Guards(call), Floor(worker))
  {
    GuardsOrdered(call);
    OrderedLower(Guards(call), Below(call), Floor(worker));
  }

  lemma {:induction false} ProgramsAreOrdered(worker: Option<Worker>, calls: seq<Call>)
    requires forall call :: call in calls ==> MayRun(worker, call)
    ensures Ordered(Program(calls), Floor(worker))
  {
    if calls == [] {
    } else {
      CallsAreOrdered(worker, calls[0]);
      ProgramsAreOrdered(worker, calls[1..]);
      OrderedConcat(Guards(calls[0]), Program(calls[1..]), Floor(worker));
    }
  }

  // ----- Threads ----------------------------------------------------------------------------------

  /** What the thread still has to do, and the locks it holds. */
  datatype Thread = Thread(rest: seq<Action>, held: set<Lock>)

  /** Acquires above every lock held, releases only what is held, and holds nothing at the end. */
  predicate Disciplined(actions: seq<Action>, held: set<Lock>) {
    if actions == [] then held == {}
    else
      match actions[0]
      case Acquire(l) => (forall h :: h in held ==> Rank(h) < Rank(l)) && Disciplined(actions[1..], held + {l})
      case Release(l) => l in held && Disciplined(actions[1..], held - {l})
  }

  /** Guards nested in rank order give a disciplined trace, whatever disciplined trace follows. */
  lemma {:induction false} OrderedIsDisciplined(guards: seq<Guard>, above: int, held: set<Lock>, rest: seq<Action>)
    requires Ordered(guards, above)
    requires forall h :: h in held ==> Rank(h) <= above
    requires Disciplined(rest, held)
    ensures Disciplined(Flatten(guards) + rest, held)
    decreases guards
  {
    if guards == [] {
      assert Flatten(guards) + rest == rest;
    } else {
      var l, inside := guards[0].lock, guards[0].inside;
      assert guards[0] in guards;
      assert Ordered(guards[1..], above) by {
        assert forall g :: g in guards[1..] ==> g in guards;
      }
      var after := Flatten(guards[1..]) + rest;
      OrderedIsDisciplined(guards[1..], above, held, rest);
      ReleaseFirst(l, after, held);
      OrderedIsDisciplined(inside, Rank(l), held + {l}, [Release(l)] + after);
      AcquireFirst(l, Flatten(inside) + ([Release(l)] + after), held);
      FlattenFirst(guards, rest);
    }
  }

  lemma {:induction false} FlattenFirst(guards: seq<Guard>, rest: seq<Action>)
    requires guards != []
    ensures Flatten(guards) + rest ==
            [Acquire(guards[0].lock)]
              + (Flatten(guards[0].inside) + ([Release(guards[0].lock)] + (Flatten(guards[1..]) + rest)))
  {
  }

  lemma {:induction false} ReleaseFirst(l: Lock, after: seq<Action>, held: set<Lock>)
    requires l !in held && Disciplined(after, held)
    ensures Disciplined([Release(l)] + after, held + {l})
  {
    assert ([Release(l)] + after)[1..] == after;
    assert held + {l} - {l} == held;
  }

  lemma {:induction false} AcquireFirst(l: Lock, after: seq<Action>, held: set<Lock>)
    requires forall h :: h in held ==> Rank(h) < Rank(l)
    requires Disciplined(after, held + {l})
    ensures Disciplined([Acquire(l)] + after, held)
  {
    assert ([Acquire(l)] + after)[1..] == after;
  }

  /** A thread: which of those that others join it is, if any, and the calls it makes. */
  datatype Task = Task(worker: Option<Worker>, calls: seq<Call>)

  predicate Proper(tasks: seq<Task>) {
    && (forall i :: 0 <= i < |tasks| ==> forall call :: call in tasks[i].calls ==> MayRun(tasks[i].worker, call))
    && forall i, j :: 0 <= i < j < |tasks| && tasks[i].worker.Some? ==> tasks[i].worker != tasks[j].worker
  }

  /** A thread that others join holds its life from the start and lets go of it at the end. */
  function Begun(task: Task): (t: Thread) {
    var work := Flatten(Program(task.calls));
    match task.worker
    case None => Thread(work, {})
    case Some(worker) => Thread(work + [Release(Life(worker))], {Life(worker)})
  }

  function Spawned(tasks: seq<Task>): (threads: seq<Thread>)
    ensures |threads| == |tasks| && forall i :: 0 <= i < |tasks| ==> threads[i] == Begun(tasks[i])
  {
    seq(|tasks|, i requires 0 <= i < |tasks| => Begun(tasks[i]))
  }

  /** A mutex is taken only when no thread, its own included, holds it. */
  predicate Enabled(threads: seq<Thread>, i: nat)
    requires i < |threads|
  {
    && threads[i].rest != []
    && (threads[i].rest[0].Acquire? ==> forall j :: 0 <= j < |threads| ==> threads[i].rest[0].lock !in threads[j].held)
  }

  function Advanced(t: Thread): (t': Thread)
    requires t.rest != []
  {
    match t.rest[0]
    case Acquire(l) => Thread(t.rest[1..], t.held + {l})
    case Release(l) => Thread(t.rest[1..], t.held - {l})
  }

  /** The states a schedule goes through: each entry names the thread that moves. */
  predicate IsSchedule(schedule: seq<nat>, states: seq<seq<Thread>>) {
    && |states| == |schedule| + 1
    && forall k :: 0 <= k < |schedule| ==> Moves(states[k], schedule[k], states[k + 1])
  }

  predicate Moves(threads: seq<Thread>, i: nat, threads': seq<Thread>) {
    i < |threads| && Enabled(threads, i) && threads' == threads[i := Advanced(threads[i])]
  }

  /** No two threads hold the same lock, and what each has left to do is disciplined. */
  ghost predicate Sound(threads: seq<Thread>) {
    && (forall i :: 0 <= i < |threads| ==> Disciplined(threads[i].rest, threads[i].held))
    && (forall i, j :: 0 <= i < j < |threads| ==> threads[i].held !! threads[j].held)
  }

  function Remaining(threads: seq<Thread>): nat {
    if threads == [] then 0 else |threads[0].rest| + Remaining(threads[1..])
  }

  lemma {:induction false} BegunIsDisciplined(task: Task)
    requires forall call :: call in task.calls ==> MayRun(task.worker, call)
    ensures Disciplined(Begun(task).rest, Begun(task).held)
  {
    var guards := Program(task.calls);
    ProgramsAreOrdered(task.worker, task.calls);
    match task.worker {
      case None =>
        OrderedIsDisciplined(guards, -1, {}, []);
        assert Flatten(guards) + [] == Flatten(guards);
      case Some(worker) =>
        ReleaseFirst(Life(worker), [], {});
        assert [Release(Life(worker))] + [] == [Release(Life(worker))] && {} + {Life(worker)} == {Life(worker)};
        OrderedIsDisciplined(guards, Floor(task.worker), {Life(worker)}, [Release(Life(worker))]);
    }
  }

  lemma {:induction false} StartedIsSound(tasks: seq<Task>)
    requires Proper(tasks)
    ensures Sound(Spawned(tasks))
  {
    forall i | 0 <= i < |tasks| ensures Disciplined(Spawned(tasks)[i].rest, Spawned(tasks)[i].held) {
      BegunIsDisciplined(tasks[i]);
    }
  }

  lemma {:induction false} MoveKeepsSound(threads: seq<Thread>, i: nat, threads': seq<Thread>)
    requires Sound(threads) && Moves(threads, i, threads')
    ensures Sound(threads')
  {
    forall a, b | 0 <= a < b < |threads'| ensures threads'[a].held !! threads'[b].held {
      assert threads[a].held !! threads[b].held;
      var next := threads[i].rest[0];
      if next.Acquire? {
        assert next.lock !in threads[a].held && next.lock !in threads[b].held;
      }
    }
  }

  lemma {:induction false} MoveUsesAnAction(threads: seq<Thread>, i: nat, threads': seq<Thread>)
    requires Moves(threads, i, threads')
    ensures Remaining(threads') == Remaining(threads) - 1
  {
    if i > 0 {
      var tail := threads[1..];
      assert forall j :: 0 <= j < |tail| ==> tail[j] == threads[j + 1];
      assert Enabled(tail, i - 1);
      assert threads'[1..] == tail[i - 1 := Advanced(tail[i - 1])];
      MoveUsesAnAction(tail, i - 1, threads'[1..]);
    } else {
      assert threads'[1..] == threads[1..];
    }
  }

  /** Thread `h` holds what thread `i` waits for. */
  predicate Holds(threads: seq<Thread>, h: nat, i: nat)
    requires i < |threads|
  {
    h < |threads| && threads[i].rest != [] && threads[i].rest[0].Acquire? && threads[i].rest[0].lock in threads[h].held
  }

  /** Following who holds what is waited for leads from thread `i` to thread `j` in `n` steps. */
  ghost predicate LeadsTo(threads: seq<Thread>, i: nat, j: nat, n: nat)
    requires i < |threads|
    decreases n
  {
    if n == 0 then i == j else exists h: nat :: Holds(threads, h, i) && LeadsTo(threads, h, j, n - 1)
  }

  /** An unfinished thread can move, or what it waits for leads to one that can, with no way round in a circle. */
  ghost predicate HasWay(threads: seq<Thread>, i: nat)
    requires i < |threads|
  {
    exists j: nat, n: nat :: n <= RANKS && LeadsTo(threads, i, j, n) && j < |threads| && Enabled(threads, j)
  }

  function Distance(t: Thread): nat
    requires t.rest != []
  {
    if t.rest[0].Acquire? then RANKS - Rank(t.rest[0].lock) else 0
  }

  lemma {:induction false} Chase(threads: seq<Thread>, i: nat) returns (j: nat, n: nat)
    requires Sound(threads) && i < |threads| && threads[i].rest != []
    ensures j < |threads| && Enabled(threads, j) && n <= Distance(threads[i]) && LeadsTo(threads, i, j, n)
    decreases Distance(threads[i])
  {
    if Enabled(threads, i) {
      return i, 0;
    }
    var wanted := threads[i].rest[0].lock;
    var holder: nat :| holder < |threads| && wanted in threads[holder].held;
    assert Disciplined(threads[i].rest, threads[i].held);
    assert Disciplined(threads[holder].rest, threads[holder].held);
    assert Holds(threads, holder, i);
    if threads[holder].rest[0].Release? {
      j, n := holder, 1;
      assert LeadsTo(threads, holder, j, 0);
    } else {
      j, n := Chase(threads, holder);
      n := n + 1;
      assert LeadsTo(threads, holder, j, n - 1);
    }
  }

  lemma {:induction false} ScheduleKeepsSound(schedule: seq<nat>, states: seq<seq<Thread>>, n: nat)
    requires IsSchedule(schedule, states) && Sound(states[0]) && n <= |schedule|
    ensures Sound(states[n]) && |states[n]| == |states[0]|
    ensures Remaining(states[n]) == Remaining(states[0]) - n
  {
    if n == 0 {
    } else {
      ScheduleKeepsSound(schedule, states, n - 1);
      assert Moves(states[n - 1], schedule[n - 1], states[n]);
      MoveKeepsSound(states[n - 1], schedule[n - 1], states[n]);
      MoveUsesAnAction(states[n - 1], schedule[n - 1], states[n]);
    }
  }

  /**
   Deadlock freedom: any threads, each running any calls it may, after any schedule whatever. Every thread that has
   not ended can move or waits, through at most as many holders as there are ranks, for one that can; one that has ended
   holds nothing; and a schedule is no longer than the work.
   */
  lemma {:induction false} NeverStuck(tasks: seq<Task>, schedule: seq<nat>, states: seq<seq<Thread>>)
    requires Proper(tasks) && IsSchedule(schedule, states) && states[0] == Spawned(tasks)
    ensures var last := states[|schedule|];
            forall i: nat :: i < |last| ==> if last[i].rest == [] then last[i].held == {} else HasWay(last, i)
    ensures |schedule| <= Remaining(Spawned(tasks))
  {
    StartedIsSound(tasks);
    ScheduleKeepsSound(schedule, states, |schedule|);
    var last := states[|schedule|];
    forall i: nat | i < |last| ensures if last[i].rest == [] then last[i].held == {} else HasWay(last, i) {
      if last[i].rest == [] {
        assert Disciplined(last[i].rest, last[i].held);
      } else {
        var j, n := Chase(last, i);
      }
    }
  }
}
