# Verified model of a multi-room audio hub

A Dafny model of the hub's control and data plane, with proofs. The hub decodes web radio and receives
AirPlay sessions, and plays both in zones; a zone is the hub's own device or a set of Snapcast clients.

- **Grouping** (`StreamPool`, `SnapcastControl`, `SnapcastReconcile`, `SnapcastConvergence`, `SnapcastOnePass`,
  `SnapcastOverlap`, `SnapcastRouter`, `RouterThreads`): the stream pool, and the reconciler that issues calls from
  one stale status snapshot against a server whose groups change underneath it; `SnapcastOverlap` is about passes
  that run at the same time.
- **Routing** (`EngineState`, `EngineParts`, `EngineInvariants`, `EngineStreams`, `EngineMembers`, `EngineAnswers`,
  `EngineDirectory`, `EngineRouting`, `EngineRuns`, `EngineRaces`, `EngineSections`, `EngineLeaks`, `Engine`): zones,
  sources, drivers, decode pipelines, streams and album art. `EngineState` gives each public method as one atomic step;
  `EngineParts` says what is true between calls, in four parts; `EngineInvariants` and `EngineStreams` prove for each
  part which calls keep it, exactly, and over which runs, and `EngineMembers` for the clients a playing zone is given.
  `EngineAnswers` says which error or sink is answered exactly when; `EngineDirectory`, `EngineRouting` and `EngineRuns`
  tell from the calls of a run alone what is listed, who holds a stream and what is shown. `EngineRaces` is about
  the lock sections inside a call, `EngineSections` about the drivers in all interleavings of the sections of any
  number of calls, and `EngineLeaks` says which calls must not overlap. The class `Engine` updates its maps in place
  and is proved against the steps and the parts.
- **Threads** (`LockTraces`, `Supervisors`): every call as the tree of mutex guards and joins it makes, and that any
  number of threads make progress; and a supervised child process, its monitor, and the drop that ends both.
- **Streams** (`Framing`, `Utf8`, `Base64`, `AirplayMeta`, `AirplayMetaPrinting`, `AirplayMetaSpelling`, `Pcm`,
  `Pump`, `PumpRouting`, `Output`): the metadata parser, the PCM pump, where each frame of a session goes under any
  routing, and the device buffer. `Framing` proves once that cutting a stream into items does not depend on how it
  arrives; metadata items, PCM frames and resampler chunks are three instances.
- **Receivers** (`AirplayManager`): slots, ports and device ids of the AirPlay receivers.

`Wrappers`, `Sequences` and `Reachability` hold shared types, sequence facts and steps of a relation.
`dafny verify dfyconfig.toml` checks all of it.

## How to read it

- Every lemma carries `{:induction false}`, so each proof is exactly its body.
- Ids and displayed texts are compared only for equality, and are numbers. Bytes are integers below 256, text in
  the metadata parser is its UTF-8 bytes, and samples are real numbers: the rounding of f32 is not modelled.
- One thing is assumed of foreign code, as `ClientsSet` in `SnapcastControl.dfy`: snapserver's
  `Group.SetClients` makes a group exactly the given clients, each client evicted from it gets a fresh group of
  its own, and groups left empty disappear. The class `Snapserver` behaves so, and nothing is assumed about
  the ids or streams of fresh groups.
- Outcomes of the outside world are parameters: whether the device opens, whether snapserver starts, which replies its
  connection still carries, which factory calls succeed, where a session is routed at each read, for which sinks
  a resampler can be built.

## Where the code and its comments part

- One `reconcile` pass is not enough (src/audio/snapcast_router.rs:94-98): a later entry can take apart what
  an earlier one built. `OnePassCanFail` is a concrete case; `OnePassSettlesExactly` says for zones of any size when
  every pass the server may make of it settles them; `PassesConvergeExactly` proves that two passes always do, exactly
  when no client is wanted twice.
- A failed pass "will retry on next trigger" (src/audio/snapcast_router.rs:192), but the connection is opened once:
  when it no longer answers no pass does anything any more, which `ReconcileNow` states. `CutPassIsMadeGood` shows
  that a pass broken off midway would otherwise do no lasting harm.
- `reconcile_now` holds no lock across a pass and every server update starts one
  (src/audio/snapcast_router.rs:180-194), so passes overlap. Overlapping passes that read the same status are never
  refused (`OneReadingIsNeverRefused`), but one that read between two calls of another can be
  (`OverlappedCallIsRefused`). Whatever overlaps, no client is lost and two passes left alone settle the server
  (`OverlapIsMadeGood`).
- A dongle that reconnects should land on its zone's stream if that plays (src/audio/engine.rs:371-373). But
  the router's clients of a zone are written only when a sink is granted, so a dongle that was offline then is in no
  pass until the next grant: `ReconnectedDongleIsLeftOut`, with `RunKeepsMembersExactly` for all runs.
- `session_ended` frees its destination's stream whoever drives the zone by then; its comment
  (src/audio/engine.rs:685-686) describes a guarded release. `SessionEndedKeepsExactly` gives the exact
  condition, `EndedSessionSharesAStream` a run that ends with two pipelines in one stream. Only the ownership of
  streams is lost: drivers, homes and pipelines stay right in such runs (`RunKeepsDriversExactly`,
  `RunsStayTidy`, `RunKeepsPipelinesExactly`).
- Deleting the home zone of a source that is rerouted elsewhere leaves a driver naming a source that is gone:
  `DeleteZoneKeepsExactly` says exactly when, `DeletedHomeLeavesADriver` is such a run. Streams are still right in it
  (`StreamsSurviveADeletedHome`), because `delete_zone` never takes a stream from a writer (`DeleteZoneKeepsOwned`).
- `play` says there is at most one active decoder for a zone, but two racing plays leak one:
  `RacingPlaysLeakAPipeline`, with `InstallKeepsExactly` for the exact condition.
- In every interleaving a pipeline runs in one zone at most and is stopped once at most (`StoppedOnceAndNowhere`); one
  leaks exactly when a section overwrites it (`LeaksExactly`). Calls about to begin can leak one exactly when a `play`
  and another `play` or a `reroute` are for one zone, or a zone is created again while it plays: `CallsLeakExactly`.
- `sink_for_source` caches a sink without looking at the destination again: `CacheKeepsExactly`. After a reroute in
  between the source writes into a freed stream (`StaleSinkIsCached`), or plays on the hub although it drives a
  dongle's zone (`StaleDeviceIsCached`, and `SessionStaysOnTheHub` from a new engine).
- `session_began` blanks a source and evicts its art in two sections. Art that arrives in between is shown and cannot
  be fetched: `EvictionKeepsArtExactly` and `ArtBetweenSectionsIsLost`.
- Two router calls on one zone can cross and lose its routing (`CrossedCallsLoseTheRouting`), exactly when a request
  that can be granted and a release are in flight together: `ZonesStayInStepExactly`.
- Dropping a supervisor is meant to kill the child, so that the monitor's wait returns
  (src/audio/snapcast.rs:238-239). But the monitor has taken the child out of the slot, so nothing is killed and
  the drop waits until the process ends by itself: `DropKillsExactly`, and `DropWaitsForALiveChild` for the usual case.
  It also hangs when it falls between the monitor's last look at the stop flag and the launch of another child
  (src/audio/snapcast.rs:273-280), which then runs unkilled: `DropDuringALaunch`. `DropSurelyReturnsExactly` is the
  condition that shuts out both.
- Frames pending in the resampler when a session is rerouted to a sink of another format are lost, fewer than 1024;
  rerouted to another sink of the same format they come out there. `RoutedFramesArrive` gives every frame its place.
- A byte that can never become UTF-8 stalls the metadata reader until the pipe is opened again, and nothing else
  does: `StallsExactlyWhenBroken`.
- Repeating a receiver pass is free only if no zone is wanted under two names: `RepeatingIsFreeExactly`.
- A channel count that does not divide the buffer bound, such as 7, is misaligned by the first overflow:
  `ChannelsKeptExactly`.

## Model

| member | source | states |
|---|---|---|
| StreamPools.AllocateGrants | src/audio/snapcast_router.rs:63-74 | after an allocation the zone holds exactly one slot, a slot it held already is given again, else the first free one, no other zone's slot moves, and it fails only when every slot is another zone's |
| StreamPools.ReleaseUndoesAllocate | src/audio/snapcast_router.rs:63-83 | a release undoes the allocation a zone had not asked for before |
| StreamPools.ReleaseTakesOnlyOwn | src/audio/snapcast_router.rs:76-83 | a release keeps the pool injective, frees the zone's slot and takes nothing from others |
| StreamPools.StreamPool.Allocate | src/audio/snapcast_router.rs:61-74 | the cells after the call and the slot returned are those of `Allocated` |
| StreamPools.StreamPool.Release | src/audio/snapcast_router.rs:76-83 | the cells after the call are those of `Released` |
| StreamPools.StreamPool.StreamFor | src/audio/snapcast_router.rs:85-91 | the first slot the zone holds, if any |
| SnapcastControl.ParseServerStatus | src/audio/snapcast_control.rs:46-72 | without a group list an error; otherwise groups in order with all their clients, and a client is connected iff some group lists it so |
| SnapcastControl.GroupOfFindsTheGroup | src/audio/snapcast_control.rs:31-44 | a snapshot of a valid server names for a client exactly the one group it is in, and a connected client is in one |
| SnapcastReconcile.Reconcile | src/audio/snapcast_router.rs:99-114 | a call makes exactly one pass: status read once, entries in order, SetClients then SetStream from the snapshot; it stops at a status that makes no sense, at the first group that is gone, or at any call without a reply, which may or may not have reached the server; over a dead connection it changes nothing |
| SnapcastReconcile.AddressesFirstPresent | src/audio/snapcast_router.rs:101-106 | the group addressed for an entry is the one that holds, in the snapshot, its first listed client that is connected |
| SnapcastConvergence.PassNeverAddressesAVanishedGroup | src/audio/snapcast_router.rs:99-114 | over disjoint entries no call addresses a group that vanished, the pass runs to its end, and handled zones are never mixed with other clients |
| SnapcastOnePass.OnePassSettlesExactly | src/audio/snapcast_router.rs:94-114 | every pass over disjoint entries the server may make settles a zone, of any number of clients, iff none of them is present or no later entry starts from the same group |
| SnapcastOnePass.OnePassSettlesAllExactly | src/audio/snapcast_router.rs:94-114 | one pass is enough for all zones iff that holds of each |
| SnapcastConvergence.EachPassSettlesExactly | src/audio/snapcast_router.rs:94-114 | for a zone of two or more present clients that decides each single pass, whatever streams the server chose |
| SnapcastConvergence.OnePassHalfSettles | src/audio/snapcast_router.rs:99-114 | after one pass every zone is settled or its clients stand alone |
| SnapcastConvergence.SettledIsFixpoint | src/audio/snapcast_router.rs:94-98 | a pass over a settled server changes nothing at any moment |
| SnapcastConvergence.TwoPassesSettle | src/audio/snapcast_router.rs:94-114 | two passes, in any two orders of disjoint entries, settle every zone |
| SnapcastConvergence.CutPassIsMadeGood | src/audio/snapcast_router.rs:99-114 | after a pass broken off anywhere, between the two calls for an entry or with only a reply lost, two passes that go through settle every zone all the same |
| SnapcastConvergence.SettledNeedsDisjoint | src/audio/snapcast_router.rs:94-114 | no server settles entries that want one client twice |
| SnapcastConvergence.PassesConvergeExactly | src/audio/snapcast_router.rs:94-114 | from any valid state, any series of passes in any orders is settled and unchanging from the second pass on, iff no connected client is wanted by two zones |
| SnapcastConvergence.OnePassCanFail | src/audio/snapcast_router.rs:94-98 | a server and two zones for which one pass does not suffice |
| SnapcastOverlap.EntryIsTwoCalls | src/audio/snapcast_router.rs:99-114 | the step of a pass for an entry is its two calls with nothing in between |
| SnapcastOverlap.OverlapKeepsClients | src/audio/snapcast_router.rs:180-194 | whatever calls interleave, each on any earlier status and refused or not, the server stays valid with the same clients |
| SnapcastOverlap.OverlapIsMadeGood | src/audio/snapcast_router.rs:180-194 | after any such interleaving two passes left alone run to their ends and settle every zone |
| SnapcastOverlap.VanishesExactly | src/audio/snapcast_router.rs:99-114 | a call makes a group vanish iff it addresses another and takes all of its clients |
| SnapcastOverlap.OneReadingIsNeverRefused | src/audio/snapcast_router.rs:180-194 | calls of any passes over disjoint entries that read one status are never refused, whatever their order |
| SnapcastOverlap.RefusedOnlyAfterTaking | src/audio/snapcast_router.rs:180-194 | a group read and gone since was emptied by a first call for another group that wanted all of its clients |
| SnapcastOverlap.OverlappedCallIsRefused | src/audio/snapcast_router.rs:180-194 | two passes over two disjoint entries, the second read between two calls of the first, in which a call is refused |
| SnapcastRouters.EntriesHaveDistinctStreams | src/audio/snapcast_router.rs:196-208 | entries never name a stream twice, and each stream is allocated to its zone |
| SnapcastRouters.RequestedKeepsInStep | src/audio/snapcast_router.rs:145-178 | a request leaves pool and desired routing in step and grants the zone the slot it returns; a release undoes a first request |
| SnapcastRouters.DroppedKeepsInStep | src/audio/snapcast_router.rs:168-178 | a release keeps pool and desired routing of all zones in step |
| SnapcastRouters.SnapcastRouter.SinkForZone | src/audio/snapcast_router.rs:145-166 | on success the routing is that of `Requested` and one pass over its entries has been made; every failure leaves pool, desired routing and server as they were |
| SnapcastRouters.SnapcastRouter.ReleaseZone | src/audio/snapcast_router.rs:168-178 | slot and desired routing of the zone go, nothing else changes |
| SnapcastRouters.SnapcastRouter.ReconcileNow | src/audio/snapcast_router.rs:180-194 | a started router makes one pass over its entries, any other does nothing; once the connection is dead nothing changes ever |
| SnapcastRouters.SnapcastRouter.Entries | src/audio/snapcast_router.rs:196-208 | each desired zone that holds a stream, once, with its stream and clients |
| RouterThreads.SectionKeepsPool | src/audio/snapcast_router.rs:153-178 | whatever lock sections interleave, no zone gets two streams, a section moves no other zone's stream, and a request fails exactly when all streams are others' |
| RouterThreads.AloneIsTheCall | src/audio/snapcast_router.rs:153-178 | a call whose lock sections nothing comes between does what the router's request or release does |
| RouterThreads.PoolStaysInjective | src/audio/snapcast_router.rs:63-83 | in every interleaving of any number of calls the pool stays injective |
| RouterThreads.CrossedCallsLoseTheRouting | src/audio/snapcast_router.rs:153-178 | for every zone that plays a release and a request can interleave so that it ends with a stream and no desired routing |
| RouterThreads.OneKindStaysInStep | src/audio/snapcast_router.rs:153-178 | in any run, as long as requests and releases of a zone are never in flight together, however many of one kind are, the zone holds a stream iff it has a desired routing whenever no call on it is between its sections |
| RouterThreads.ZonesStayInStepExactly | src/audio/snapcast_router.rs:153-178 | every schedule of the calls about to begin leaves a zone in step iff no request of it that can be granted and no release of it are among them |
| Engines.Engine.Play | src/audio/engine.rs:270-321 | the whole state after the call is that of `EngineState.Play`, a failure changes nothing, a stream granted comes with one pass over the entries, and the call keeps every part of what is true between calls |
| Engines.Engine.Stop | src/audio/engine.rs:323-333 | the state after the call is that of `EngineState.Stop`, and every part is kept |
| Engines.Engine.SessionBegan | src/audio/engine.rs:513-554 | the state after the call is that of `EngineState.SessionBegan`; pipelines stay right, streams if the destination exists, and drivers if besides the source was not routed yet |
| Engines.Engine.SessionEnded | src/audio/engine.rs:687-720 | the state after the call is that of `EngineState.SessionEnded`, the unconditional release included; drivers and pipelines stay right, and streams if nobody else writes into the one freed |
| Engines.Engine.Reroute | src/audio/engine.rs:564-648 | on success the state is that of `EngineState.Reroute`, on every error path nothing changes, a stream granted comes with one pass over the entries, and every part is kept |
| Engines.Engine.ZoneSink | src/audio/engine.rs:221-263 | a zone's sink resolved with every error path; a stream granted comes with one pass over the entries; failures change neither registry nor routing nor server |
| Engines.Engine.SinkForSource | src/audio/engine.rs:653-683 | the state is that of `EngineState.SinkForSource`; a routed session is answered the sink it has cached then, any other source none; a stream granted comes with one pass, and every part is kept |
| Engines.Engine.DetachDriver | src/audio/engine.rs:493-507 | a pipeline's stop is counted, or its source is unrouted and loses its sink |
| Engines.Engine.DeleteZone | src/audio/engine.rs:427-438 | the state after the call is that of `EngineState.DeleteZone`, an unknown zone changes nothing; streams and pipelines stay right, and drivers if the zone's own source feeds no other zone |
| Engines.Engine.SetZoneOutputs | src/audio/engine.rs:454-472 | unknown and mixed outputs are refused without change, otherwise the outputs are set and one pass is made over the entries; every part is kept |
| Engines.Engine.RegisterDongle | src/audio/engine.rs:374-405 | output, zone and idle source of a dongle exist afterwards, an existing zone keeps its state, one pass is made over the entries, and every part is kept |
| Engines.Engine.ReconcileAirplay | src/audio/engine.rs:806-850 | one source for each zone: vanished ones gone, others renamed, new ones idle |
| Engines.Engine.TrackUpdate | src/audio/engine.rs:744-758 | the texts of a known source are replaced, in session or not, an empty client keeps the old one, and every part is kept |
| Engines.Engine.ArtUpdate | src/audio/engine.rs:761-775 | the image of a known source, in session or not, is cached under its content hash and shown, and every part is kept |
| Engines.Engine.ListSources | src/audio/engine.rs:723-741 | each source in session once, as it is |
| Engines.Engine.GetArt | src/audio/engine.rs:777-784 | a cached image with that id, or none when there is none |
| EngineParts.DriverIffFeeds | src/audio/engine.rs:493-507 | where drivers agree: a zone's driver is AirPlay source s iff s exists, is active and routed and has that zone as destination; a source feeds at most one zone |
| EngineParts.NoTwoWritersPerStream | src/audio/engine.rs:270-332 | where every routed source drives its destination and writers own their streams, no two live writers write into one stream |
| EngineParts.ZoneSinkGrants | src/audio/engine.rs:240-263 | resolving a sink changes router and registry only, takes no stream from anybody, and hands out a stream of the zone itself |
| EngineParts.RerouteMovesOne | src/audio/engine.rs:564-648 | a successful `reroute` moves one source, detaches only the new zone's driver, and frees only the old destination's stream, iff the source does not drive the new zone already, which it never does where drivers feed their zones |
| EngineInvariants.StepStaysTidy | src/audio/engine.rs:270-850 | every call, whatever it is, leaves inactive sources at home, unrouted and without a sink, every source with a home zone, and no zone with two streams |
| EngineInvariants.RunsStayTidy | src/audio/engine.rs:195-850 | so in every state of every run of a new engine, on no condition |
| EngineInvariants.SessionBeganKeepsExactly | src/audio/engine.rs:513-554 | `session_began` keeps drivers and sources in agreement iff the source is unknown, or not routed yet with a destination that exists |
| EngineInvariants.CreateZoneKeepsExactly | src/audio/engine.rs:415-424 | `create_zone` keeps the agreement iff its id is not that of a zone a source drives |
| EngineInvariants.DeleteZoneKeepsExactly | src/audio/engine.rs:427-438 | `delete_zone` keeps the agreement iff the zone's own source does not feed another zone |
| EngineInvariants.StepKeepsDriversExactly | src/audio/engine.rs:270-850 | every call keeps the agreement iff its condition, checkable before the call, holds; only these three calls have one |
| EngineInvariants.RunKeepsDriversExactly | src/audio/engine.rs:195-850 | in every run drivers and sources have agreed in all states so far iff every call so far met its condition |
| EngineInvariants.StepKeepsPipelinesExactly | src/audio/engine.rs:270-850 | every call leaves each pipeline running in exactly one zone or stopped exactly once, except `create_zone` over a zone that runs one |
| EngineInvariants.RunKeepsPipelinesExactly | src/audio/engine.rs:195-850 | in every run that has held in all states so far iff no zone that runs a URL was created again |
| EngineStreams.SessionBeganKeepsOwnedExactly | src/audio/engine.rs:513-554 | `session_began`, of a routed source too, leaves every routed source the driver of its destination and every writer a stream of its own zone iff the source is unknown or its destination exists |
| EngineStreams.SessionEndedKeepsExactly | src/audio/engine.rs:685-720 | `session_ended` leaves every writer a stream of its own zone iff nobody else writes into the stream it frees, whether or not some driver names a source that is gone |
| EngineStreams.CreateZoneKeepsOwnedExactly | src/audio/engine.rs:415-424 | `create_zone` keeps both iff no routed source with that destination drives the id |
| EngineStreams.DeleteZoneKeepsOwned | src/audio/engine.rs:427-438 | `delete_zone` keeps both on no condition |
| EngineStreams.StepKeepsStreamsExactly | src/audio/engine.rs:270-850 | every call keeps both iff its condition, checkable before the call, holds; only `session_began`, `session_ended` and `create_zone` have one |
| EngineStreams.SafeForDriversIsSafeHere | src/audio/engine.rs:270-850 | where drivers agree, a call that keeps that is safe for streams, but for the end of a session |
| EngineStreams.RunKeepsStreamsExactly | src/audio/engine.rs:195-850 | in every run routed sources have driven their destinations and writers owned their streams in all states so far iff every call so far met its condition |
| EngineStreams.NoTwoWritersInRuns | src/audio/engine.rs:195-850 | in a run of such calls no two writers ever write into one stream; and where besides no zone that runs a URL was created again, every pipeline not stopped is one of these writers |
| EngineAnswers.ZoneSinkFailsExactly | src/audio/engine.rs:240-263 | each error of resolving a sink is answered iff its condition on outputs, device, snapserver and pool holds, and no other error is |
| EngineAnswers.ZoneSinkGivesExactly | src/audio/engine.rs:221-263 | outputs with the hub's device resolve to it, open from then on; others to a stream the zone holds, the same again if it held one; nothing else changes |
| EngineAnswers.PlayFailsExactly | src/audio/engine.rs:270-284 | `play` fails iff the zone is unknown or resolving its sink fails, with that error |
| EngineAnswers.RerouteFailsExactly | src/audio/engine.rs:564-594 | `reroute` fails iff the source is not in session, or the zone is another one and is unknown or cannot be resolved; towards its own zone it does nothing |
| EngineAnswers.SetZoneOutputsFailsExactly | src/audio/engine.rs:454-472 | mixed, unknown output and unknown zone are answered in this order, each iff it is so and none before it; else the outputs are those asked for |
| EngineAnswers.ZoneCallsFailExactly | src/audio/engine.rs:427-452 | `delete_zone` and `rename_zone` fail iff the zone is unknown |
| EngineAnswers.SinkIsTheCachedOne | src/audio/engine.rs:653-683 | a known, active and routed source is answered the sink it has cached after the call, none if it has none, and any other source none |
| EngineAnswers.NoSinkExactly | src/audio/engine.rs:653-683 | a routed session is answered none iff it has no sink cached and its destination is gone or cannot be resolved |
| EngineAnswers.SinkIsAnsweredAgain | src/audio/engine.rs:661-663 | what was answered once is answered again, and the second call changes nothing |
| EngineAnswers.SinkIsTheDestinations | src/audio/engine.rs:653-683 | where writers own their streams, a stream answered is held by the destination and nobody else writes into it |
| EngineAnswers.AnswersAreOwned | src/audio/engine.rs:653-683 | so in every run of calls that are safe for streams |
| EngineAnswers.PlayRuns | src/audio/engine.rs:270-321 | a `play` that succeeds leaves the zone running a new pipeline, into the hub's device iff that is among its outputs, else into the stream the zone holds |
| EngineAnswers.PlayOnlyTakes | src/audio/engine.rs:292-307 | it stops or unroutes the zone's previous driver, and no other driver and no other source changes |
| EngineAnswers.StopLeaves | src/audio/engine.rs:323-333 | a `stop` leaves the zone without driver, stream and desired clients, and takes nothing from any other |
| EngineDirectory.ListedByTheCalls | src/audio/engine.rs:374-472 | in every run the zones, their names and outputs, and which dongles are online are what the calls so far say, told without the state |
| EngineDirectory.EachZoneHasItsSource | src/audio/engine.rs:806-850 | in every run there are no sources until a call reconciles them, and from then on one for each zone, under its name |
| EngineRouting.StepMovesStreamsExactly | src/audio/engine.rs:240-720 | after any call a zone holds a stream iff the call had one granted for it, or it held one and the call does not release it |
| EngineRouting.StreamsFollowTheCalls | src/audio/engine.rs:195-850 | in every run a zone holds one of the sixteen streams iff a call had one granted for it and none since has released it; these are the zones with desired clients, and they exist |
| EngineRouting.TwoPassesGroup | src/audio/snapcast_router.rs:94-208 | after two passes of the router, its zones listed in any two orders, the connected clients desired for each zone are one group and play the stream the zone holds, if none is desired for two zones |
| EngineMembers.DesiredIsLastGrant | src/audio/snapcast_router.rs:153-166 | in every run the clients desired for a zone are those of its outputs that were online at the latest call that had a stream granted for it |
| EngineMembers.StepKeepsMembersExactly | src/audio/engine.rs:374-472 | every call leaves the desired clients of a zone what its online outputs are now iff it does not change these: other outputs, a dongle of the zone that comes or goes, or the zone created again |
| EngineMembers.RunKeepsMembersExactly | src/audio/engine.rs:195-850 | in every run they have been its online outputs in all states so far iff no call so far was such a one while the zone had desired clients |
| EngineMembers.RunsStayAnchored | src/audio/engine.rs:195-850 | in every run only existing zones have desired clients |
| EngineMembers.ReconnectedDongleIsLeftOut | src/audio/engine.rs:366-405 | a dongle of a playing zone that was offline at the grant and comes back is online there and not desired |
| EngineMembers.MembersInOrder | src/audio/engine.rs:240-262 | the clients requested for a zone are the online dongles of its outputs, in the order listed |
| EngineRuns.StepShows | src/audio/engine.rs:687-775 | a source is in session after a call only if it was before or the call began its session, and shows exactly what the call added |
| EngineRuns.ShownSinceBegan | src/audio/engine.rs:513-534 | in every run what a source in session shows is made of exactly the updates since its latest `session_began` |
| EngineRuns.LatestSinceBegan | src/audio/engine.rs:744-775 | in every run title, artist, album and art id shown are the latest given since the session began, and the client the latest that was not empty |
| EngineRuns.EverySourceIsUpdated | src/audio/engine.rs:744-775 | in session or not, a known source is blanked when a session of its begins or ends and updated by every update for it, and by nothing else |
| EngineRuns.ShownArtIsFetched | src/audio/engine.rs:761-784 | in every run a non-empty art id shown is answered by `get_art` with an image of that hash |
| EngineRuns.FetchedMimeIsTold | src/audio/engine.rs:761-784 | in every run an image fetched is served under the mime its bytes tell |
| EngineRuns.MimeIsTold | src/audio/engine.rs:922-930 | images that begin as JPEG or PNG files do are told as such, and no others |
| EngineRuns.AlternatingBeginsAreSafe | src/audio/airplay.rs:295-308 | in every run, when the begins and ends of a source alternate as the receiver makes them, each `session_began` of it meets the condition for drivers |
| EngineRaces.InstallKeepsExactly | src/audio/engine.rs:292-318 | the installing section of `play` keeps the invariant iff the zone is still undriven and the sink still its own |
| EngineRaces.OverwrittenPipelineLeaks | src/audio/engine.rs:292-318 | a pipeline over which another is installed is never stopped and runs nowhere |
| EngineRaces.RacingPlaysLeakAPipeline | src/audio/engine.rs:292-318 | two plays that both take before either installs leave a pipeline nobody can stop |
| EngineRaces.CacheKeepsExactly | src/audio/engine.rs:672-682 | caching a sink resolved earlier leaves every writer a sink of its own zone iff the source still has the destination it was resolved for, and a stream is still that zone's |
| EngineRaces.StaleSinkIsCached | src/audio/engine.rs:653-683 | a reroute between resolving and caching makes the source write into a freed stream |
| EngineRaces.StaleDeviceIsCached | src/audio/engine.rs:653-683 | for any routed source: the hub's device cached after a reroute makes it play on the hub while it drives and feeds another zone |
| EngineRaces.HubSessionBegins | src/audio/engine.rs:374-405 | a new engine comes by two calls to a session in the hub's zone next to an undriven dongle |
| EngineRaces.SessionStaysOnTheHub | src/audio/engine.rs:221-236 | there, a reroute to the dongle while the device is opened leaves the session on the hub, with the dongle's stream granted and unused |
| EngineRaces.EndedSessionSharesAStream | src/audio/engine.rs:685-720 | a run that ends with two pipelines writing into one stream |
| EngineRaces.DeletedHomeLeavesADriver | src/audio/engine.rs:427-438 | a run that ends with a zone driven by a source that is gone |
| EngineRaces.StreamsSurviveADeletedHome | src/audio/engine.rs:427-438 | in that run every routed source still drives its destination and every writer owns its stream |
| EngineRaces.EvictionKeepsArtExactly | src/audio/engine.rs:513-534 | the evicting section of `session_began` keeps every art id fetchable iff the source still shows none |
| EngineRaces.ArtBetweenSectionsIsLost | src/audio/engine.rs:513-534 | art that arrives between the two sections is shown and cannot be fetched |
| EngineSections.StoppedOnceAndNowhere | src/audio/engine.rs:292-332 | in every interleaving of the lock sections of any calls a pipeline runs in one zone at most, and its stop flag is set once at most and never while a zone runs it |
| EngineSections.LeaksExactly | src/audio/engine.rs:292-318 | in every interleaving no pipeline has leaked iff no section so far put a driver or a new zone in the place of a URL nobody took; and what has leaked stays so |
| EngineSections.PlayIsItsSections | src/audio/engine.rs:292-318 | the sections of `play` with nothing in between are its atomic step |
| EngineSections.SessionBeganIsItsSections | src/audio/engine.rs:536-554 | the sections of `session_began` with nothing in between are its atomic step |
| EngineSections.StopIsItsSections | src/audio/engine.rs:323-333 | the sections of `stop` with nothing in between are its atomic step |
| EngineSections.SessionEndedIsItsSections | src/audio/engine.rs:687-720 | the sections of `session_ended` with nothing in between are its atomic step |
| EngineSections.DeleteZoneIsItsSections | src/audio/engine.rs:427-438 | the sections of `delete_zone` with nothing in between are its atomic step |
| EngineSections.RerouteIsItsSections | src/audio/engine.rs:596-644 | the sections of the commit of `reroute` with nothing in between are its atomic step |
| EngineLeaks.CallsLeakExactly | src/audio/engine.rs:270-648 | of any calls about to begin some schedule leaks a pipeline iff a `play` and another `play` or a `reroute` are for one zone that exists or is about to, or a zone is created under an id that runs a URL or that a `play` may run one on before |
| EngineLeaks.PlayAlone | src/audio/engine.rs:292-318 | the phases of a `play` that is left alone are its atomic step on the drivers |
| EngineLeaks.StopAlone | src/audio/engine.rs:323-333 | the phases of a `stop` left alone are its atomic step on the drivers |
| EngineLeaks.SessionBeganAlone | src/audio/engine.rs:536-554 | the phases of a `session_began` left alone are its atomic step on the drivers |
| EngineLeaks.SessionEndedAlone | src/audio/engine.rs:687-720 | the phase of a `session_ended` left alone is its atomic step on the drivers |
| EngineLeaks.DeleteZoneAlone | src/audio/engine.rs:427-438 | the phases of a `delete_zone` left alone are its atomic step on the drivers |
| EngineLeaks.CreateZoneAlone | src/audio/engine.rs:415-424 | the phase of a `create_zone` left alone is its atomic step on the drivers |
| EngineLeaks.RerouteAlone | src/audio/engine.rs:596-644 | the phases of a `reroute` left alone are its commit on the drivers |
| LockTraces.CallsAreOrdered | src/audio/engine.rs:270-850 | every call, whatever branches it takes and however often it loops, nests its mutexes and joins in one order, dropped supervisors, receivers and devices included; and above the life of the thread that makes it, when others join that |
| LockTraces.OrderedIsDisciplined | src/audio/engine.rs:653-683 | guards nested in that order acquire upwards only, release what they hold and hold nothing at the end |
| LockTraces.NeverStuck | src/audio/airplay_factory.rs:120-156 | any threads running any calls, after any schedule: a thread that has not ended can move, or waits, through at most as many holders as there are ranks, for one that can; one that has ended holds nothing; and schedules are finite |
| Supervisors.NothingIsLeftRunning | src/audio/snapcast.rs:235-287 | in every run at most one child runs at a time, and none when the drop has returned |
| Supervisors.DropKillsExactly | src/audio/snapcast.rs:235-270 | when the drop has looked into the slot nothing runs, and it can return without a process ending by itself, iff the monitor had not taken the child or nothing ran |
| Supervisors.DropWaitsForALiveChild | src/audio/airplay.rs:170-206 | a supervisor dropped while its monitor waits for the first child: nothing is killed and the drop cannot return by itself |
| Supervisors.DropDuringALaunch | src/audio/snapcast.rs:257-287 | a supervisor dropped while its monitor launches another child: nothing ran when it looked, and yet it cannot return |
| Supervisors.DropSurelyReturnsExactly | src/audio/snapcast.rs:235-287 | whatever the two threads do after the look, the drop returns or still can, iff besides that no launch is under way; and then all is over in fewer than six steps |
| Supervisors.IdleSurelyReturns | src/audio/snapcast.rs:257-287 | when nothing runs and no launch is under way every way on is short and ends with the drop |
| Utf8.LossyKeepsExactlyText | src/audio/airplay_meta.rs:162-164 | lossy decoding always gives valid UTF-8 and changes nothing iff given valid UTF-8 |
| Utf8.BeginningIsReplacedOnce | src/audio/airplay_meta.rs:162-164 | the beginning of a character that what follows does not go on with becomes one replacement character, however long it is |
| Utf8.StrayByteIsReplaced | src/audio/airplay_meta.rs:162-164 | a byte that begins no character becomes one replacement character of its own |
| Utf8.ValidPrefixIsValid | src/audio/airplay_meta.rs:77-83 | the prefix that is parsed when invalid bytes follow is valid UTF-8, so unwrapping it cannot fail |
| Utf8.ValidIsEncodedExactly | src/audio/airplay_meta.rs:78-83 | bytes count as text iff they are the UTF-8 encoding (RFC 3629) of some scalar values |
| Utf8.StuckExactly | src/audio/airplay_meta.rs:78-83 | no more bytes ever lengthen the valid prefix iff what follows it begins no character |
| Base64.DecodeInvertsEncode | src/audio/airplay_meta.rs:152-160 | decoding gives some data iff the text is the encoding of that data |
| Base64.AlphabetIsStandard | src/audio/airplay_meta.rs:152-160 | the symbols have the values of the table in section 4 of RFC 4648, and other characters none |
| Base64.SymbolsHoldTheBits | src/audio/airplay_meta.rs:152-160 | four symbols are the bits of three bytes, first byte and high bits first, and fewer bytes are padded |
| Framing.AnySplitCutsAlike | src/audio/airplay_meta.rs:37-55 | for any lawful items, any split of a stream gives the items and the remainder of the whole stream |
| Framing.BlocksAre | src/audio/airplay.rs:248-252 | fixed-size blocks lose and move nothing, each is full, and too little is left for another |
| AirplayMeta.ItemsAreLawful | src/audio/airplay_meta.rs:77-107 | finding `<item>` and `</item>` in the valid prefix is lawful: complete items stay, incomplete ones wait, and cuts fall between characters |
| AirplayMeta.ParseItems | src/audio/airplay_meta.rs:77-107 | the loop answers the events of all complete items and the bytes consumed |
| AirplayMeta.WhitespaceExactly | src/audio/airplay_meta.rs:158-158 | the characters stripped from a payload are exactly those of White_Space |
| AirplayMeta.AnySplitParsesAlike | src/audio/airplay_meta.rs:37-55 | any split of the stream gives the events and the remainder of parsing it at once |
| AirplayMeta.RemainderHoldsNoItem | src/audio/airplay_meta.rs:52-55 | what the reader carries holds no complete item |
| AirplayMeta.IncompleteItemIsKept | src/audio/airplay_meta.rs:77-107 | for any buffer, what is consumed ends at or before every item whose end is not in its valid part |
| AirplayMeta.StallsExactlyWhenBroken | src/audio/airplay_meta.rs:77-107 | nothing that arrives later in an opening is parsed or consumed iff what follows the valid prefix can never become text |
| AirplayMeta.MetaAccumulator.Apply | src/audio/airplay_meta.rs:190-204 | fields and commit after an event are those of `Committed` |
| AirplayMeta.FieldsAreLatest | src/audio/airplay_meta.rs:174-204 | each field held is the latest value received for it, across bundles and art |
| AirplayMeta.CommitPointsExactly | src/audio/airplay_meta.rs:190-204 | the commit points of a run of events are its bundle ends and images, each once and in order |
| AirplayMeta.CommitsAreLatest | src/audio/airplay_meta.rs:190-204 | one commit is made at each of these and no other: an image's is the image, a bundle end's has the latest title, artist, album and client before it |
| AirplayMeta.ReadToEnd | src/audio/airplay_meta.rs:37-55 | one opening makes the commits of the whole stream, however it is split: one for each bundle end, of the latest values before it, and one for each image |
| AirplayMeta.RunReader | src/audio/airplay_meta.rs:24-58 | over any number of openings the accumulator lives on and an unfinished item does not; the commits are those of all events of all openings |
| AirplayMetaPrinting.BetweenTags | src/audio/airplay_meta.rs:130-160 | between a tag and its closing tag stands exactly what was written there |
| AirplayMetaPrinting.ItemReadsBack | src/audio/airplay_meta.rs:111-160 | a written item is read back as the event of its type, code and payload, for any payload or none |
| AirplayMetaPrinting.ItemsReadBack | src/audio/airplay_meta.rs:77-128 | any written items, known or not, give exactly their events and every byte is consumed |
| AirplayMetaPrinting.EventArrivesExactly | src/audio/airplay_meta.rs:116-127 | a sent event arrives unchanged iff its text is valid UTF-8, or its image is not empty |
| AirplayMetaPrinting.EventsReadBackExactly | src/audio/airplay_meta.rs:214-232 | events written and sent in any chunks come back one for one iff all are sendable, and nothing is carried over |
| AirplayMetaSpelling.EventsAreSpelled | src/audio/airplay_meta.rs:116-127 | the event of each spelled type and code with a payload |
| AirplayMetaSpelling.NoOtherEvents | src/audio/airplay_meta.rs:116-127 | no other type and code make an event, and without a payload only `ssnc`, `mden` do |
| AirplayMetaSpelling.TitleIsRead | src/audio/airplay_meta.rs:111-160 | an item spelled out as text with type `core` and code `minm` is read as a title |
| AirplayMetaSpelling.ArtistIsRead | src/audio/airplay_meta.rs:111-160 | one with `core` and `asar` as an artist |
| AirplayMetaSpelling.AlbumIsRead | src/audio/airplay_meta.rs:111-160 | one with `core` and `asal` as an album |
| AirplayMetaSpelling.ClientIsRead | src/audio/airplay_meta.rs:111-160 | one with `ssnc` and `snua` as a client |
| AirplayMetaSpelling.ArtIsRead | src/audio/airplay_meta.rs:111-160 | one with `ssnc` and `PICT` as an image, if that is not empty |
| AirplayMetaSpelling.BundleEndIsRead | src/audio/airplay_meta.rs:111-160 | one with `ssnc` and `mden` as the end of a bundle |
| AirplayMetaSpelling.HexDigitsExactly | src/audio/airplay_meta.rs:140-148 | hexadecimal digits are read in either case, and nothing else is a digit |
| AirplayMetaSpelling.TwoDigitsExactly | src/audio/airplay_meta.rs:140-148 | two characters are read as two digits, or as one after a plus sign |
| AirplayMetaSpelling.OnlyWhitespaceGoes | src/audio/airplay_meta.rs:152-160 | of a payload the characters of White_Space go and all others stay, in order |
| Pcm.I16leToPlanar | src/audio/airplay.rs:65-80 | the planes of the whole frames, a trailing part of a frame ignored |
| Pcm.MixPlanar | src/audio/decode.rs:234-266 | every branch, for any planes, the ragged ones included |
| Pcm.MixedIsFramewise | src/audio/decode.rs:229-266 | mixing works frame by frame and gives exactly the channels asked for, all of one length |
| Pcm.MixingStaysWithin | src/audio/decode.rs:229-266 | mixed samples stay within the range of the samples mixed, and a common value is kept |
| Pcm.MonoIsTheMean | src/audio/decode.rs:248-261 | mixed to one channel, a frame's sample times the number of channels is the sum of its samples, and a sample raised by d raises it by d over that number |
| Pcm.MonoOfAnyOrder | src/audio/decode.rs:248-261 | the order of the channels does not matter to it |
| Pcm.MonoPlaneIsTheMean | src/audio/decode.rs:248-261 | so for each sample of the plane that mixing planes to one gives |
| Pcm.RaggedMonoIsTheMean | src/audio/decode.rs:248-261 | of planes of any lengths the first decides how many samples there are, and one that has ended adds nothing to the sum |
| Pcm.ChannelsInTurn | src/audio/decode.rs:262-266 | mixed to another number of channels than one, a frame's channels keep their places and begin again after the last |
| Pcm.PlanesInTurn | src/audio/decode.rs:234-266 | the same of planes of any lengths; no planes give empty ones |
| Pcm.Interleave | src/audio/decode.rs:268-283 | frame after frame, the shortest plane deciding how many |
| Pcm.InterleavedIsFlat | src/audio/decode.rs:268-283 | interleaving planes puts their frames back one after the other |
| Pcm.ToI16le | src/audio/snapcast.rs:165-175 | the encoding of the samples is appended |
| Pcm.EncodesNearest | src/audio/snapcast.rs:165-175 | a sample from -1 to 1 is encoded as the integer nearest to 32767 times it, any other as the nearest end |
| Pcm.RoundsToNearest | src/audio/snapcast.rs:165-175 | rounding gives the nearest integer, and of two the one farther from zero |
| Pcm.LowByteFirst | src/audio/airplay.rs:65-80 | a sample is its low byte and then its high byte, which counts 256, in two's complement |
| Pcm.ThereAndBack | src/audio/snapcast.rs:165-175 | s16le to planes, mixed to as many channels, interleaved and encoded gives the whole frames with -32768 turned into -32767; the identity iff no sample is -32768 |
| Pump.ResamplePipeline.PushAndDrain | src/audio/decode.rs:201-227 | the emissions and the accumulator are those of the blocks of all frames pushed, and fewer than 1024 frames stay |
| Pump.PumpOpen | src/audio/airplay.rs:225-281 | the log of a session, and whether it failed, are those of `AfterReads` |
| Pump.RebuildForgetsPending | src/audio/airplay.rs:260-272 | a rebuilt pipeline behaves as if nothing had been pending |
| PumpRouting.EveryFrameOnce | src/audio/airplay.rs:248-258 | however the stream is split, each of its whole frames is routed or discarded once, in order, with the route of the read that completes it |
| PumpRouting.RemainderIsTheEnd | src/audio/airplay.rs:248-275 | whatever the routing, the remainder is the unfinished frame at the end of the stream |
| PumpRouting.SegmentsHoldAllRouted | src/audio/airplay.rs:254-272 | the stretches of one format, told from reads and routes alone, hold the routed frames, each once and in order |
| PumpRouting.SegmentsEndWhereFormatsChange | src/audio/airplay.rs:260-272 | a stretch is not empty, has one format and ends just where the format changes |
| PumpRouting.RoutedFramesArrive | src/audio/airplay.rs:225-281 | for any reads and any routes: the log falls into a part for each stretch; at 44100 Hz each frame's samples go to the sink its read was routed to, at another rate the 1024-frame chunks are resampled for the sink of the frame that completes them, and fewer than 1024 frames of a stretch are not passed on: pending in the last, lost in an earlier one |
| PumpRouting.DirectSinksLoseNothing | src/audio/airplay.rs:225-281 | however a session is rerouted, the samples written are those of all frames routed to sinks at 44100 Hz, in order, each to its sink |
| PumpRouting.FailsExactly | src/audio/airplay.rs:260-270 | a session fails iff some read brings whole frames for a sink of a new format whose resampler cannot be built |
| PumpRouting.FailedLogStays | src/audio/airplay.rs:260-270 | that read and all after it write nothing |
| PumpRouting.OneFormatDelivers | src/audio/decode.rs:201-227 | when the sinks share one format, however many they are, the log is that of one stretch, so nothing is lost |
| PumpRouting.FixedSinkGetsTheStream | src/audio/airplay.rs:225-281 | a fixed sink at 44100 Hz is written the interleaved mix of all whole frames of the stream |
| Output.AudioOutput.Write | src/audio/output.rs:101-108 | the buffer is then the newest of what it held and what is written, all of it if that fits the bound |
| Output.AudioOutput.FillOutput | src/audio/output.rs:225-234 | each slot is given the oldest sample, or silence |
| Output.AudioOutput.Callback | src/audio/output.rs:201-217 | the device is primed iff it was or the cushion is there; primed, the slots are given the oldest samples and then silence, else silence |
| Output.EverySampleOnce | src/audio/output.rs:101-108 | over any run the device is given samples in the order written, each at most once; written = played + dropped + buffered; the buffer keeps its bound |
| Output.WriteKeepsLatest | src/audio/output.rs:101-108 | no sample is dropped that could stay: the buffer is the newest of what it held and what is written |
| Output.CallbackPlays | src/audio/output.rs:201-234 | once the cushion has been reached a callback gives the oldest samples and then silence and takes just these; before that silence and nothing |
| Output.PrimedExactly | src/audio/output.rs:201-214 | over any run the device is primed iff some callback found the cushion |
| Output.PrimedForGood | src/audio/output.rs:201-214 | and that is never taken back |
| Output.NothingPlayedBeforePriming | src/audio/output.rs:202-214 | until the cushion has been reached nothing is played |
| Output.PrimingIsReachableExactly | src/audio/output.rs:193-196 | output can begin iff rate * channels * 3 / 5 is at most 1,152,000 |
| Output.ChannelsKeptExactly | src/audio/output.rs:36-108 | over all frame-aligned runs each slot keeps its channel iff the channel count divides the bound or nothing can ever be played |
| AirplayManager.LowestFreeSlot | src/audio/airplay_manager.rs:80-84 | the unbounded search ends at the lowest slot no receiver uses |
| AirplayManager.LowestFreeIsLow | src/audio/airplay_manager.rs:80-84 | that slot is free, all below it are taken, and it is at most the number of receivers |
| AirplayManager.ShairportManager.Reconcile | src/audio/airplay_manager.rs:44-77 | the receivers and factory calls are those of `AfterReconcile`, for any outcomes of the calls, and the receivers no longer wanted are dropped |
| AirplayManager.RecordsAreWhatWasMade | src/audio/airplay_manager.rs:44-77 | each call of a pass is for an entry, in order, with its name: a receiver where none exists, with the lowest slot free then, or a new name; and what is recorded is what the successful calls made of the receivers kept |
| AirplayManager.EachMadeOnce | src/audio/airplay_manager.rs:44-77 | none is made for a zone that has a receiver; a new one was made by one call alone, with the slot recorded |
| AirplayManager.FactoryAgrees | src/audio/airplay_manager.rs:44-77 | over any run with any failures, what the factory has made and not dropped is what is recorded, with name and slot |
| AirplayManager.MadeReceiversDiffer | src/audio/airplay_manager.rs:44-77 | so no two receivers made have one slot or device id, nor one port while at most 60,481 were live at once |
| AirplayManager.SlotsOverRuns | src/audio/airplay_manager.rs:44-77 | over any run with any failures live slots are distinct and below the peak number of live receivers |
| AirplayManager.SurvivorsKeepTheirSlots | src/audio/airplay_manager.rs:44-77 | in any pass a wanted receiver survives and keeps its slot, and only wanted zones have one |
| AirplayManager.RepeatingIsFreeExactly | src/audio/airplay_manager.rs:44-46 | repeating a fully successful pass makes no factory call iff no zone is wanted under two names |
| AirplayManager.PortsFitExactly | src/audio/airplay.rs:40-46 | slots below a peak have port 5055 + slot iff the peak is at most 60,481 |
| AirplayManager.PortsAreDistinct | src/audio/airplay.rs:40-46 | over any run with such a peak live receivers have distinct ports |
| AirplayManager.DeviceIdsDiffer | src/audio/airplay.rs:48-53 | different slots have different device ids |
| AirplayManager.SixDigitsExactly | src/audio/airplay.rs:48-53 | the id ends in the slot's hexadecimal digits, six of them unless the slot needs more |

## Left out

- I/O and libraries: processes, FIFOs, TCP and JSON-RPC transport, mDNS, HTTP, cpal, Symphonia, the resampler's
  own arithmetic; the resampler is a consumer whose chunks are logged.
- The URL decode loop (src/audio/decode.rs:38-162): its pipeline and mixing are modelled, its packets are not.
- Rounding of f32, conversion to the device's sample type, timing, pacing, backpressure, event ticks and logs.
- `SnapcastSink.write` (src/audio/snapcast.rs:146-181): only the conversion is modelled; opening the FIFO, lost
  readers and short writes are not.
- `notify_*`, `list_zones`, `list_targets`, `sniff_mime`: plain reads and ticks. Their locks are in `LockTraces`.
- JSON values: a status reply is a list of groups or the lack of one; missing fields are already their defaults.
- EngineSections.LeaksExactly: the sections that only read, and those on sources, the router and the art, are not
  among them, because they touch no driver.
- Waits for processes, FIFOs and sockets inside a call: in `LockTraces` they end by themselves, and a thread is there
  from the start. What waiting for a child process does to a drop is the subject of `Supervisors`.
- Command dispatch, task names, the output registry beyond ids, presence and a direct sink, pairing and
  cryptography, the database, and `FanOut`.
- Reads that end a session by error or by the stop flag: a session is the list of reads made before that.
- RouterThreads.ZonesStayInStepExactly: the requesting call's reconcile pass is not part of the schedules, because it
  takes neither the pool nor the desired routing out of step.
- EngineLeaks.CallsLeakExactly: calls that began earlier and are not over are not among those about to begin; which of
  their sections leak is `LeaksExactly`.
- SnapcastOverlap.OverlappedCallIsRefused: one overlap that is refused and not all of them; what every refusal needs is
  `RefusedOnlyAfterTaking`.
- EngineParts.NoTwoWritersPerStream: a statement about states between calls; what lock sections inside a
  call can do is the subject of `EngineRaces`.
- Engines.Engine.Reroute: whether snapserver was started is not part of the state compared; a request that then
  finds no free stream leaves it running.
- Pump.ResamplePipeline.PushAndDrain: a sink has at least one channel, because the source indexes the first one.
- PumpRouting.RoutedFramesArrive: the same of every sink a session is routed to; a session that fails is described by
  `FailsExactly` and `FailedLogStays`.
- Engines.Engine: generated zone ids and content hashes are parameters, because randomness and hashing are foreign.
- Engines.Engine.ReconcileAirplay: the receivers it passes the zones on to are not fields of the class; what the manager
  makes of any list of zones is the subject of `AirplayManager`.
- Base64.Decode: which error a malformed payload gives is not kept, because the parser drops it.
