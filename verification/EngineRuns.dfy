/**
 What the engine shows about a session, over whole runs (src/audio/engine.rs): now-playing texts
 belong to the latest session, and every art id shown can be fetched.
 */
module EngineRuns {
  import opened Wrappers
  import opened StreamPools
  import opened SnapcastRouters
  import opened EngineState
  import opened EngineParts
  import opened EngineInvariants

  // ----- Calls that say nothing about a session's texts -------------------------------------------

  /** Sources keep their texts and activity, new sources are idle and blank, and so is the art cache kept. */
  ghost predicate TextKept(st: State, st': State) {
    && st'.art == st.art
    && forall s :: s in st'.sources ==>
         if s in st.sources then
           st'.sources[s].now == st.sources[s].now && st'.sources[s].active == st.sources[s].active
         else
           st'.sources[s].now == NOTHING && !st'.sources[s].active
  }

  lemma {:induction false} TextKeptTwice(st: State, mid: State, st': State)
    requires TextKept(st, mid) && TextKept(mid, st')
    requires st.sources.Keys <= mid.sources.Keys
    ensures TextKept(st, st')
  {
  }

  lemma {:induction false} ZoneSinkText(st: State, env: Env, zone: ZoneId, outputs: seq<OutputId>)
    requires ZoneSink(st, env, zone, outputs).Ok?
    ensures var (st', _) := ZoneSink(st, env, zone, outputs).value;
            st' == st.(routing := st'.routing, registry := st'.registry)
  {
  }

  lemma {:induction false} DetachedText(st: State, driver: Option<Driver>)
    ensures TextKept(st, Detached(st, driver)) && Detached(st, driver).sources.Keys == st.sources.Keys
    ensures Detached(st, driver).zones == st.zones && Detached(st, driver).routing == st.routing
  {
  }

  lemma {:induction false} TakeText(st: State, zone: ZoneId)
    ensures TextKept(st, PlayTake(st, zone)) && PlayTake(st, zone).sources.Keys == st.sources.Keys
  {
    DetachedText(WithDriver(st, zone, None), CurrentDriver(st, zone));
  }

  lemma {:induction false} PlayText(st: State, env: Env, zone: ZoneId)
    ensures TextKept(st, OrElse(Play(st, env, zone), st))
  {
    if Play(st, env, zone).Ok? {
      ZoneSinkText(st, env, zone, st.zones[zone].outputs);
      TakeText(ZoneSink(st, env, zone, st.zones[zone].outputs).value.0, zone);
    }
  }

  lemma {:induction false} RerouteText(st: State, env: Env, s: ZoneId, zone: ZoneId)
    ensures TextKept(st, OrElse(Reroute(st, env, s, zone), st))
  {
    if Reroute(st, env, s, zone).Ok? && zone != st.sources[s].dest {
      ZoneSinkText(st, env, zone, st.zones[zone].outputs);
      var (st1, sink) := ZoneSink(st, env, zone, st.zones[zone].outputs).value;
      var left := Left(Pointed(st1, s, zone, sink), s, st1.sources[s].dest);
      assert TextKept(st, left) && left.sources.Keys == st.sources.Keys;
      TakeText(left, zone);
      TextKeptTwice(st, left, PlayTake(left, zone));
    }
  }

  lemma {:induction false} SinkForSourceText(st: State, env: Env, s: ZoneId)
    ensures TextKept(st, SinkForSource(st, env, s).0)
  {
    if s in st.sources && st.sources[s].dest in st.zones {
      var zone := st.sources[s].dest;
      if ZoneSink(st, env, zone, st.zones[zone].outputs).Ok? {
        ZoneSinkText(st, env, zone, st.zones[zone].outputs);
      }
    }
  }

  lemma {:induction false} DeleteText(st: State, zone: ZoneId)
    ensures TextKept(st, OrElse(DeleteZone(st, zone), st))
  {
    if zone in st.zones {
      DetachedText(st.(zones := st.zones - {zone}), st.zones[zone].current);
    }
  }

  predicate AboutText(op: Op) {
    op.OpSessionBegan? || op.OpSessionEnded? || op.OpTrackUpdate? || op.OpArtUpdate?
  }

  lemma {:induction false} OtherStepsKeepText(st: State, op: Op)
    requires !AboutText(op)
    ensures TextKept(st, Step(st, op))
  {
    match op {
      case OpPlay(env, zone) => PlayText(st, env, zone);
      case OpStop(zone) => TakeText(st, zone);
      case OpReroute(env, s, zone) => RerouteText(st, env, s, zone);
      case OpSinkForSource(env, s) => SinkForSourceText(st, env, s);
      case OpDeleteZone(zone) => DeleteText(st, zone);
      case OpCreateZone(id, name) => assert TextKept(st, CreateZone(st, id, name));
      case OpRenameZone(zone, name) => RenameText(st, zone, name);
      case OpAddDongle(id, name) => assert TextKept(st, AddDongle(st, id, name));
      case OpEnableAirplay => assert TextKept(st, SourcesReconciled(st));
      case OpSetZoneOutputs(zone, outputs) => OutputsText(st, zone, outputs);
      case OpDongleOffline(id) => assert TextKept(st, DongleOffline(st, id));
    }
  }

  lemma {:induction false} RenameText(st: State, zone: ZoneId, name: Text)
    ensures TextKept(st, OrElse(RenameZone(st, zone, name), st))
  {
  }

  lemma {:induction false} OutputsText(st: State, zone: ZoneId, outputs: seq<OutputId>)
    ensures TextKept(st, OrElse(SetZoneOutputs(st, zone, outputs), st))
  {
  }

  // ----- Now playing ----------------------------------------------------------------------------

  /** The effect of one call on what `s` shows, as if it were in session. */
  function Updated(now: NowPlaying, op: Op, s: ZoneId): NowPlaying {
    match op
    case OpTrackUpdate(t, title, artist, album, client) =>
      if t == s then Commit(now, title, artist, album, client) else now
    case OpArtUpdate(t, _, artId) => if t == s then now.(artId := artId) else now
    case _ => now
  }

  /** The updates of `ops` for `s`, applied in order to a blank record. */
  function AllUpdates(ops: seq<Op>, s: ZoneId): NowPlaying {
    if ops == [] then NOTHING else Updated(AllUpdates(ops[..|ops| - 1], s), ops[|ops| - 1], s)
  }

  /** The calls made after the latest `session_began` of `s`. */
  function SinceBegan(ops: seq<Op>, s: ZoneId): seq<Op> {
    if ops == [] || ops[|ops| - 1] == OpSessionBegan(s) then []
    else SinceBegan(ops[..|ops| - 1], s) + [ops[|ops| - 1]]
  }

  lemma {:induction false} BeganText(st: State, t: ZoneId)
    requires t in st.sources
    ensures var st' := SessionBegan(st, t);
            && st'.art == st.art - {t} && st'.sources.Keys == st.sources.Keys
            && st'.sources[t].now == NOTHING && st'.sources[t].active
            && forall s :: s in st.sources && s != t ==>
                 st'.sources[s].now == st.sources[s].now && st'.sources[s].active == st.sources[s].active
  {
    var source := st.sources[t].(active := true, routed := true, sink := None, now := NOTHING);
    var begun := st.(sources := st.sources[t := source], art := st.art - {t});
    DetachedText(WithDriver(begun, source.dest, Some(Airplay(t))), CurrentDriver(begun, source.dest));
  }

  lemma {:induction false} EndedText(st: State, t: ZoneId)
    requires t in st.sources
    ensures var st' := SessionEnded(st, t);
            && st'.art == st.art - {t} && st'.sources.Keys == st.sources.Keys
            && st'.sources[t] == IdleSource(t, st.sources[t].name)
            && forall s :: s in st.sources && s != t ==> st'.sources[s] == st.sources[s]
  {
  }

  /** A source is in session after a call only if it was before, or the call began its session. */
  lemma {:induction false} StepShows(st: State, op: Op, s: ZoneId)
    requires s in Step(st, op).sources && Step(st, op).sources[s].active
    ensures op == OpSessionBegan(s) ==> Step(st, op).sources[s].now == NOTHING
    ensures op != OpSessionBegan(s) ==>
              && s in st.sources && st.sources[s].active
              && Step(st, op).sources[s].now == Updated(st.sources[s].now, op, s)
  {
    match op {
      case OpSessionBegan(t) => if t in st.sources { BeganText(st, t); }
      case OpSessionEnded(t) => if t in st.sources { EndedText(st, t); }
      case OpTrackUpdate(_, _, _, _, _) => if s in st.sources { UpdateText(st, op, s); }
      case OpArtUpdate(_, _, _) => if s in st.sources { UpdateText(st, op, s); }
      case _ => OtherStepsKeepText(st, op);
    }
  }

  /**
   Session scoping: in any run, what a source in session shows is made of exactly the updates that
   came after its latest `session_began`; nothing from before, however late it was committed.
   */
  lemma {:induction false} ShownSinceBegan(ops: seq<Op>, states: seq<State>, s: ZoneId, n: nat)
    requires IsRun(ops, states) && n <= |ops|
    requires s in states[n].sources && states[n].sources[s].active
    ensures states[n].sources[s].now == AllUpdates(SinceBegan(ops[..n], s), s)
  {
    if n == 0 {
    } else {
      var last := ops[n - 1];
      assert ops[..n][..n - 1] == ops[..n - 1] && ops[..n][n - 1] == last;
      StepShows(states[n - 1], last, s);
      if last != OpSessionBegan(s) {
        ShownSinceBegan(ops, states, s, n - 1);
        var since := SinceBegan(ops[..n - 1], s);
        assert (since + [last])[..|since|] == since;
      }
    }
  }

  /** What the latest call gives that gives anything of the kind; nothing if none does. */
  function LatestGiven(ops: seq<Op>, gives: Op -> Option<Text>): (text: Text) {
    if ops == [] then EMPTY
    else if gives(ops[|ops| - 1]).Some? then gives(ops[|ops| - 1]).value
    else LatestGiven(ops[..|ops| - 1], gives)
  }

  // What a call gives source `s`; a track update without a client gives none.
  function TitleGiven(s: ZoneId, op: Op): Option<Text> {
    if op.OpTrackUpdate? && op.source == s then Some(op.title) else None
  }
  function ArtistGiven(s: ZoneId, op: Op): Option<Text> {
    if op.OpTrackUpdate? && op.source == s then Some(op.artist) else None
  }
  function AlbumGiven(s: ZoneId, op: Op): Option<Text> {
    if op.OpTrackUpdate? && op.source == s then Some(op.album) else None
  }
  function ClientGiven(s: ZoneId, op: Op): Option<Text> {
    if op.OpTrackUpdate? && op.source == s && op.client != EMPTY then Some(op.client) else None
  }
  function ArtGiven(s: ZoneId, op: Op): Option<Text> {
    if op.OpArtUpdate? && op.source == s then Some(op.artId) else None
  }

  /** Each field is the latest one given. */
  ghost predicate ShowsLatest(now: NowPlaying, ops: seq<Op>, s: ZoneId) {
    && now.title == LatestGiven(ops, op => TitleGiven(s, op))
    && now.artist == LatestGiven(ops, op => ArtistGiven(s, op))
    && now.album == LatestGiven(ops, op => AlbumGiven(s, op))
    && now.client == LatestGiven(ops, op => ClientGiven(s, op))
    && now.artId == LatestGiven(ops, op => ArtGiven(s, op))
  }

  lemma {:induction false} UpdatesShowLatest(ops: seq<Op>, s: ZoneId)
    ensures ShowsLatest(AllUpdates(ops, s), ops, s)
    decreases |ops|
  {
    if ops == [] {
    } else {
      UpdatesShowLatest(ops[..|ops| - 1], s);
    }
  }

  /**
   In any run, each field that a source in session shows is the latest given since its `session_began`, and the
   client the latest that was not empty.
   */
  lemma {:induction false} LatestSinceBegan(ops: seq<Op>, states: seq<State>, s: ZoneId, n: nat)
    requires IsRun(ops, states) && n <= |ops|
    requires s in states[n].sources && states[n].sources[s].active
    ensures ShowsLatest(states[n].sources[s].now, SinceBegan(ops[..n], s), s)
  {
    ShownSinceBegan(ops, states, s, n);
    UpdatesShowLatest(SinceBegan(ops[..n], s), s);
  }

  /** In session or not: a known source is blanked by the calls of its bracket, and updated by every update for it. */
  lemma {:induction false} EverySourceIsUpdated(st: State, op: Op, s: ZoneId)
    requires s in st.sources && s in Step(st, op).sources
    ensures Step(st, op).sources[s].now == if OfSession(op, s) then NOTHING else Updated(st.sources[s].now, op, s)
  {
    if op.OpSessionBegan? || op.OpSessionEnded? {
      BracketText(st, op, s);
    } else if op.OpTrackUpdate? || op.OpArtUpdate? {
      UpdateText(st, op, s);
    } else {
      OtherStepsKeepText(st, op);
    }
  }

  lemma {:induction false} BracketText(st: State, op: Op, s: ZoneId)
    requires s in st.sources && (op.OpSessionBegan? || op.OpSessionEnded?)
    ensures s in Step(st, op).sources
    ensures Step(st, op).sources[s].now == if OfSession(op, s) then NOTHING else st.sources[s].now
  {
    var t := op.source;
    if t in st.sources {
      if op.OpSessionBegan? {
        BeganText(st, t);
      } else {
        EndedText(st, t);
      }
    }
  }

  lemma {:induction false} UpdateText(st: State, op: Op, s: ZoneId)
    requires s in st.sources && (op.OpTrackUpdate? || op.OpArtUpdate?)
    ensures s in Step(st, op).sources && Step(st, op).sources[s].now == Updated(st.sources[s].now, op, s)
    ensures Step(st, op).sources[s].active == st.sources[s].active
  {
  }

  // ----- The session bracket ----------------------------------------------------------------------

  predicate OfSession(op: Op, s: ZoneId) { op == OpSessionBegan(s) || op == OpSessionEnded(s) }

  /** The begin and end calls of one source, in order. */
  function SessionCalls(ops: seq<Op>, s: ZoneId): (calls: seq<Op>) {
    if ops == [] then []
    else SessionCalls(ops[..|ops| - 1], s) + (if OfSession(ops[|ops| - 1], s) then [ops[|ops| - 1]] else [])
  }

  /** What the receiver of `s` makes: a begin, its end, the next begin, and so on. */
  predicate Alternate(calls: seq<Op>, s: ZoneId) {
    forall i :: 0 <= i < |calls| ==> calls[i] == if i % 2 == 0 then OpSessionBegan(s) else OpSessionEnded(s)
  }

  /** A session of `s` has begun and not ended. */
  predicate UnderWay(ops: seq<Op>, s: ZoneId) {
    var calls := SessionCalls(ops, s);
    calls != [] && calls[|calls| - 1] == OpSessionBegan(s)
  }

  /** A source is active only while a session of its is under way. */
  lemma {:induction false} ActiveOnlyUnderWay(ops: seq<Op>, states: seq<State>, n: nat, s: ZoneId)
    requires IsRun(ops, states) && n <= |ops| && s in states[n].sources && states[n].sources[s].active
    ensures UnderWay(ops[..n], s)
  {
    if n == 0 {
    } else {
      var op := ops[n - 1];
      assert ops[..n][..n - 1] == ops[..n - 1] && ops[..n][n - 1] == op;
      if op != OpSessionBegan(s) {
        StepActivates(states[n - 1], op, states[n], s);
        ActiveOnlyUnderWay(ops, states, n - 1, s);
      }
    }
  }

  lemma {:induction false} StepActivates(st: State, op: Op, st': State, s: ZoneId)
    requires st' == Step(st, op) && s in st'.sources && st'.sources[s].active && op != OpSessionBegan(s)
    ensures s in st.sources && st.sources[s].active && op != OpSessionEnded(s)
  {
    StepShows(st, op, s);
    if op == OpSessionEnded(s) {
      EndedText(st, s);
    }
  }

  lemma {:induction false} CallsOfPrefix(ops: seq<Op>, n: nat, s: ZoneId)
    requires n <= |ops|
    ensures SessionCalls(ops[..n], s) <= SessionCalls(ops, s)
    decreases |ops|
  {
    if n == |ops| {
      assert ops[..n] == ops;
    } else {
      var front := ops[..|ops| - 1];
      assert front[..n] == ops[..n];
      CallsOfPrefix(front, n, s);
    }
  }

  /** In every run in which the begins and ends of each source alternate, every begin is safe. */
  lemma {:induction false} AlternatingBeginsAreSafe(ops: seq<Op>, states: seq<State>, n: nat)
    requires IsRun(ops, states) && n < |ops| && ops[n].OpSessionBegan?
    requires Alternate(SessionCalls(ops, ops[n].source), ops[n].source)
    ensures MayBegin(states[n], ops[n].source)
  {
    var s := ops[n].source;
    CallsOfPrefix(ops, n + 1, s);
    assert ops[..n + 1][..n] == ops[..n];
    var before := SessionCalls(ops[..n], s);
    assert SessionCalls(ops[..n + 1], s) == before + [ops[n]];
    assert Alternate(before + [ops[n]], s);
    assert (before + [ops[n]])[|before|] == OpSessionBegan(s);
    assert before != [] ==> (before + [ops[n]])[|before| - 1] == OpSessionEnded(s);
    if s in states[n].sources && states[n].sources[s].active {
      ActiveOnlyUnderWay(ops, states, n, s);
      assert false;
    }
    RunsStayTidy(ops, states, n);
  }

  // ----- Album art ------------------------------------------------------------------------------

  /** Every art id a source carries is the id of the image cached for it; ids are content hashes. */
  ghost predicate ArtCached(st: State, digest: Image -> Text) {
    && (forall s :: s in st.sources && st.sources[s].now.artId != EMPTY ==>
          s in st.art && st.art[s].artId == st.sources[s].now.artId)
    && (forall s :: s in st.art ==> st.art[s].artId == digest(st.art[s].image))
  }

  /** `get_art` answers with some cached image of that id, whichever the map lists first. */
  ghost predicate Fetches(st: State, artId: Text, r: Option<(Text, Image)>) {
    match r
    case None => forall s :: s in st.art ==> st.art[s].artId != artId
    case Some((mime, image)) => exists s :: s in st.art && st.art[s] == Art(artId, mime, image)
  }

  ghost predicate Hashed(op: Op, digest: Image -> Text) {
    op.OpArtUpdate? ==> op.artId == digest(op.image)
  }

  lemma {:induction false} UpdateKeepsArt(st: State, op: Op, digest: Image -> Text)
    requires ArtCached(st, digest) && Hashed(op, digest) && (op.OpTrackUpdate? || op.OpArtUpdate?)
    ensures ArtCached(Step(st, op), digest)
  {
  }

  lemma {:induction false} SessionKeepsArt(st: State, op: Op, digest: Image -> Text)
    requires ArtCached(st, digest) && (op.OpSessionBegan? || op.OpSessionEnded?)
    ensures ArtCached(Step(st, op), digest)
  {
    match op {
      case OpSessionBegan(t) => if t in st.sources { BeganText(st, t); }
      case OpSessionEnded(t) => if t in st.sources { EndedText(st, t); }
    }
  }

  lemma {:induction false} StepKeepsArt(st: State, op: Op, st': State, digest: Image -> Text)
    requires ArtCached(st, digest) && Hashed(op, digest) && st' == Step(st, op)
    ensures ArtCached(st', digest)
  {
    match op {
      case OpSessionBegan(_) => SessionKeepsArt(st, op, digest);
      case OpSessionEnded(_) => SessionKeepsArt(st, op, digest);
      case OpTrackUpdate(_, _, _, _, _) => UpdateKeepsArt(st, op, digest);
      case OpArtUpdate(_, _, _) => UpdateKeepsArt(st, op, digest);
      case _ => OtherStepsKeepText(st, op);
    }
  }

  /** Art is served as what its first bytes say it is. */
  lemma {:induction false} MimeIsTold(image: Image, rest: Image)
    ensures SniffMime([0xFF, 0xD8, 0xFF] + rest) == JPEG
    ensures SniffMime([0x89, 'P' as int, 'N' as int, 'G' as int] + rest) == PNG
    ensures SniffMime(image) == JPEG ==> |image| >= 3 && image[..3] == [0xFF, 0xD8, 0xFF]
    ensures SniffMime(image) == PNG ==> |image| >= 4 && image[..4] == [0x89, 'P' as int, 'N' as int, 'G' as int]
    ensures SniffMime(image) in {JPEG, PNG, OCTET_STREAM} && JPEG != PNG && JPEG != OCTET_STREAM && PNG != OCTET_STREAM
  {
    assert ([0xFF, 0xD8, 0xFF] + rest)[..3] == [0xFF, 0xD8, 0xFF];
    var png := [0x89, 'P' as int, 'N' as int, 'G' as int];
    assert (png + rest)[..4] == png && (png + rest)[0] == 0x89;
  }

  /** Every cached image is kept under the mime its own bytes tell. */
  ghost predicate MimesTold(st: State) { forall s :: s in st.art ==> st.art[s].mime == SniffMime(st.art[s].image) }

  lemma {:induction false} StepKeepsMimes(st: State, op: Op, st': State)
    requires MimesTold(st) && st' == Step(st, op)
    ensures MimesTold(st')
  {
    match op {
      case OpSessionBegan(t) => if t in st.sources { BeganText(st, t); }
      case OpSessionEnded(t) => if t in st.sources { EndedText(st, t); }
      case OpTrackUpdate(_, _, _, _, _) =>
      case OpArtUpdate(_, _, _) =>
      case _ => OtherStepsKeepText(st, op);
    }
  }

  /** In any run, an image fetched is served under the mime its bytes tell. */
  lemma {:induction false} FetchedMimeIsTold(ops: seq<Op>, states: seq<State>, n: nat, artId: Text,
                                             r: Option<(Text, Image)>)
    requires IsRun(ops, states) && n <= |ops| && Fetches(states[n], artId, r) && r.Some?
    ensures r.value.0 == SniffMime(r.value.1)
  {
    RunKeepsMimes(ops, states, n);
  }

  lemma {:induction false} RunKeepsMimes(ops: seq<Op>, states: seq<State>, n: nat)
    requires IsRun(ops, states) && n <= |ops|
    ensures MimesTold(states[n])
  {
    assert Initial().art == map[];
    forall st, op | MimesTold(st) ensures MimesTold(Step(st, op)) {
      StepKeepsMimes(st, op, Step(st, op));
    }
    RunsKeep(ops, states, n, MimesTold, _ => true);
  }

  /** In any run, an art id some source shows is fetched, and the image fetched has that hash. */
  lemma {:induction false} ShownArtIsFetched(ops: seq<Op>, states: seq<State>, digest: Image -> Text, n: nat,
                                             s: ZoneId, r: Option<(Text, Image)>)
    requires IsRun(ops, states) && n <= |ops| && forall op :: op in ops ==> Hashed(op, digest)
    requires s in states[n].sources && states[n].sources[s].now.artId != EMPTY
    requires Fetches(states[n], states[n].sources[s].now.artId, r)
    ensures r.Some? && digest(r.value.1) == states[n].sources[s].now.artId
  {
    RunKeepsArt(ops, states, digest, n);
  }

  lemma {:induction false} RunKeepsArt(ops: seq<Op>, states: seq<State>, digest: Image -> Text, n: nat)
    requires IsRun(ops, states) && n <= |ops| && forall op :: op in ops ==> Hashed(op, digest)
    ensures ArtCached(states[n], digest)
  {
    var cached, hashed := (st: State) => ArtCached(st, digest), (op: Op) => Hashed(op, digest);
    assert Initial().art == map[];
    forall st, op | cached(st) && hashed(op) ensures cached(Step(st, op)) {
      StepKeepsArt(st, op, Step(st, op), digest);
    }
    RunsKeep(ops, states, n, cached, hashed);
  }
}
