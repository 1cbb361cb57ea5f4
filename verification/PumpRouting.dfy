/**
 Where the audio of an AirPlay session goes (`pump_open`, src/audio/airplay.rs), for any split of the stream
 into reads, any routing of the reads and any resamplers that cannot be built. What a session should do is told
 from the reads and the routes alone; the theorems say that the log of the pump is that, frame by frame.
 */
module PumpRouting {
  import opened Sequences
  import opened Wrappers
  import opened Framing
  import opened Pcm
  import opened Pump

  // ----- The frames of the stream -----------------------------------------------------------------

  /** The buffer that read `n` is added to is what no whole frame has been made of. */
  function BufferAt(chunks: seq<seq<byte>>, n: nat): (buffer: seq<byte>)
    requires n < |chunks|
  {
    Rest(Joined(chunks[..n]), FRAME_BYTES) + chunks[n]
  }

  /** The whole frames that read `n` completes. */
  function FramesOf(chunks: seq<seq<byte>>, n: nat): (frames: seq<Frame>)
    requires n < |chunks|
    ensures OfWidth(frames, AIRPLAY_CHANNELS)
  {
    DecodeFrames(BufferAt(chunks, n), AIRPLAY_CHANNELS)
  }

  /** A frame of the stream, and where the read that completed it was routed. */
  datatype Routed = Routed(frame: Frame, route: Option<Sink>)

  function Tagged(frames: seq<Frame>, route: Option<Sink>): (all: seq<Routed>)
    ensures |all| == |frames| && forall i :: 0 <= i < |frames| ==> all[i] == Routed(frames[i], route)
  {
    seq(|frames|, i requires 0 <= i < |frames| => Routed(frames[i], route))
  }

  function FramesIn(all: seq<Routed>): (frames: seq<Frame>)
    ensures |frames| == |all| && forall i :: 0 <= i < |all| ==> frames[i] == all[i].frame
  {
    seq(|all|, i requires 0 <= i < |all| => all[i].frame)
  }

  /** Every whole frame with its route, in order. */
  function Routing(chunks: seq<seq<byte>>, routes: seq<Option<Sink>>): (all: seq<Routed>)
    requires |chunks| == |routes|
  {
    if chunks == [] then []
    else
      var n := |chunks| - 1;
      Routing(chunks[..n], routes[..n]) + Tagged(FramesOf(chunks, n), routes[n])
  }

  lemma {:induction false} MapBlocksConcat(a: seq<seq<byte>>, b: seq<seq<byte>>, channels: nat)
    requires forall block :: block in a + b ==> |block| == 2 * channels
    ensures (forall block :: block in a ==> block in a + b) && forall block :: block in b ==> block in a + b
    ensures MapBlocks(a + b, channels) == MapBlocks(a, channels) + MapBlocks(b, channels)
  {
  }

  lemma {:induction false} DecodingMayPause(a: seq<byte>, b: seq<byte>)
    ensures DecodeFrames(a + b, AIRPLAY_CHANNELS) ==
            DecodeFrames(a, AIRPLAY_CHANNELS) + DecodeFrames(Rest(a, FRAME_BYTES) + b, AIRPLAY_CHANNELS)
  {
    var later := Rest(a, FRAME_BYTES) + b;
    BlocksMayPause(a, b, FRAME_BYTES);
    BlocksAre(a, FRAME_BYTES);
    BlocksAre(later, FRAME_BYTES);
    MapBlocksConcat(Blocks(a, FRAME_BYTES), Blocks(later, FRAME_BYTES), AIRPLAY_CHANNELS);
  }

  lemma {:induction false} FramesInConcat(all: seq<Routed>, frames: seq<Frame>, route: Option<Sink>)
    ensures FramesIn(all + Tagged(frames, route)) == FramesIn(all) + frames
  {
  }

  /** However the stream is split, each of its whole frames is routed once, in order, and nothing else is. */
  lemma {:induction false} EveryFrameOnce(chunks: seq<seq<byte>>, routes: seq<Option<Sink>>)
    requires |chunks| == |routes|
    ensures FramesIn(Routing(chunks, routes)) == DecodeFrames(Joined(chunks), AIRPLAY_CHANNELS)
    ensures |Rest(Joined(chunks), FRAME_BYTES)| < FRAME_BYTES
    decreases |chunks|
  {
    BlocksAre(Joined(chunks), FRAME_BYTES);
    if chunks == [] {
      DecodeOneMore([], AIRPLAY_CHANNELS);
    } else {
      var n := |chunks| - 1;
      EveryFrameOnce(chunks[..n], routes[..n]);
      DecodingMayPause(Joined(chunks[..n]), chunks[n]);
      FramesInConcat(Routing(chunks[..n], routes[..n]), FramesOf(chunks, n), routes[n]);
    }
  }

  /** While nothing fails, what is carried is less than a frame: the end of the stream so far. */
  lemma {:induction false} RemainderIsTheEnd(chunks: seq<seq<byte>>, routes: seq<Option<Sink>>, builds: Builder)
    requires |chunks| == |routes| && Routable(routes)
    ensures var st := AfterReads(chunks, routes, builds);
            !st.failed ==> st.remainder == Rest(Joined(chunks), FRAME_BYTES)
    decreases |chunks|
  {
    if chunks == [] {
      BlocksStep<byte>([], FRAME_BYTES);
    } else {
      var n := |chunks| - 1;
      RemainderIsTheEnd(chunks[..n], routes[..n], builds);
      BlocksMayPause(Joined(chunks[..n]), chunks[n], FRAME_BYTES);
      BlocksStep(BufferAt(chunks, n), FRAME_BYTES);
    }
  }

  // ----- What should become of them ---------------------------------------------------------------

  /** A frame on its way to a sink. */
  datatype Sent = Sent(frame: Frame, sink: Sink)

  function SentTo(frames: seq<Frame>, sink: Sink): (sent: seq<Sent>)
    ensures |sent| == |frames| && forall i :: 0 <= i < |frames| ==> sent[i] == Sent(frames[i], sink)
  {
    seq(|frames|, i requires 0 <= i < |frames| => Sent(frames[i], sink))
  }

  /** The frames that were routed somewhere. */
  function Kept(all: seq<Routed>): (sent: seq<Sent>) {
    if all == [] then []
    else
      var n := |all| - 1;
      Kept(all[..n]) + (if all[n].route.Some? then [Sent(all[n].frame, all[n].route.value)] else [])
  }

  lemma {:induction false} KeptConcat(a: seq<Routed>, b: seq<Routed>)
    ensures Kept(a + b) == Kept(a) + Kept(b)
    decreases |b|
  {
    if b == [] {
      assert a + b == a;
    } else {
      var n := |b| - 1;
      KeptConcat(a, b[..n]);
      assert (a + b)[..|a + b| - 1] == a + b[..n];
    }
  }

  lemma {:induction false} KeptOfTagged(frames: seq<Frame>, route: Option<Sink>)
    ensures Kept(Tagged(frames, route)) == if route.Some? then SentTo(frames, route.value) else []
    decreases |frames|
  {
    if frames == [] {
      assert Tagged(frames, route) == [];
    } else {
      var n := |frames| - 1;
      KeptOfTagged(frames[..n], route);
      assert Tagged(frames, route)[..n] == Tagged(frames[..n], route);
    }
  }

  /** A stretch of a session in which one pipeline is used: its format, and the frames routed to it. */
  datatype Segment = Segment(rate: nat, channels: nat, sent: seq<Sent>)

  predicate SameFormat(segment: Segment, sink: Sink) {
    segment.rate == sink.rate && segment.channels == sink.channels
  }

  function Last<T>(s: seq<T>): (last: T)
    requires s != []
  {
    s[|s| - 1]
  }

  function Front<T>(s: seq<T>): (front: seq<T>)
    requires s != []
  {
    s[..|s| - 1]
  }

  predicate Continues(segments: seq<Segment>, sink: Sink) {
    segments != [] && SameFormat(Last(segments), sink)
  }

  /** Frames for a sink of the format of the last segment go on with it; others begin a new one. */
  function Extended(segments: seq<Segment>, frames: seq<Frame>, sink: Sink): (r: seq<Segment>) {
    if Continues(segments, sink)
    then Front(segments) + [Last(segments).(sent := Last(segments).sent + SentTo(frames, sink))]
    else segments + [Segment(sink.rate, sink.channels, SentTo(frames, sink))]
  }

  /** The segments of a session, from its reads and its routes. */
  function Segments(chunks: seq<seq<byte>>, routes: seq<Option<Sink>>): (segments: seq<Segment>)
    requires |chunks| == |routes|
  {
    if chunks == [] then []
    else
      var n := |chunks| - 1;
      var before := Segments(chunks[..n], routes[..n]);
      if routes[n].None? || |BufferAt(chunks, n)| < FRAME_BYTES then before
      else Extended(before, FramesOf(chunks, n), routes[n].value)
  }

  function AllSent(segments: seq<Segment>): (sent: seq<Sent>) {
    if segments == [] then [] else AllSent(Front(segments)) + Last(segments).sent
  }

  lemma {:induction false} AllSentExtended(segments: seq<Segment>, frames: seq<Frame>, sink: Sink)
    ensures AllSent(Extended(segments, frames, sink)) == AllSent(segments) + SentTo(frames, sink)
  {
    var r := Extended(segments, frames, sink);
    if Continues(segments, sink) {
      assert Front(r) == Front(segments);
    } else {
      assert Front(r) == segments;
    }
  }

  /** The segments hold the frames that were routed somewhere, each once and in order. */
  lemma {:induction false} SegmentsHoldAllRouted(chunks: seq<seq<byte>>, routes: seq<Option<Sink>>)
    requires |chunks| == |routes|
    ensures AllSent(Segments(chunks, routes)) == Kept(Routing(chunks, routes))
    decreases |chunks|
  {
    if chunks == [] {
    } else {
      var n := |chunks| - 1;
      SegmentsHoldAllRouted(chunks[..n], routes[..n]);
      KeptConcat(Routing(chunks[..n], routes[..n]), Tagged(FramesOf(chunks, n), routes[n]));
      KeptOfTagged(FramesOf(chunks, n), routes[n]);
      DecodeOneMore(BufferAt(chunks, n), AIRPLAY_CHANNELS);
      if routes[n].Some? {
        AllSentExtended(Segments(chunks[..n], routes[..n]), FramesOf(chunks, n), routes[n].value);
      }
    }
  }

  // ----- What did become of them ------------------------------------------------------------------

  function MixedOf(sent: seq<Sent>, channels: nat): (mixed: seq<Frame>)
    ensures |mixed| == |sent| && OfWidth(mixed, channels)
    ensures forall i :: 0 <= i < |sent| ==> mixed[i] == MixFrame(sent[i].frame, channels)
  {
    seq(|sent|, i requires 0 <= i < |sent| => MixFrame(sent[i].frame, channels))
  }

  /** A sample written to a sink. */
  datatype Heard = Heard(sink: Sink, sample: real)

  function HeardBy(sink: Sink, samples: seq<real>): (heard: seq<Heard>)
    ensures |heard| == |samples| && forall i :: 0 <= i < |samples| ==> heard[i] == Heard(sink, samples[i])
  {
    seq(|samples|, i requires 0 <= i < |samples| => Heard(sink, samples[i]))
  }

  /** All samples written, in order. */
  function HeardIn(log: seq<Emission>): (heard: seq<Heard>) {
    if log == [] then []
    else HeardIn(Front(log)) + HeardInOne(Last(log))
  }

  function HeardInOne(e: Emission): (heard: seq<Heard>) { if e.Written? then HeardBy(e.sink, e.samples) else [] }

  /** The samples of frames, mixed and interleaved, each for the sink its frame was routed to. */
  function Spread(sent: seq<Sent>, channels: nat): (heard: seq<Heard>) {
    if sent == [] then []
    else Spread(Front(sent), channels) + HeardBy(Last(sent).sink, MixFrame(Last(sent).frame, channels))
  }

  /** How many of a segment's frames have been passed on. */
  function Arrived(segment: Segment): (n: nat)
    ensures n <= |segment.sent| < n + RESAMPLE_CHUNK
  {
    if segment.rate == AIRPLAY_SAMPLE_RATE then |segment.sent|
    else |segment.sent| / RESAMPLE_CHUNK * RESAMPLE_CHUNK
  }

  /** Chunk `k` of a segment, for the sink of the frame that completes it. */
  function ChunkOf(segment: Segment, k: nat): (e: Emission)
    requires (k + 1) * RESAMPLE_CHUNK <= |segment.sent|
  {
    var from := k * RESAMPLE_CHUNK;
    Resampled(segment.sent[from + RESAMPLE_CHUNK - 1].sink,
              Planes(MixedOf(segment.sent[from..from + RESAMPLE_CHUNK], segment.channels), segment.channels))
  }

  ghost predicate OnlyWritten(log: seq<Emission>) {
    forall e :: e in log ==> e.Written?
  }

  ghost predicate ChunksInOrder(log: seq<Emission>, segment: Segment) {
    && |log| == |segment.sent| / RESAMPLE_CHUNK
    && forall k :: 0 <= k < |log| ==> log[k] == ChunkOf(segment, k)
  }

  /**
   At the AirPlay rate the samples written are those of all the segment's frames, each to the sink its frame
   was routed to. At another rate the resampler is given the 1024-frame chunks of the segment, each for the sink
   of the frame that completes it.
   */
  ghost predicate Reached(log: seq<Emission>, segment: Segment) {
    if segment.rate == AIRPLAY_SAMPLE_RATE
    then OnlyWritten(log) && HeardIn(log) == Spread(segment.sent, segment.channels)
    else ChunksInOrder(log, segment)
  }

  /** The log falls into parts, one after the other, a part for each segment. */
  ghost predicate ReachedEach(log: seq<Emission>, segments: seq<Segment>) {
    exists parts :: Joined(parts) == log && PartsReach(parts, segments)
  }

  ghost predicate PartsReach(parts: seq<seq<Emission>>, segments: seq<Segment>) {
    |parts| == |segments| && forall i :: 0 <= i < |parts| ==> Reached(parts[i], segments[i])
  }

  /** The pipeline is the one of the last segment, and has pending what has not been passed on. */
  predicate HoldsLast(pipe: Option<Pipe>, segments: seq<Segment>) {
    if segments == [] then pipe.None?
    else
      var last := Last(segments);
      pipe == Some(Pipe(last.rate, last.channels, MixedOf(last.sent[Arrived(last)..], last.channels)))
  }

  // ----- One push ---------------------------------------------------------------------------------

  lemma {:induction false} HeardConcat(a: seq<Emission>, e: Emission)
    requires e.Written?
    ensures HeardIn(a + [e]) == HeardIn(a) + HeardBy(e.sink, e.samples)
  {
    assert Front(a + [e]) == a;
  }

  lemma {:induction false} SpreadOneMore(sent: seq<Sent>, frames: seq<Frame>, sink: Sink, channels: nat)
    requires frames != []
    ensures Spread(sent + SentTo(frames, sink), channels)
            == Spread(sent + SentTo(Front(frames), sink), channels) + HeardBy(sink, MixFrame(Last(frames), channels))
  {
    assert Front(sent + SentTo(frames, sink)) == sent + SentTo(Front(frames), sink);
    assert Last(sent + SentTo(frames, sink)) == Sent(Last(frames), sink);
  }

  lemma {:induction false} FlatOneMore(frames: seq<Frame>, channels: nat)
    requires frames != []
    ensures Flat(MixAll(frames, channels)) == Flat(MixAll(Front(frames), channels)) + MixFrame(Last(frames), channels)
  {
    assert MixAll(frames, channels)[..|frames| - 1] == MixAll(Front(frames), channels);
  }

  lemma {:induction false} SpreadOnward(sent: seq<Sent>, frames: seq<Frame>, sink: Sink, channels: nat)
    ensures Spread(sent + SentTo(frames, sink), channels)
            == Spread(sent, channels) + HeardBy(sink, Flat(MixAll(frames, channels)))
    decreases |frames|
  {
    if frames == [] {
      assert sent + SentTo(frames, sink) == sent;
    } else {
      var n := |frames| - 1;
      SpreadOnward(sent, frames[..n], sink, channels);
      SpreadOneMore(sent, frames, sink, channels);
      FlatOneMore(frames, channels);
      HeardOfConcat(sink, Flat(MixAll(frames[..n], channels)), MixFrame(frames[n], channels));
      Regroup(Spread(sent, channels), HeardBy(sink, Flat(MixAll(frames[..n], channels))),
              HeardBy(sink, MixFrame(frames[n], channels)));
    }
  }

  lemma {:induction false} HeardOfConcat(sink: Sink, a: seq<real>, b: seq<real>)
    ensures HeardBy(sink, a + b) == HeardBy(sink, a) + HeardBy(sink, b)
  {
  }

  lemma {:induction false} MixedOfSentTo(frames: seq<Frame>, sink: Sink, channels: nat)
    ensures MixedOf(SentTo(frames, sink), channels) == MixAll(frames, channels)
  {
  }

  lemma {:induction false} MixedOfConcat(a: seq<Sent>, b: seq<Sent>, channels: nat)
    ensures MixedOf(a + b, channels) == MixedOf(a, channels) + MixedOf(b, channels)
  {
  }

  lemma {:induction false} MixedOfSlice(sent: seq<Sent>, from: nat, to: nat, channels: nat)
    requires from <= to <= |sent|
    ensures MixedOf(sent, channels)[from..to] == MixedOf(sent[from..to], channels)
  {
  }

  lemma {:induction false} BlockCount(frames: seq<Frame>, m: nat)
    requires m * RESAMPLE_CHUNK <= |frames| < (m + 1) * RESAMPLE_CHUNK
    ensures |Blocks(frames, RESAMPLE_CHUNK)| == m
    ensures Rest(frames, RESAMPLE_CHUNK) == frames[m * RESAMPLE_CHUNK..]
    decreases m
  {
    BlocksStep(frames, RESAMPLE_CHUNK);
    if m == 0 {
    } else {
      BlockCount(frames[RESAMPLE_CHUNK..], m - 1);
      DropTwice(frames, RESAMPLE_CHUNK, (m - 1) * RESAMPLE_CHUNK);
    }
  }

  lemma {:induction false} BlockShift(frames: seq<Frame>, k: nat)
    requires |frames| >= RESAMPLE_CHUNK && k < |Blocks(frames[RESAMPLE_CHUNK..], RESAMPLE_CHUNK)|
    ensures k + 1 < |Blocks(frames, RESAMPLE_CHUNK)|
    ensures Blocks(frames, RESAMPLE_CHUNK)[k + 1] == Blocks(frames[RESAMPLE_CHUNK..], RESAMPLE_CHUNK)[k]
  {
    BlocksStep(frames, RESAMPLE_CHUNK);
  }

  lemma {:induction false} BlockAt(frames: seq<Frame>, k: nat)
    requires (k + 1) * RESAMPLE_CHUNK <= |frames|
    ensures k < |Blocks(frames, RESAMPLE_CHUNK)|
    ensures Blocks(frames, RESAMPLE_CHUNK)[k] == frames[k * RESAMPLE_CHUNK..(k + 1) * RESAMPLE_CHUNK]
    decreases k
  {
    if k == 0 {
      BlocksStep(frames, RESAMPLE_CHUNK);
    } else {
      BlockAt(frames[RESAMPLE_CHUNK..], k - 1);
      BlockShift(frames, k - 1);
      SliceOfDrop(frames, RESAMPLE_CHUNK, (k - 1) * RESAMPLE_CHUNK, k * RESAMPLE_CHUNK);
    }
  }

  lemma {:induction false} SliceOfDrop<T>(s: seq<T>, n: nat, from: nat, to: nat)
    requires from <= to && n + to <= |s|
    ensures s[n..][from..to] == s[n + from..n + to]
  {
  }

  lemma {:induction false} PushWrites(log: seq<Emission>, segment: Segment, frames: seq<Frame>, sink: Sink)
    requires SameFormat(segment, sink) && !Resamples(sink) && Reached(log, segment)
    ensures Reached(log + [Written(sink, Flat(MixAll(frames, sink.channels)))],
                    segment.(sent := segment.sent + SentTo(frames, sink)))
  {
    HeardConcat(log, Written(sink, Flat(MixAll(frames, sink.channels))));
    SpreadOnward(segment.sent, frames, sink, sink.channels);
  }

  /** Chunk `k` of what is left over is chunk `q + k` of the whole. */
  lemma {:induction false} ChunkOfLeft(sent: seq<Sent>, q: nat, k: nat, channels: nat)
    requires (q + k + 1) * RESAMPLE_CHUNK <= |sent|
    ensures MixedOf(sent[q * RESAMPLE_CHUNK..], channels)[k * RESAMPLE_CHUNK..(k + 1) * RESAMPLE_CHUNK]
            == MixedOf(sent[(q + k) * RESAMPLE_CHUNK..(q + k) * RESAMPLE_CHUNK + RESAMPLE_CHUNK], channels)
  {
    MixedOfSlice(sent[q * RESAMPLE_CHUNK..], k * RESAMPLE_CHUNK, (k + 1) * RESAMPLE_CHUNK, channels);
    SliceOfDrop(sent, q * RESAMPLE_CHUNK, k * RESAMPLE_CHUNK, (k + 1) * RESAMPLE_CHUNK);
  }

  /** A chunk of the longer segment that was no chunk of the shorter one. */
  lemma {:induction false} NewChunk(segment: Segment, frames: seq<Frame>, sink: Sink, k: nat)
    requires SameFormat(segment, sink) && Resamples(sink)
    requires k < (|segment.sent[Arrived(segment)..]| + |frames|) / RESAMPLE_CHUNK
    ensures var longer := segment.(sent := segment.sent + SentTo(frames, sink));
            var left := MixedOf(segment.sent[Arrived(segment)..], sink.channels) + MixAll(frames, sink.channels);
            var at := |segment.sent| / RESAMPLE_CHUNK + k;
            && (at + 1) * RESAMPLE_CHUNK <= |longer.sent|
            && ChunkOf(longer, at)
               == Resampled(sink, Planes(left[k * RESAMPLE_CHUNK..(k + 1) * RESAMPLE_CHUNK], sink.channels))
  {
    var longer, q := segment.sent + SentTo(frames, sink), |segment.sent| / RESAMPLE_CHUNK;
    LeftOver(segment, frames, sink);
    ChunkOfLeft(longer, q, k, sink.channels);
    assert longer[(q + k) * RESAMPLE_CHUNK + RESAMPLE_CHUNK - 1].sink == sink;
  }

  lemma {:induction false} LeftOver(segment: Segment, frames: seq<Frame>, sink: Sink)
    ensures var longer := segment.sent + SentTo(frames, sink);
            MixedOf(longer[Arrived(segment)..], sink.channels)
            == MixedOf(segment.sent[Arrived(segment)..], sink.channels) + MixAll(frames, sink.channels)
  {
    var longer := segment.sent + SentTo(frames, sink);
    assert longer[Arrived(segment)..] == segment.sent[Arrived(segment)..] + SentTo(frames, sink);
    MixedOfConcat(segment.sent[Arrived(segment)..], SentTo(frames, sink), sink.channels);
    MixedOfSentTo(frames, sink, sink.channels);
  }

  lemma {:induction false} OldChunk(segment: Segment, more: seq<Sent>, k: nat)
    requires (k + 1) * RESAMPLE_CHUNK <= |segment.sent|
    ensures ChunkOf(segment.(sent := segment.sent + more), k) == ChunkOf(segment, k)
  {
    var from := k * RESAMPLE_CHUNK;
    assert (segment.sent + more)[from..from + RESAMPLE_CHUNK] == segment.sent[from..from + RESAMPLE_CHUNK];
  }

  /** What is given to the resampler now is the next chunks of the segment. */
  lemma {:induction false} PushedChunk(segment: Segment, frames: seq<Frame>, sink: Sink, k: nat)
    requires SameFormat(segment, sink) && Resamples(sink)
    requires k < (|segment.sent[Arrived(segment)..]| + |frames|) / RESAMPLE_CHUNK
    ensures var longer := segment.(sent := segment.sent + SentTo(frames, sink));
            var out := Pushed(MixedOf(segment.sent[Arrived(segment)..], sink.channels),
                              MixAll(frames, sink.channels), true, sink, sink.channels).0;
            && (|segment.sent| / RESAMPLE_CHUNK + k + 1) * RESAMPLE_CHUNK <= |longer.sent|
            && k < |out| && out[k] == ChunkOf(longer, |segment.sent| / RESAMPLE_CHUNK + k)
  {
    var left := MixedOf(segment.sent[Arrived(segment)..], sink.channels) + MixAll(frames, sink.channels);
    BlocksKeepWidth(left, RESAMPLE_CHUNK, sink.channels);
    BlockAt(left, k);
    NewChunk(segment, frames, sink, k);
  }

  /** What is left of the longer segment, told from what was left of the shorter one. */
  lemma {:induction false} LeftAfter(segment: Segment, frames: seq<Frame>, sink: Sink, m: nat)
    requires SameFormat(segment, sink) && Resamples(sink)
    requires m == (|segment.sent[Arrived(segment)..]| + |frames|) / RESAMPLE_CHUNK
    ensures var longer := segment.(sent := segment.sent + SentTo(frames, sink));
            var left := MixedOf(longer.sent[Arrived(segment)..], sink.channels);
            && Arrived(segment) + m * RESAMPLE_CHUNK == Arrived(longer) && m * RESAMPLE_CHUNK <= |left|
            && left[m * RESAMPLE_CHUNK..] == MixedOf(longer.sent[Arrived(longer)..], sink.channels)
  {
    var longer := segment.(sent := segment.sent + SentTo(frames, sink));
    var left := longer.sent[Arrived(segment)..];
    MixedOfSlice(left, m * RESAMPLE_CHUNK, |left|, sink.channels);
    DropTwice(longer.sent, Arrived(segment), m * RESAMPLE_CHUNK);
  }

  lemma {:induction false} PushCounts(segment: Segment, frames: seq<Frame>, sink: Sink)
    requires SameFormat(segment, sink) && Resamples(sink)
    ensures var longer := segment.(sent := segment.sent + SentTo(frames, sink));
            var pending := segment.sent[Arrived(segment)..];
            var pushed := Pushed(MixedOf(pending, sink.channels), MixAll(frames, sink.channels), true, sink,
                                 sink.channels);
            && |pushed.0| == (|pending| + |frames|) / RESAMPLE_CHUNK
            && |longer.sent| / RESAMPLE_CHUNK == |segment.sent| / RESAMPLE_CHUNK + |pushed.0|
            && pushed.1 == MixedOf(longer.sent[Arrived(longer)..], sink.channels)
  {
    var pending := segment.sent[Arrived(segment)..];
    var all := MixedOf(pending, sink.channels) + MixAll(frames, sink.channels);
    var m := (|pending| + |frames|) / RESAMPLE_CHUNK;
    BlocksKeepWidth(all, RESAMPLE_CHUNK, sink.channels);
    BlockCount(all, m);
    LeftOver(segment, frames, sink);
    LeftAfter(segment, frames, sink, m);
  }

  ghost predicate AddsChunks(out: seq<Emission>, segment: Segment, from: nat) {
    && from + |out| == |segment.sent| / RESAMPLE_CHUNK
    && forall k :: 0 <= k < |out| ==> out[k] == ChunkOf(segment, from + k)
  }

  lemma {:induction false} PushAddsChunks(segment: Segment, frames: seq<Frame>, sink: Sink)
    requires SameFormat(segment, sink) && Resamples(sink)
    ensures AddsChunks(Pushed(MixedOf(segment.sent[Arrived(segment)..], sink.channels),
                              MixAll(frames, sink.channels), true, sink, sink.channels).0,
                       segment.(sent := segment.sent + SentTo(frames, sink)), |segment.sent| / RESAMPLE_CHUNK)
  {
    var out := Pushed(MixedOf(segment.sent[Arrived(segment)..], sink.channels),
                      MixAll(frames, sink.channels), true, sink, sink.channels).0;
    PushCounts(segment, frames, sink);
    forall k | 0 <= k < |out|
      ensures out[k] == ChunkOf(segment.(sent := segment.sent + SentTo(frames, sink)),
                                |segment.sent| / RESAMPLE_CHUNK + k)
    {
      PushedChunk(segment, frames, sink, k);
    }
  }

  lemma {:induction false} ChunksGrow(log: seq<Emission>, out: seq<Emission>, segment: Segment, more: seq<Sent>)
    requires ChunksInOrder(log, segment) && AddsChunks(out, segment.(sent := segment.sent + more), |log|)
    ensures ChunksInOrder(log + out, segment.(sent := segment.sent + more))
  {
    forall k | 0 <= k < |log| ensures log[k] == ChunkOf(segment.(sent := segment.sent + more), k) {
      OldChunk(segment, more, k);
    }
  }

  /** The sink's pipeline, with what the segment has left pending, passes on what the longer segment asks for. */
  lemma {:induction false} PushReaches(log: seq<Emission>, segment: Segment, frames: seq<Frame>, sink: Sink)
    requires SameFormat(segment, sink) && Reached(log, segment)
    ensures var longer := segment.(sent := segment.sent + SentTo(frames, sink));
            var pushed := Pushed(MixedOf(segment.sent[Arrived(segment)..], sink.channels),
                                 MixAll(frames, sink.channels), Resamples(sink), sink, sink.channels);
            Reached(log + pushed.0, longer) && pushed.1 == MixedOf(longer.sent[Arrived(longer)..], sink.channels)
  {
    if Resamples(sink) {
      PushCounts(segment, frames, sink);
      PushAddsChunks(segment, frames, sink);
      ChunksGrow(log, Pushed(MixedOf(segment.sent[Arrived(segment)..], sink.channels),
                             MixAll(frames, sink.channels), true, sink, sink.channels).0,
                 segment, SentTo(frames, sink));
    } else {
      PushWrites(log, segment, frames, sink);
    }
  }

  // ----- Whole sessions ---------------------------------------------------------------------------

  lemma {:induction false} JoinedOneMore(parts: seq<seq<Emission>>, part: seq<Emission>)
    ensures Joined(parts + [part]) == Joined(parts) + part
  {
    assert (parts + [part])[..|parts|] == parts;
  }

  lemma {:induction false} OneMorePart(log: seq<Emission>, out: seq<Emission>, segments: seq<Segment>, next: Segment)
    requires ReachedEach(log, segments) && Reached(out, next)
    ensures ReachedEach(log + out, segments + [next])
  {
    var parts :| Joined(parts) == log && PartsReach(parts, segments);
    JoinedOneMore(parts, out);
    assert PartsReach(parts + [out], segments + [next]);
  }

  /** The part of the last segment, and the log before it. */
  lemma {:induction false} LastPart(log: seq<Emission>, segments: seq<Segment>)
    returns (before: seq<Emission>, part: seq<Emission>)
    requires ReachedEach(log, segments) && segments != []
    ensures log == before + part && ReachedEach(before, Front(segments)) && Reached(part, Last(segments))
  {
    var parts :| Joined(parts) == log && PartsReach(parts, segments);
    before, part := Joined(Front(parts)), Last(parts);
    assert PartsReach(Front(parts), Front(segments));
  }

  /** The log and the pipeline are as the segments ask. */
  ghost predicate AsTold(st: Session, segments: seq<Segment>) {
    ReachedEach(st.log, segments) && HoldsLast(st.pipe, segments)
  }

  /** `out` and `pending` are what a read of `frames` gives: the log and the pipeline then are as told. */
  lemma {:induction false} GoesOn(st: Session, segments: seq<Segment>, frames: seq<Frame>, sink: Sink, st': Session)
    requires AsTold(st, segments) && Continues(segments, sink)
    requires st.pipe.Some? && OfWidth(st.pipe.value.pending, sink.channels)
    requires var pushed := Pushed(st.pipe.value.pending, MixAll(frames, sink.channels), Resamples(sink), sink,
                                  sink.channels);
             st'.log == st.log + pushed.0 && st'.pipe == Some(Pipe(sink.rate, sink.channels, pushed.1))
    ensures AsTold(st', Extended(segments, frames, sink))
  {
    var last, out := Last(segments), st'.log[|st.log|..];
    var before, part := LastPart(st.log, segments);
    PushReaches(part, last, frames, sink);
    OneMorePart(before, part + out, Front(segments), last.(sent := last.sent + SentTo(frames, sink)));
    Regroup(before, part, out);
  }

  lemma {:induction false} NothingReached(rate: nat, channels: nat)
    ensures Reached([], Segment(rate, channels, []))
  {
  }

  lemma {:induction false} FirstPush(frames: seq<Frame>, sink: Sink)
    ensures var first := Segment(sink.rate, sink.channels, SentTo(frames, sink));
            var pushed := Pushed([], MixAll(frames, sink.channels), Resamples(sink), sink, sink.channels);
            Reached(pushed.0, first) && pushed.1 == MixedOf(first.sent[Arrived(first)..], sink.channels)
  {
    var none := Segment(sink.rate, sink.channels, []);
    NothingReached(sink.rate, sink.channels);
    assert MixedOf(none.sent[Arrived(none)..], sink.channels) == [];
    assert none.sent + SentTo(frames, sink) == SentTo(frames, sink);
    PushReaches([], none, frames, sink);
    var out := Pushed([], MixAll(frames, sink.channels), Resamples(sink), sink, sink.channels).0;
    assert [] + out == out;
  }

  lemma {:induction false} BeginsAnew(st: Session, segments: seq<Segment>, frames: seq<Frame>, sink: Sink, st': Session)
    requires AsTold(st, segments) && !Continues(segments, sink)
    requires var pushed := Pushed([], MixAll(frames, sink.channels), Resamples(sink), sink, sink.channels);
             st'.log == st.log + pushed.0 && st'.pipe == Some(Pipe(sink.rate, sink.channels, pushed.1))
    ensures AsTold(st', Extended(segments, frames, sink))
  {
    FirstPush(frames, sink);
    OneMorePart(st.log, st'.log[|st.log|..], segments, Segment(sink.rate, sink.channels, SentTo(frames, sink)));
  }

  /** Routed whole frames do what they should, whether the pipeline goes on or is built anew. */
  lemma {:induction false} FramesReach(st: Session, segments: seq<Segment>, bytes: seq<byte>, sink: Sink,
                                       builds: Builder)
    requires Sound(st) && !st.failed && sink.channels > 0 && AsTold(st, segments)
    requires |st.remainder + bytes| >= FRAME_BYTES && !AfterRead(st, bytes, Some(sink), builds).failed
    ensures AsTold(AfterRead(st, bytes, Some(sink), builds),
                   Extended(segments, DecodeFrames(st.remainder + bytes, AIRPLAY_CHANNELS), sink))
  {
    var frames, st' := DecodeFrames(st.remainder + bytes, AIRPLAY_CHANNELS), AfterRead(st, bytes, Some(sink), builds);
    if Continues(segments, sink) {
      GoesOn(st, segments, frames, sink, st');
    } else {
      BeginsAnew(st, segments, frames, sink, st');
    }
  }

  /**
   Any session, until a resampler cannot be built: the log falls into a part for each segment, in which the
   segment's frames go where they were routed. So of the frames that were routed, each is passed on once and in
   order, except fewer than 1024 at the end of each segment that resamples: those of the last one are pending,
   those of an earlier one were lost when the pipeline was rebuilt.
   */
  lemma {:induction false} RoutedFramesArrive(chunks: seq<seq<byte>>, routes: seq<Option<Sink>>, builds: Builder)
    requires |chunks| == |routes| && Routable(routes)
    ensures var st := AfterReads(chunks, routes, builds);
            !st.failed ==> AsTold(st, Segments(chunks, routes))
    decreases |chunks|
  {
    if chunks == [] {
      assert Joined<Emission>([]) == [] && PartsReach([], []);
    } else {
      var n := |chunks| - 1;
      RoutedFramesArrive(chunks[..n], routes[..n], builds);
      RemainderIsTheEnd(chunks[..n], routes[..n], builds);
      var st := AfterReads(chunks[..n], routes[..n], builds);
      if !AfterRead(st, chunks[n], routes[n], builds).failed && routes[n].Some?
          && |BufferAt(chunks, n)| >= FRAME_BYTES {
        FramesReach(st, Segments(chunks[..n], routes[..n]), chunks[n], routes[n].value, builds);
      }
    }
  }

  // ----- Segments are the stretches of one format -------------------------------------------------

  predicate OneFormat(segment: Segment) {
    segment.sent != [] && forall i :: 0 <= i < |segment.sent| ==> SameFormat(segment, segment.sent[i].sink)
  }

  predicate FormatsChange(segments: seq<Segment>) {
    && (forall i :: 0 <= i < |segments| ==> OneFormat(segments[i]))
    && forall i :: 0 < i < |segments| ==>
         segments[i].rate != segments[i - 1].rate || segments[i].channels != segments[i - 1].channels
  }

  lemma {:induction false} ExtendedChanges(segments: seq<Segment>, frames: seq<Frame>, sink: Sink)
    requires FormatsChange(segments) && frames != []
    ensures FormatsChange(Extended(segments, frames, sink))
  {
    var r := Extended(segments, frames, sink);
    assert OneFormat(Last(r)) by {
      if Continues(segments, sink) {
        assert OneFormat(Last(segments));
      }
    }
  }

  /** A segment is never empty, has one format, and ends just where the format changes. */
  lemma {:induction false} SegmentsEndWhereFormatsChange(chunks: seq<seq<byte>>, routes: seq<Option<Sink>>)
    requires |chunks| == |routes|
    ensures FormatsChange(Segments(chunks, routes))
    decreases |chunks|
  {
    if chunks == [] {
    } else {
      var n := |chunks| - 1;
      SegmentsEndWhereFormatsChange(chunks[..n], routes[..n]);
      if routes[n].Some? && |BufferAt(chunks, n)| >= FRAME_BYTES {
        DecodeOneMore(BufferAt(chunks, n), AIRPLAY_CHANNELS);
        ExtendedChanges(Segments(chunks[..n], routes[..n]), FramesOf(chunks, n), routes[n].value);
      }
    }
  }

  // ----- Failure ----------------------------------------------------------------------------------

  /** Read `n` brings whole frames for a sink of a new format whose resampler cannot be built. */
  predicate FailsAt(chunks: seq<seq<byte>>, routes: seq<Option<Sink>>, builds: Builder, n: nat)
    requires n < |chunks| == |routes|
  {
    && routes[n].Some? && |BufferAt(chunks, n)| >= FRAME_BYTES
    && !Continues(Segments(chunks[..n], routes[..n]), routes[n].value)
    && Resamples(routes[n].value) && !builds(routes[n].value)
  }

  lemma {:induction false} FailsAtInPrefix(chunks: seq<seq<byte>>, routes: seq<Option<Sink>>, builds: Builder, m: nat,
                                           n: nat)
    requires n < m <= |chunks| == |routes|
    ensures FailsAt(chunks[..m], routes[..m], builds, n) == FailsAt(chunks, routes, builds, n)
  {
    assert chunks[..m][..n] == chunks[..n] && routes[..m][..n] == routes[..n];
  }

  lemma {:induction false} ReadFailsExactly(st: Session, segments: seq<Segment>, bytes: seq<byte>,
                                            route: Option<Sink>, builds: Builder)
    requires Sound(st) && !st.failed && HoldsLast(st.pipe, segments) && (route.Some? ==> route.value.channels > 0)
    ensures AfterRead(st, bytes, route, builds).failed <==>
              && route.Some? && |st.remainder + bytes| >= FRAME_BYTES && !Continues(segments, route.value)
              && Resamples(route.value) && !builds(route.value)
  {
  }

  /** A session that has not failed fails at the next read exactly when that read is such a one. */
  lemma {:induction false} NextFailsExactly(chunks: seq<seq<byte>>, routes: seq<Option<Sink>>, builds: Builder)
    requires |chunks| == |routes| && Routable(routes) && chunks != []
    requires !AfterReads(Front(chunks), Front(routes), builds).failed
    ensures AfterReads(chunks, routes, builds).failed == FailsAt(chunks, routes, builds, |chunks| - 1)
  {
    var n := |chunks| - 1;
    var st := AfterReads(chunks[..n], routes[..n], builds);
    RoutedFramesArrive(chunks[..n], routes[..n], builds);
    RemainderIsTheEnd(chunks[..n], routes[..n], builds);
    assert st.remainder + chunks[n] == BufferAt(chunks, n);
    ReadFailsExactly(st, Segments(chunks[..n], routes[..n]), chunks[n], routes[n], builds);
  }

  /** A session fails exactly when it comes to a read of that kind. */
  lemma {:induction false} FailsExactly(chunks: seq<seq<byte>>, routes: seq<Option<Sink>>, builds: Builder)
    requires |chunks| == |routes| && Routable(routes)
    ensures AfterReads(chunks, routes, builds).failed <==>
            exists n :: 0 <= n < |chunks| && FailsAt(chunks, routes, builds, n)
    decreases |chunks|
  {
    if chunks == [] {
    } else {
      var m := |chunks| - 1;
      FailsExactly(chunks[..m], routes[..m], builds);
      forall n | 0 <= n < m ensures FailsAt(chunks[..m], routes[..m], builds, n) == FailsAt(chunks, routes, builds, n) {
        FailsAtInPrefix(chunks, routes, builds, m, n);
      }
      if AfterReads(chunks[..m], routes[..m], builds).failed {
        FailureStays(chunks, routes, builds, m);
        var n :| 0 <= n < m && FailsAt(chunks[..m], routes[..m], builds, n);
        assert FailsAt(chunks, routes, builds, n);
      } else {
        NextFailsExactly(chunks, routes, builds);
      }
    }
  }

  lemma {:induction false} FailingReadWritesNothing(st: Session, bytes: seq<byte>, route: Option<Sink>, builds: Builder)
    requires Sound(st) && (route.Some? ==> route.value.channels > 0)
    ensures AfterRead(st, bytes, route, builds).failed ==> AfterRead(st, bytes, route, builds).log == st.log
  {
  }

  lemma {:induction false} OneReadMore(chunks: seq<seq<byte>>, routes: seq<Option<Sink>>, builds: Builder, n: nat)
    requires n < |chunks| == |routes| && Routable(routes)
    ensures AfterReads(chunks[..n + 1], routes[..n + 1], builds)
            == AfterRead(AfterReads(chunks[..n], routes[..n], builds), chunks[n], routes[n], builds)
  {
    assert chunks[..n + 1][..n] == chunks[..n] && routes[..n + 1][..n] == routes[..n];
  }

  /** The read it fails at, and all reads after it, leave no trace: the log stays that of the reads before. */
  lemma {:induction false} FailedLogStays(chunks: seq<seq<byte>>, routes: seq<Option<Sink>>, builds: Builder, n: nat)
    requires n < |chunks| == |routes| && Routable(routes) && FailsAt(chunks, routes, builds, n)
    ensures AfterReads(chunks, routes, builds).log == AfterReads(chunks[..n], routes[..n], builds).log
  {
    FailsAtInPrefix(chunks, routes, builds, n + 1, n);
    FailsExactly(chunks[..n + 1], routes[..n + 1], builds);
    FailureStays(chunks, routes, builds, n + 1);
    OneReadMore(chunks, routes, builds, n);
    FailingReadWritesNothing(AfterReads(chunks[..n], routes[..n], builds), chunks[n], routes[n], builds);
  }

  // ----- What is heard ----------------------------------------------------------------------------

  /** The samples of the frames sent to sinks at the AirPlay rate, mixed for each. */
  function HeardDirectly(sent: seq<Sent>): (heard: seq<Heard>) {
    if sent == [] then [] else HeardDirectly(Front(sent)) + HeardDirectlyOf(Last(sent))
  }

  function HeardDirectlyOf(one: Sent): (heard: seq<Heard>) {
    if Resamples(one.sink) then [] else HeardBy(one.sink, MixFrame(one.frame, one.sink.channels))
  }

  lemma {:induction false} HeardDirectlyStep(sent: seq<Sent>, front: seq<Sent>)
    requires sent != [] && front == Front(sent)
    ensures HeardDirectly(sent) == HeardDirectly(front) + HeardDirectlyOf(Last(sent))
  {
  }

  lemma {:induction false} FrontOfConcat<T>(a: seq<T>, b: seq<T>)
    requires b != []
    ensures Front(a + b) == a + Front(b) && Last(a + b) == Last(b)
  {
  }

  lemma {:induction false} HeardDirectlyConcat(a: seq<Sent>, b: seq<Sent>)
    ensures HeardDirectly(a + b) == HeardDirectly(a) + HeardDirectly(b)
    decreases |b|
  {
    if b == [] {
      assert a + b == a;
    } else {
      HeardDirectlyConcat(a, Front(b));
      FrontOfConcat(a, b);
      HeardDirectlyStep(a + b, a + Front(b));
      HeardDirectlyStep(b, Front(b));
      Regroup(HeardDirectly(a), HeardDirectly(Front(b)), HeardDirectlyOf(Last(b)));
    }
  }

  lemma {:induction false} HeardInStep(log: seq<Emission>, front: seq<Emission>)
    requires log != [] && front == Front(log)
    ensures HeardIn(log) == HeardIn(front) + HeardInOne(Last(log))
  {
  }

  lemma {:induction false} HeardInConcat(a: seq<Emission>, b: seq<Emission>)
    ensures HeardIn(a + b) == HeardIn(a) + HeardIn(b)
    decreases |b|
  {
    if b == [] {
      assert a + b == a;
    } else {
      HeardInConcat(a, Front(b));
      FrontOfConcat(a, b);
      HeardInStep(a + b, a + Front(b));
      HeardInStep(b, Front(b));
      Regroup(HeardIn(a), HeardIn(Front(b)), HeardInOne(Last(b)));
    }
  }

  lemma {:induction false} NothingHeardOfChunks(log: seq<Emission>)
    requires forall i :: 0 <= i < |log| ==> log[i].Resampled?
    ensures HeardIn(log) == []
    decreases |log|
  {
    if log == [] {
    } else {
      NothingHeardOfChunks(Front(log));
    }
  }

  lemma {:induction false} HeardOfOneFormat(sent: seq<Sent>, rate: nat, channels: nat)
    requires forall i :: 0 <= i < |sent| ==> sent[i].sink.rate == rate && sent[i].sink.channels == channels
    ensures HeardDirectly(sent) == if rate == AIRPLAY_SAMPLE_RATE then Spread(sent, channels) else []
    decreases |sent|
  {
    if sent == [] {
    } else {
      HeardOfOneFormat(Front(sent), rate, channels);
    }
  }

  lemma {:induction false} HeardOfSegment(log: seq<Emission>, segment: Segment)
    requires Reached(log, segment) && OneFormat(segment)
    ensures HeardIn(log) == HeardDirectly(segment.sent)
  {
    HeardOfOneFormat(segment.sent, segment.rate, segment.channels);
    if segment.rate != AIRPLAY_SAMPLE_RATE {
      NothingHeardOfChunks(log);
    }
  }

  lemma {:induction false} HeardOfSegments(log: seq<Emission>, segments: seq<Segment>)
    requires ReachedEach(log, segments) && forall i :: 0 <= i < |segments| ==> OneFormat(segments[i])
    ensures HeardIn(log) == HeardDirectly(AllSent(segments))
    decreases |segments|
  {
    if segments == [] {
    } else {
      var last := Last(segments);
      var before, part := LastPart(log, segments);
      HeardOfSegments(before, Front(segments));
      HeardOfSegment(part, last);
      HeardInConcat(before, part);
      HeardDirectlyConcat(AllSent(Front(segments)), last.sent);
    }
  }

  /**
   Sinks at the AirPlay rate lose nothing, however often the session is routed between them, to resampling
   sinks or nowhere: the samples written are those of all frames routed to them, in order, each to its sink.
   */
  lemma {:induction false} DirectSinksLoseNothing(chunks: seq<seq<byte>>, routes: seq<Option<Sink>>, builds: Builder)
    requires |chunks| == |routes| && Routable(routes)
    ensures var st := AfterReads(chunks, routes, builds);
            !st.failed ==> HeardIn(st.log) == HeardDirectly(Kept(Routing(chunks, routes)))
  {
    RoutedFramesArrive(chunks, routes, builds);
    SegmentsEndWhereFormatsChange(chunks, routes);
    SegmentsHoldAllRouted(chunks, routes);
    if !AfterReads(chunks, routes, builds).failed {
      HeardOfSegments(AfterReads(chunks, routes, builds).log, Segments(chunks, routes));
    }
  }

  // ----- Sessions of one format -------------------------------------------------------------------

  /** Every sink named by `routes` has this format. */
  predicate OfFormat(routes: seq<Option<Sink>>, rate: nat, channels: nat) {
    forall i :: 0 <= i < |routes| && routes[i].Some? ==>
      routes[i].value.rate == rate && routes[i].value.channels == channels
  }

  lemma {:induction false} OneSegment(chunks: seq<seq<byte>>, routes: seq<Option<Sink>>, rate: nat, channels: nat)
    requires |chunks| == |routes| && OfFormat(routes, rate, channels)
    ensures var segments := Segments(chunks, routes);
            segments == [] || (|segments| == 1 && segments[0].rate == rate && segments[0].channels == channels)
    decreases |chunks|
  {
    if chunks == [] {
    } else {
      OneSegment(Front(chunks), Front(routes), rate, channels);
    }
  }

  lemma {:induction false} ReachedOnlyOne(log: seq<Emission>, segments: seq<Segment>, rate: nat, channels: nat)
    requires ReachedEach(log, segments)
    requires segments == [] || (|segments| == 1 && segments[0].rate == rate && segments[0].channels == channels)
    ensures Reached(log, Segment(rate, channels, AllSent(segments)))
  {
    var parts :| Joined(parts) == log && PartsReach(parts, segments);
    if segments == [] {
      NothingReached(rate, channels);
    } else {
      assert Front(segments) == [] && parts[..0] == [];
      assert AllSent(segments) == [] + segments[0].sent == segments[0].sent;
      assert log == [] + parts[0] == parts[0];
      assert segments[0] == Segment(rate, channels, AllSent(segments));
    }
  }

  /** Without a change of format nothing is lost: the whole log is that of one segment. */
  lemma {:induction false} OneFormatDelivers(chunks: seq<seq<byte>>, routes: seq<Option<Sink>>, builds: Builder,
                                             rate: nat, channels: nat)
    requires |chunks| == |routes| && Routable(routes) && OfFormat(routes, rate, channels)
    ensures var st := AfterReads(chunks, routes, builds);
            !st.failed ==> Reached(st.log, Segment(rate, channels, Kept(Routing(chunks, routes))))
  {
    RoutedFramesArrive(chunks, routes, builds);
    SegmentsHoldAllRouted(chunks, routes);
    OneSegment(chunks, routes, rate, channels);
    if !AfterReads(chunks, routes, builds).failed {
      ReachedOnlyOne(AfterReads(chunks, routes, builds).log, Segments(chunks, routes), rate, channels);
    }
  }

  lemma {:induction false} AllToOne(chunks: seq<seq<byte>>, routes: seq<Option<Sink>>, sink: Sink)
    requires |chunks| == |routes| && forall i :: 0 <= i < |routes| ==> routes[i] == Some(sink)
    ensures Routing(chunks, routes) == Tagged(FramesIn(Routing(chunks, routes)), Some(sink))
    decreases |chunks|
  {
    if chunks == [] {
    } else {
      AllToOne(Front(chunks), Front(routes), sink);
    }
  }

  lemma {:induction false} HeardOfFixedSink(chunks: seq<seq<byte>>, routes: seq<Option<Sink>>, sink: Sink,
                                            builds: Builder)
    requires |chunks| == |routes| && forall i :: 0 <= i < |routes| ==> routes[i] == Some(sink)
    requires sink.channels > 0 && sink.rate == AIRPLAY_SAMPLE_RATE
    ensures var st := AfterReads(chunks, routes, builds);
            && !st.failed
            && HeardIn(st.log) == HeardBy(sink, Flat(MixAll(FramesIn(Routing(chunks, routes)), sink.channels)))
  {
    var frames := FramesIn(Routing(chunks, routes));
    FailsExactly(chunks, routes, builds);
    OneFormatDelivers(chunks, routes, builds, sink.rate, sink.channels);
    AllToOne(chunks, routes, sink);
    KeptOfTagged(frames, Some(sink));
    SpreadOnward([], frames, sink, sink.channels);
    assert [] + SentTo(frames, sink) == SentTo(frames, sink);
  }

  /** A fixed sink at the AirPlay rate is written all whole frames of the stream, mixed and interleaved. */
  lemma {:induction false} FixedSinkGetsTheStream(chunks: seq<seq<byte>>, sink: Sink, builds: Builder)
    requires sink.channels > 0 && sink.rate == AIRPLAY_SAMPLE_RATE
    ensures var st := AfterReads(chunks, seq(|chunks|, _ => Some(sink)), builds);
            var frames := DecodeFrames(Joined(chunks), AIRPLAY_CHANNELS);
            && !st.failed && st.remainder == Rest(Joined(chunks), FRAME_BYTES)
            && HeardIn(st.log) == HeardBy(sink, Interleaved(Mixed(Planes(frames, AIRPLAY_CHANNELS), sink.channels)))
  {
    var routes := seq(|chunks|, _ => Some(sink));
    var frames := DecodeFrames(Joined(chunks), AIRPLAY_CHANNELS);
    HeardOfFixedSink(chunks, routes, sink, builds);
    RemainderIsTheEnd(chunks, routes, builds);
    EveryFrameOnce(chunks, routes);
    MixedIsFramewise(frames, AIRPLAY_CHANNELS, sink.channels);
    InterleavedIsFlat(MixAll(frames, sink.channels), sink.channels);
  }
}
