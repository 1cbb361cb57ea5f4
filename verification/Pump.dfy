/**
 The PCM pump of one AirPlay session (`pump_open`, src/audio/airplay.rs) and the pipeline it feeds
 (`ResamplePipeline`, src/audio/decode.rs): whole frames are taken from a growing remainder, mixed, and
 written to whatever sink the session is routed to. The resampler is foreign: the model logs what it is fed.
 */
module Pump {
  import opened Sequences
  import opened Wrappers
  import opened Framing
  import opened Pcm

  const AIRPLAY_SAMPLE_RATE := 44_100
  const AIRPLAY_CHANNELS := 2
  const FRAME_BYTES := 4
  const RESAMPLE_CHUNK := 1024

  datatype Sink = Sink(id: Id, rate: nat, channels: nat)

  /** Samples written as they are, or a chunk given to the resampler whose output goes to the sink. */
  datatype Emission =
    | Written(sink: Sink, samples: seq<real>)
    | Resampled(sink: Sink, chunk: seq<Plane>)

  // ----- The pipeline -----------------------------------------------------------------------------

  function Chunks(sink: Sink, blocks: seq<seq<Frame>>, channels: nat): (emissions: seq<Emission>)
    requires forall block :: block in blocks ==> OfWidth(block, channels)
    ensures |emissions| == |blocks|
    ensures forall i :: 0 <= i < |blocks| ==> emissions[i] == Resampled(sink, Planes(blocks[i], channels))
  {
    seq(|blocks|, i requires 0 <= i < |blocks| => Resampled(sink, Planes(blocks[i], channels)))
  }

  lemma {:induction false} BlocksKeepWidth(frames: seq<Frame>, n: nat, channels: nat)
    requires n > 0 && OfWidth(frames, channels)
    ensures (forall block :: block in Blocks(frames, n) ==> OfWidth(block, channels))
            && OfWidth(Rest(frames, n), channels)
    decreases |frames|
  {
    BlocksStep(frames, n);
    if |frames| < n {
    } else {
      BlocksKeepWidth(frames[n..], n, channels);
    }
  }

  /** What pushing `frames` after `pending` gives: the emissions, and what is pending then. */
  function Pushed(pending: seq<Frame>, frames: seq<Frame>, resampling: bool, sink: Sink, channels: nat)
    : (r: (seq<Emission>, seq<Frame>))
    requires OfWidth(pending, channels) && OfWidth(frames, channels)
    ensures OfWidth(r.1, channels)
  {
    if !resampling then ([Written(sink, Flat(frames))], pending)
    else
      BlocksKeepWidth(pending + frames, RESAMPLE_CHUNK, channels);
      (Chunks(sink, Blocks(pending + frames, RESAMPLE_CHUNK), channels), Rest(pending + frames, RESAMPLE_CHUNK))
  }

  lemma {:induction false} PlanesConcat(a: seq<Frame>, b: seq<Frame>, channels: nat, c: nat)
    requires OfWidth(a, channels) && OfWidth(b, channels) && c < channels
    ensures OfWidth(a + b, channels) && PlaneOf(a + b, channels, c) == PlaneOf(a, channels, c) + PlaneOf(b, channels, c)
  {
  }

  lemma {:induction false} PlanesSlice(a: seq<Frame>, n: nat, channels: nat, c: nat)
    requires OfWidth(a, channels) && c < channels && n <= |a|
    ensures PlaneOf(a[..n], channels, c) == PlaneOf(a, channels, c)[..n]
    ensures PlaneOf(a[n..], channels, c) == PlaneOf(a, channels, c)[n..]
  {
  }

  /** Of `all`, `blocks` have been taken and `left` remains to be looked at. */
  ghost predicate TakenSoFar(all: seq<Frame>, blocks: seq<seq<Frame>>, left: seq<Frame>) {
    && Blocks(all, RESAMPLE_CHUNK) == blocks + Blocks(left, RESAMPLE_CHUNK)
    && Rest(all, RESAMPLE_CHUNK) == Rest(left, RESAMPLE_CHUNK)
  }

  lemma {:induction false} TakeOnward(all: seq<Frame>, blocks: seq<seq<Frame>>, left: seq<Frame>)
    requires TakenSoFar(all, blocks, left)
    ensures |left| >= RESAMPLE_CHUNK ==> TakenSoFar(all, blocks + [left[..RESAMPLE_CHUNK]], left[RESAMPLE_CHUNK..])
    ensures |left| < RESAMPLE_CHUNK ==> Blocks(all, RESAMPLE_CHUNK) == blocks && Rest(all, RESAMPLE_CHUNK) == left
  {
    BlocksStep(left, RESAMPLE_CHUNK);
    if |left| >= RESAMPLE_CHUNK {
      Regroup(blocks, [left[..RESAMPLE_CHUNK]], Blocks(left[RESAMPLE_CHUNK..], RESAMPLE_CHUNK));
    } else {
      assert blocks + [] == blocks;
    }
  }

  class ResamplePipeline {
    const inRate: nat
    const inChannels: nat
    const outChannels: nat
    const resampling: bool
    var accum: seq<Plane>
    ghost var pending: seq<Frame>

    /** The accumulator holds the pending frames, a plane for each channel. */
    ghost predicate Held()
      reads this
    {
      outChannels > 0 && OfWidth(pending, outChannels) && accum == Planes(pending, outChannels)
    }

    /** And there are too few for a chunk. */
    ghost predicate Valid()
      reads this
    {
      Held() && |pending| < RESAMPLE_CHUNK
    }

    constructor (inRate: nat, inChannels: nat, outRate: nat, outChannels: nat)
      requires outChannels > 0
      ensures Valid() && pending == []
      ensures this.inRate == inRate && this.inChannels == inChannels && this.outChannels == outChannels
      ensures resampling == (inRate != outRate)
    {
      this.inRate, this.inChannels, this.outChannels := inRate, inChannels, outChannels;
      resampling := inRate != outRate;
      accum := seq(outChannels, _ => []);
      pending := [];
    }

    method Extend(mixed: seq<Plane>, ghost frames: seq<Frame>)
      requires Held() && OfWidth(frames, outChannels) && mixed == Planes(frames, outChannels)
      modifies this
      ensures Held() && pending == old(pending) + frames
    {
      var held := accum;
      forall c | 0 <= c < outChannels ensures held[c] + mixed[c] == PlaneOf(pending + frames, outChannels, c) {
        PlanesConcat(pending, frames, outChannels, c);
      }
      accum := seq(outChannels, c requires 0 <= c < |held| && c < |mixed| => held[c] + mixed[c]);
      pending := pending + frames;
    }

    /** A chunk of every channel, drained from the accumulator. */
    method TakeChunk() returns (chunk: seq<Plane>)
      requires Held() && |accum[0]| >= RESAMPLE_CHUNK
      modifies this
      ensures Held() && pending == old(pending)[RESAMPLE_CHUNK..]
      ensures OfWidth(old(pending)[..RESAMPLE_CHUNK], outChannels)
      ensures chunk == Planes(old(pending)[..RESAMPLE_CHUNK], outChannels)
    {
      var planes, n := accum, RESAMPLE_CHUNK;
      forall c | 0 <= c < outChannels
        ensures planes[c][..n] == PlaneOf(pending[..n], outChannels, c)
        ensures planes[c][n..] == PlaneOf(pending[n..], outChannels, c)
      {
        PlanesSlice(pending, n, outChannels, c);
      }
      chunk := seq(outChannels, c requires 0 <= c < |planes| && |planes[c]| >= n => planes[c][..n]);
      accum := seq(outChannels, c requires 0 <= c < |planes| && |planes[c]| >= n => planes[c][n..]);
      pending := pending[n..];
    }

    /** Appends planes that hold `frames`, and emits all that is ready. */
    method PushAndDrain(mixed: seq<Plane>, ghost frames: seq<Frame>, sink: Sink) returns (out: seq<Emission>)
      requires Valid() && OfWidth(frames, outChannels) && mixed == Planes(frames, outChannels)
      modifies this
      ensures Valid()
      ensures (out, pending) == Pushed(old(pending), frames, resampling, sink, outChannels)
    {
      if !resampling {
        var samples := Interleave(mixed);
        InterleavedIsFlat(frames, outChannels);
        return [Written(sink, samples)];
      }
      Extend(mixed, frames);
      ghost var all := pending;
      ghost var blocks: seq<seq<Frame>> := [];
      out := [];
      assert [] + Blocks(all, RESAMPLE_CHUNK) == Blocks(all, RESAMPLE_CHUNK);
      while |accum[0]| >= RESAMPLE_CHUNK
        invariant Held() && TakenSoFar(all, blocks, pending)
        invariant forall block :: block in blocks ==> OfWidth(block, outChannels)
        invariant out == Chunks(sink, blocks, outChannels)
        decreases |accum[0]|
      {
        TakeOnward(all, blocks, pending);
        blocks := blocks + [pending[..RESAMPLE_CHUNK]];
        var chunk := TakeChunk();
        out := out + [Resampled(sink, chunk)];
      }
      TakeOnward(all, blocks, pending);
    }
  }

  // ----- The pump ---------------------------------------------------------------------------------

  /** The format a pipeline was built for, and the frames it has pending. */
  datatype Pipe = Pipe(rate: nat, channels: nat, pending: seq<Frame>)

  /** `failed` is set when a resampler could not be built, which ends the session. */
  datatype Session = Session(remainder: seq<byte>, pipe: Option<Pipe>, log: seq<Emission>, failed: bool)

  const NEW_SESSION := Session([], None, [], false)

  predicate Sound(st: Session) {
    && |st.remainder| < FRAME_BYTES
    && (st.pipe.Some? ==> st.pipe.value.channels > 0 && OfWidth(st.pipe.value.pending, st.pipe.value.channels)
                          && |st.pipe.value.pending| < RESAMPLE_CHUNK)
  }

  predicate Fits(pipe: Option<Pipe>, sink: Sink) {
    pipe.Some? && pipe.value.rate == sink.rate && pipe.value.channels == sink.channels
  }

  predicate Resamples(sink: Sink) { sink.rate != AIRPLAY_SAMPLE_RATE }

  /** The pending frames a pipeline for `sink` starts from: none when it has to be rebuilt. */
  function PendingFor(pipe: Option<Pipe>, sink: Sink): (pending: seq<Frame>) {
    if Fits(pipe, sink) then pipe.value.pending else []
  }

  type Builder = Sink -> bool

  /** A sink has channels. */
  predicate Routable(routes: seq<Option<Sink>>) { forall r :: r in routes && r.Some? ==> r.value.channels > 0 }

  /** One read of the FIFO, routed to `route`; `builds` tells for which sinks a resampler can be built. */
  function AfterRead(st: Session, bytes: seq<byte>, route: Option<Sink>, builds: Builder): (st': Session)
    requires Sound(st) && (route.Some? ==> route.value.channels > 0)
    ensures Sound(st')
  {
    var buffer := st.remainder + bytes;
    BlocksAre(buffer, FRAME_BYTES);
    if st.failed then st
    else if |buffer| < FRAME_BYTES then st.(remainder := buffer)
    else
      match route
      case None => st.(remainder := Rest(buffer, FRAME_BYTES))
      case Some(sink) =>
        if !Fits(st.pipe, sink) && Resamples(sink) && !builds(sink) then st.(failed := true)
        else
          var frames := MixAll(DecodeFrames(buffer, AIRPLAY_CHANNELS), sink.channels);
          var (emissions, pending) := Pushed(PendingFor(st.pipe, sink), frames, Resamples(sink), sink, sink.channels);
          BlocksAre(PendingFor(st.pipe, sink) + frames, RESAMPLE_CHUNK);
          Session(Rest(buffer, FRAME_BYTES), Some(Pipe(sink.rate, sink.channels, pending)), st.log + emissions, false)
  }

  /** A whole session, read by read. */
  function AfterReads(chunks: seq<seq<byte>>, routes: seq<Option<Sink>>, builds: Builder): (st: Session)
    requires |chunks| == |routes| && Routable(routes)
    ensures Sound(st)
  {
    if chunks == [] then NEW_SESSION
    else
      var n := |chunks| - 1;
      AfterRead(AfterReads(chunks[..n], routes[..n], builds), chunks[n], routes[n], builds)
  }

  /** The whole frames of `buffer`, mixed for the sink and pushed into its pipeline. */
  method Feed(buffer: seq<byte>, pipeline: ResamplePipeline, sink: Sink) returns (out: seq<Emission>)
    requires pipeline.Valid() && pipeline.outChannels == sink.channels
    modifies pipeline
    ensures pipeline.Valid()
    ensures (out, pipeline.pending) ==
            Pushed(old(pipeline.pending), MixAll(DecodeFrames(buffer, AIRPLAY_CHANNELS), sink.channels),
                   pipeline.resampling, sink, sink.channels)
  {
    ghost var frames := DecodeFrames(buffer, AIRPLAY_CHANNELS);
    var planar := I16leToPlanar(buffer, AIRPLAY_CHANNELS);
    var mixed := MixPlanar(planar, sink.channels);
    MixedIsFramewise(frames, AIRPLAY_CHANNELS, sink.channels);
    out := pipeline.PushAndDrain(mixed, MixAll(frames, sink.channels), sink);
  }

  /** `pump_open`: to the end of the stream, or to the first resampler that cannot be built. */
  method PumpOpen(chunks: seq<seq<byte>>, routes: seq<Option<Sink>>, builds: Builder)
    returns (log: seq<Emission>, result: Result<(), Sink>)
    requires |chunks| == |routes| && Routable(routes)
    ensures log == AfterReads(chunks, routes, builds).log
    ensures result.Err? <==> AfterReads(chunks, routes, builds).failed
  {
    log := [];
    var remainder: seq<byte> := [];
    var pipeline: Option<(nat, nat, ResamplePipeline)> := None;
    ghost var st := NEW_SESSION;
    for n := 0 to |chunks|
      invariant st == AfterReads(chunks[..n], routes[..n], builds)
      invariant !st.failed && st.log == log && st.remainder == remainder
      invariant Describes(pipeline, st.pipe)
      invariant pipeline.Some? ==> fresh(pipeline.value.2)
    {
      assert chunks[..n + 1][..n] == chunks[..n] && routes[..n + 1][..n] == routes[..n];
      remainder := remainder + chunks[n];
      st := AfterRead(st, chunks[n], routes[n], builds);
      if |remainder| < FRAME_BYTES {
        continue;
      }
      if routes[n].None? {
        remainder := RestOfFrames(remainder);
        continue;
      }
      var sink := routes[n].value;
      var needRebuild := pipeline.None? || pipeline.value.0 != sink.rate || pipeline.value.1 != sink.channels;
      if needRebuild {
        if sink.rate != AIRPLAY_SAMPLE_RATE && !builds(sink) {
          result := Err(sink);
          FailureStays(chunks, routes, builds, n + 1);
          return;
        }
        var p := new ResamplePipeline(AIRPLAY_SAMPLE_RATE, AIRPLAY_CHANNELS, sink.rate, sink.channels);
        pipeline := Some((sink.rate, sink.channels, p));
      }
      var out := Feed(remainder, pipeline.value.2, sink);
      remainder := RestOfFrames(remainder);
      log := log + out;
    }
    assert chunks[..|chunks|] == chunks && routes[..|chunks|] == routes;
    result := Ok(());
  }

  /** The pipeline of the loop is the one of the specification. */
  ghost predicate Describes(pipeline: Option<(nat, nat, ResamplePipeline)>, pipe: Option<Pipe>)
    reads if pipeline.Some? then {pipeline.value.2} else {}
  {
    match pipeline
    case None => pipe.None?
    case Some((rate, channels, p)) =>
      && p.Valid() && p.outChannels == channels && p.resampling == (rate != AIRPLAY_SAMPLE_RATE)
      && pipe == Some(Pipe(rate, channels, p.pending))
  }

  /** `drain(..whole)`: whole frames go, less than a frame stays. */
  method RestOfFrames(buffer: seq<byte>) returns (rest: seq<byte>)
    ensures rest == Rest(buffer, FRAME_BYTES)
  {
    var whole := |buffer| / FRAME_BYTES * FRAME_BYTES;
    RestAfter(buffer, |buffer| / FRAME_BYTES);
    return buffer[whole..];
  }

  lemma {:induction false} RestAfter(buffer: seq<byte>, frames: nat)
    requires frames * FRAME_BYTES <= |buffer| < frames * FRAME_BYTES + FRAME_BYTES
    ensures Rest(buffer, FRAME_BYTES) == buffer[frames * FRAME_BYTES..]
    decreases frames
  {
    BlocksStep(buffer, FRAME_BYTES);
    if frames == 0 {
    } else {
      RestAfter(buffer[FRAME_BYTES..], frames - 1);
      DropTwice(buffer, FRAME_BYTES, (frames - 1) * FRAME_BYTES);
    }
  }

  lemma {:induction false} FailureStays(chunks: seq<seq<byte>>, routes: seq<Option<Sink>>, builds: Builder, n: nat)
    requires |chunks| == |routes| && Routable(routes)
    requires n <= |chunks| && AfterReads(chunks[..n], routes[..n], builds).failed
    ensures AfterReads(chunks, routes, builds) == AfterReads(chunks[..n], routes[..n], builds)
    decreases |chunks|
  {
    if n < |chunks| {
      var m := |chunks| - 1;
      assert chunks[..m][..n] == chunks[..n] && routes[..m][..n] == routes[..n];
      FailureStays(chunks[..m], routes[..m], builds, n);
    } else {
      assert chunks[..n] == chunks && routes[..n] == routes;
    }
  }

  /** A pipeline that has to be rebuilt forgets what it had pending. */
  lemma {:induction false} RebuildForgetsPending(st: Session, pipe: Option<Pipe>, bytes: seq<byte>, sink: Sink,
                                                 builds: Builder)
    requires Sound(st) && Sound(st.(pipe := pipe)) && sink.channels > 0 && |st.remainder + bytes| >= FRAME_BYTES
    requires !Fits(st.pipe, sink) && !Fits(pipe, sink)
    ensures var a := AfterRead(st, bytes, Some(sink), builds);
            var b := AfterRead(st.(pipe := pipe), bytes, Some(sink), builds);
            a.log == b.log && a.failed == b.failed && (!a.failed ==> a == b)
  {
  }
}
