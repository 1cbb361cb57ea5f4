/**
 PCM between bytes, planes and interleaved samples (`i16le_to_planar_f32` of src/audio/airplay.rs,
 `mix_planar` and `interleave` of src/audio/decode.rs, `to_i16le` of src/audio/snapcast.rs). Samples are
 real numbers: the rounding of f32 is not modelled. A frame holds one sample of each channel.
 */
module Pcm {
  import opened Sequences
  import opened Wrappers
  import opened Framing

  type Frame = seq<real>
  type Plane = seq<real>

  predicate OfWidth(frames: seq<Frame>, channels: nat) {
    forall f :: 0 <= f < |frames| ==> |frames[f]| == channels
  }

  /** The samples of channel `c`, frame after frame. */
  function PlaneOf(frames: seq<Frame>, channels: nat, c: nat): (plane: Plane)
    requires OfWidth(frames, channels) && c < channels
    ensures |plane| == |frames| && forall f :: 0 <= f < |frames| ==> plane[f] == frames[f][c]
  {
    seq(|frames|, f requires 0 <= f < |frames| => frames[f][c])
  }

  /** Frames as the source holds them: one plane for each channel, all of one length. */
  function Planes(frames: seq<Frame>, channels: nat): (planes: seq<Plane>)
    requires OfWidth(frames, channels)
    ensures |planes| == channels && forall c :: 0 <= c < channels ==> planes[c] == PlaneOf(frames, channels, c)
  {
    seq(channels, c requires 0 <= c < channels => PlaneOf(frames, channels, c))
  }

  // ----- s16le to planes --------------------------------------------------------------------------

  const I16_MAX := 32767.0

  /** A little-endian two's complement sample. */
  function I16(low: byte, high: byte): (v: int)
    ensures -32768 <= v < 32768
  {
    var v := low + 256 * high;
    if v < 32768 then v else v - 65536
  }

  function DecodeSample(low: byte, high: byte): (s: real) { I16(low, high) as real / I16_MAX }

  function DecodeFrame(bytes: seq<byte>): (frame: Frame)
    ensures |frame| == |bytes| / 2
  {
    seq(|bytes| / 2, c requires 0 <= c < |bytes| / 2 => DecodeSample(bytes[2 * c], bytes[2 * c + 1]))
  }

  /** The whole frames of `bytes`; a trailing part of a frame is ignored. */
  function DecodeFrames(bytes: seq<byte>, channels: nat): (frames: seq<Frame>)
    ensures OfWidth(frames, channels)
  {
    if channels == 0 then []
    else
      BlocksAre(bytes, 2 * channels);
      MapBlocks(Blocks(bytes, 2 * channels), channels)
  }

  function MapBlocks(blocks: seq<seq<byte>>, channels: nat): (frames: seq<Frame>)
    requires forall block :: block in blocks ==> |block| == 2 * channels
    ensures |frames| == |blocks| && OfWidth(frames, channels)
    ensures forall f :: 0 <= f < |blocks| ==> frames[f] == DecodeFrame(blocks[f])
  {
    seq(|blocks|, f requires 0 <= f < |blocks| => DecodeFrame(blocks[f]))
  }

  lemma {:induction false} MapBlocksStep(block: seq<byte>, blocks: seq<seq<byte>>, channels: nat)
    requires |block| == 2 * channels && forall b :: b in blocks ==> |b| == 2 * channels
    ensures MapBlocks([block] + blocks, channels) == [DecodeFrame(block)] + MapBlocks(blocks, channels)
  {
  }

  lemma {:induction false} DecodeOneMore(bytes: seq<byte>, channels: nat)
    requires channels > 0
    ensures |bytes| < 2 * channels ==> DecodeFrames(bytes, channels) == []
    ensures |bytes| >= 2 * channels ==>
              DecodeFrames(bytes, channels) ==
              [DecodeFrame(bytes[..2 * channels])] + DecodeFrames(bytes[2 * channels..], channels)
  {
    var n := 2 * channels;
    BlocksStep(bytes, n);
    if |bytes| >= n {
      BlocksAre(bytes[n..], n);
      MapBlocksStep(bytes[..n], Blocks(bytes[n..], n), channels);
    }
  }

  /** The first `at` bytes have been decoded to `done`. */
  ghost predicate DecodedSoFar(bytes: seq<byte>, channels: nat, done: seq<Frame>, at: nat) {
    && at <= |bytes| && OfWidth(done, channels)
    && DecodeFrames(bytes, channels) == done + DecodeFrames(bytes[at..], channels)
  }

  lemma {:induction false} NothingDecoded(bytes: seq<byte>, channels: nat)
    ensures DecodedSoFar(bytes, channels, [], 0)
    ensures seq(channels, _ => []) == Planes([], channels)
  {
    assert bytes[0..] == bytes && [] + DecodeFrames(bytes, channels) == DecodeFrames(bytes, channels);
  }

  lemma {:induction false} DecodeOnward(bytes: seq<byte>, channels: nat, done: seq<Frame>, at: nat)
    requires channels > 0 && DecodedSoFar(bytes, channels, done, at)
    ensures |bytes| - at >= 2 * channels ==>
              DecodedSoFar(bytes, channels, done + [DecodeFrame(bytes[at..][..2 * channels])], at + 2 * channels)
    ensures |bytes| - at < 2 * channels ==> DecodeFrames(bytes, channels) == done
  {
    DecodeOneMore(bytes[at..], channels);
    if |bytes| - at >= 2 * channels {
      DropTwice(bytes, at, 2 * channels);
      Regroup(done, [DecodeFrame(bytes[at..][..2 * channels])], DecodeFrames(bytes[at + 2 * channels..], channels));
    } else {
      assert done + [] == done;
    }
  }

  /** The frame at `at` has been pushed onto the planes of the frames before it. */
  lemma {:induction false} FramePushed(bytes: seq<byte>, channels: nat, done: seq<Frame>, at: nat, planar: seq<Plane>,
                                       next: seq<Plane>)
    returns (frame: Frame)
    requires channels > 0 && DecodedSoFar(bytes, channels, done, at) && |bytes| - at >= 2 * channels
    requires planar == Planes(done, channels) && |next| == channels
    requires var frame := DecodeFrame(bytes[at..][..2 * channels]);
             forall c :: 0 <= c < channels ==> next[c] == planar[c] + [frame[c]]
    ensures DecodedSoFar(bytes, channels, done + [frame], at + 2 * channels)
    ensures next == Planes(done + [frame], channels)
  {
    frame := DecodeFrame(bytes[at..][..2 * channels]);
    DecodeOnward(bytes, channels, done, at);
    PlanesGrow(done, frame, next);
  }

  lemma {:induction false} PlanesGrow(frames: seq<Frame>, frame: Frame, planes: seq<Plane>)
    requires OfWidth(frames, |frame|) && |planes| == |frame|
    requires forall c :: 0 <= c < |frame| ==> planes[c] == PlaneOf(frames, |frame|, c) + [frame[c]]
    ensures OfWidth(frames + [frame], |frame|) && planes == Planes(frames + [frame], |frame|)
  {
    forall c | 0 <= c < |frame| ensures planes[c] == PlaneOf(frames + [frame], |frame|, c) {
    }
  }

  /** One pass of the inner loop: each plane gets its sample of the frame at the front of `bytes`. */
  method PushFrame(planar: seq<Plane>, bytes: seq<byte>) returns (next: seq<Plane>)
    requires |bytes| >= 2 * |planar|
    ensures |next| == |planar|
    ensures var frame := DecodeFrame(bytes[..2 * |planar|]);
            forall c :: 0 <= c < |planar| ==> next[c] == planar[c] + [frame[c]]
  {
    next := [];
    for c := 0 to |planar|
      invariant |next| == c
      invariant forall k :: 0 <= k < c ==> next[k] == planar[k] + [DecodeSample(bytes[2 * k], bytes[2 * k + 1])]
    {
      next := next + [planar[c] + [DecodeSample(bytes[2 * c], bytes[2 * c + 1])]];
    }
  }

  method I16leToPlanar(bytes: seq<byte>, channels: nat) returns (planar: seq<Plane>)
    ensures planar == Planes(DecodeFrames(bytes, channels), channels)
  {
    planar := seq(channels, _ => []);
    if channels == 0 {
      return;
    }
    var frameBytes := 2 * channels;
    var at := 0;
    ghost var done: seq<Frame> := [];
    NothingDecoded(bytes, channels);
    while |bytes| - at >= frameBytes
      invariant DecodedSoFar(bytes, channels, done, at)
      invariant planar == Planes(done, channels)
      decreases |bytes| - at
    {
      var next := PushFrame(planar, bytes[at..]);
      ghost var frame := FramePushed(bytes, channels, done, at, planar, next);
      done := done + [frame];
      planar := next;
      at := at + frameBytes;
    }
    DecodeOnward(bytes, channels, done, at);
  }

  // ----- Mixing -----------------------------------------------------------------------------------

  /** The sum of the samples at `f` over the channels that are that long. */
  function SumAt(planes: seq<Plane>, f: nat): (sum: real) {
    if planes == [] then 0.0
    else
      var last := planes[|planes| - 1];
      SumAt(planes[..|planes| - 1], f) + (if f < |last| then last[f] else 0.0)
  }

  /** What `mix_planar` answers, for any planes. */
  function Mixed(input: seq<Plane>, outChannels: nat): (planes: seq<Plane>)
    ensures |planes| == outChannels
  {
    if input == [] || outChannels == 0 then seq(outChannels, _ => [])
    else if |input| == outChannels then input
    else if |input| == 1 then seq(outChannels, _ => input[0])
    else if outChannels == 1 then
      [seq(|input[0]|, f requires 0 <= f < |input[0]| => SumAt(input, f) / |input| as real)]
    else seq(outChannels, i requires 0 <= i < outChannels => input[i % |input|])
  }

  lemma {:induction false} ScaleIsDivision(x: real, n: real)
    requires n > 0.0
    ensures x * (1.0 / n) == x / n
  {
  }

  /** Adds a channel to the sum, as far as both go. */
  method AddChannel(mono: array<real>, ch: Plane)
    modifies mono
    ensures forall f :: 0 <= f < mono.Length ==> mono[f] == old(mono[f]) + (if f < |ch| then ch[f] else 0.0)
  {
    var n := if |ch| < mono.Length then |ch| else mono.Length;
    for i := 0 to n
      invariant forall f :: 0 <= f < i ==> mono[f] == old(mono[f]) + ch[f]
      invariant forall f :: i <= f < mono.Length ==> mono[f] == old(mono[f])
    {
      mono[i] := mono[i] + ch[i];
    }
  }

  method Scale(mono: array<real>, n: real)
    requires n > 0.0
    modifies mono
    ensures forall f :: 0 <= f < mono.Length ==> mono[f] == old(mono[f]) / n
  {
    var scale := 1.0 / n;
    for i := 0 to mono.Length
      invariant forall f :: 0 <= f < i ==> mono[f] == old(mono[f]) / n
      invariant forall f :: i <= f < mono.Length ==> mono[f] == old(mono[f])
    {
      ScaleIsDivision(mono[i], n);
      mono[i] := mono[i] * scale;
    }
  }

  /** All channels averaged into one, as long as the first. */
  method Average(input: seq<Plane>) returns (average: Plane)
    requires input != []
    ensures |average| == |input[0]|
    ensures forall f :: 0 <= f < |average| ==> average[f] == SumAt(input, f) / |input| as real
  {
    var mono := new real[|input[0]|](_ => 0.0);
    for k := 0 to |input|
      invariant forall f :: 0 <= f < mono.Length ==> mono[f] == SumAt(input[..k], f)
    {
      assert input[..k + 1][..k] == input[..k];
      AddChannel(mono, input[k]);
    }
    assert input[..|input|] == input;
    Scale(mono, |input| as real);
    return mono[..];
  }

  method MixPlanar(input: seq<Plane>, outChannels: nat) returns (planes: seq<Plane>)
    ensures planes == Mixed(input, outChannels)
  {
    if |input| == 0 || outChannels == 0 {
      return seq(outChannels, _ => []);
    }
    if |input| == outChannels {
      return input;
    }
    if |input| == 1 {
      return seq(outChannels, _ => input[0]);
    }
    if outChannels == 1 {
      var mono := Average(input);
      assert mono == Mixed(input, 1)[0];
      return [mono];
    }
    planes := [];
    for i := 0 to outChannels
      invariant |planes| == i && forall c :: 0 <= c < i ==> planes[c] == input[c % |input|]
    {
      planes := planes + [input[i % |input|]];
    }
  }

  /** One frame mixed: the same channels, one channel for all, the average, or channels in turn. */
  function MixFrame(frame: Frame, outChannels: nat): (mixed: Frame)
    ensures |mixed| == outChannels
  {
    if frame == [] then seq(outChannels, _ => 0.0)
    else if |frame| == outChannels then frame
    else if outChannels == 1 then [Sum(frame) / |frame| as real]
    else seq(outChannels, i requires 0 <= i < outChannels => frame[i % |frame|])
  }

  function Sum(frame: Frame): (sum: real) {
    if frame == [] then 0.0 else Sum(frame[..|frame| - 1]) + frame[|frame| - 1]
  }

  predicate Within(frame: Frame, low: real, high: real) {
    forall i :: 0 <= i < |frame| ==> low <= frame[i] <= high
  }

  lemma {:induction false} SumWithin(frame: Frame, low: real, high: real)
    requires Within(frame, low, high)
    ensures |frame| as real * low <= Sum(frame) <= |frame| as real * high
    decreases |frame|
  {
    if frame == [] {
    } else {
      var n := |frame| - 1;
      SumWithin(frame[..n], low, high);
      assert |frame| as real == n as real + 1.0;
      OneMore(n as real, low);
      OneMore(n as real, high);
    }
  }

  lemma {:induction false} OneMore(n: real, bound: real)
    ensures (n + 1.0) * bound == n * bound + bound
  {
  }

  lemma {:induction false} PositiveProduct(a: real, b: real)
    ensures a > 0.0 && b > 0.0 ==> a * b > 0.0
  {
  }

  lemma {:induction false} QuotientWithin(sum: real, n: real, low: real, high: real)
    requires n > 0.0 && n * low <= sum <= n * high
    ensures low <= sum / n <= high
  {
    var q := sum / n;
    assert q * n == sum;
    PositiveProduct(low - q, n);
    PositiveProduct(q - high, n);
  }

  /** Mixing never leaves the range of the samples mixed, so it cannot clip, and keeps a common value. */
  lemma {:induction false} MixingStaysWithin(frame: Frame, outChannels: nat, low: real, high: real)
    requires frame != [] && Within(frame, low, high)
    ensures Within(MixFrame(frame, outChannels), low, high)
  {
    if |frame| != outChannels && outChannels == 1 {
      SumWithin(frame, low, high);
      QuotientWithin(Sum(frame), |frame| as real, low, high);
    }
  }

  /** Raising one sample raises the sum by as much. */
  lemma {:induction false} SumRaised(frame: Frame, c: nat, d: real)
    requires c < |frame|
    ensures Sum(frame[c := frame[c] + d]) == Sum(frame) + d
    decreases |frame|
  {
    var n, raised := |frame| - 1, frame[c := frame[c] + d];
    if c == n {
      assert raised[..n] == frame[..n];
    } else {
      SumRaised(frame[..n], c, d);
      assert raised[..n] == frame[..n][c := frame[c] + d];
    }
  }

  lemma {:induction false} SumWithout(frame: Frame, c: nat)
    requires c < |frame|
    ensures Sum(frame) == Sum(frame[..c] + frame[c + 1..]) + frame[c]
    decreases |frame|
  {
    var n, rest := |frame| - 1, frame[..c] + frame[c + 1..];
    if c == n {
      assert rest == frame[..n];
    } else {
      SumWithout(frame[..n], c);
      assert rest[..n - 1] == frame[..n][..c] + frame[..n][c + 1..] && rest[n - 1] == frame[n];
    }
  }

  lemma {:induction false} TakenOut(frame: Frame, c: nat)
    requires c < |frame|
    ensures multiset(frame[..c] + frame[c + 1..]) == multiset(frame) - multiset{frame[c]}
  {
    assert frame == frame[..c] + [frame[c]] + frame[c + 1..];
  }

  /** The order of the samples does not matter. */
  lemma {:induction false} SumReordered(a: Frame, b: Frame)
    requires multiset(a) == multiset(b)
    ensures Sum(a) == Sum(b)
    decreases |a|
  {
    assert |a| == |multiset(a)| == |multiset(b)| == |b|;
    if a == [] {
    } else {
      var n := |a| - 1;
      assert a[n] in multiset(b);
      var c :| 0 <= c < |b| && b[c] == a[n];
      TakenOut(a, n);
      TakenOut(b, c);
      assert a[..n] + a[n + 1..] == a[..n];
      SumReordered(a[..n], b[..c] + b[c + 1..]);
      SumWithout(b, c);
    }
  }

  lemma {:induction false} QuotientRaised(sum: real, d: real, n: real)
    requires n > 0.0
    ensures (sum + d) / n == sum / n + d / n && sum / n * n == sum
  {
  }

  lemma {:induction false} MonoIsQuotient(frame: Frame)
    requires frame != []
    ensures MixFrame(frame, 1)[0] == Sum(frame) / |frame| as real
  {
    if |frame| == 1 {
      assert Sum(frame) == Sum(frame[..0]) + frame[0] && Sum(frame[..0]) == 0.0;
    }
  }

  /**
   What a mono device is given of a frame: as often as there are channels, it is the sum of their samples, and a
   sample raised by `d` raises it by `d / channels`.
   */
  lemma {:induction false} MonoIsTheMean(frame: Frame, c: nat, d: real)
    requires c < |frame|
    ensures MixFrame(frame, 1)[0] * |frame| as real == Sum(frame)
    ensures MixFrame(frame[c := frame[c] + d], 1)[0] == MixFrame(frame, 1)[0] + d / |frame| as real
  {
    var n := |frame| as real;
    SumRaised(frame, c, d);
    MonoIsQuotient(frame);
    MonoIsQuotient(frame[c := frame[c] + d]);
    QuotientRaised(Sum(frame), d, n);
  }

  /** Every channel weighs the same: their order does not matter. */
  lemma {:induction false} MonoOfAnyOrder(a: Frame, b: Frame)
    requires a != [] && multiset(a) == multiset(b)
    ensures MixFrame(a, 1) == MixFrame(b, 1)
  {
    assert |a| == |multiset(a)| == |multiset(b)| == |b|;
    SumReordered(a, b);
    MonoIsQuotient(a);
    MonoIsQuotient(b);
  }

  /** The same of planes: each sample of the one plane is the mean of the samples of its frame. */
  lemma {:induction false} MonoPlaneIsTheMean(frames: seq<Frame>, channels: nat, f: nat)
    requires channels > 0 && OfWidth(frames, channels) && f < |frames|
    ensures var mono := Mixed(Planes(frames, channels), 1);
            |mono[0]| == |frames| && mono[0][f] * channels as real == Sum(frames[f])
  {
    MixedIsFramewise(frames, channels, 1);
    MonoIsTheMean(frames[f], 0, 0.0);
  }

  /** A plane's sample at `f`, and nothing where the plane has ended. */
  function OrNothing(planes: seq<Plane>, f: nat): (frame: Frame)
    ensures |frame| == |planes|
    ensures forall c :: 0 <= c < |planes| ==> frame[c] == if f < |planes[c]| then planes[c][f] else 0.0
  {
    seq(|planes|, c requires 0 <= c < |planes| => if f < |planes[c]| then planes[c][f] else 0.0)
  }

  lemma {:induction false} SumAtCounts(planes: seq<Plane>, f: nat)
    ensures SumAt(planes, f) == Sum(OrNothing(planes, f))
    decreases |planes|
  {
    if planes == [] {
    } else {
      SumAtCounts(planes[..|planes| - 1], f);
      assert OrNothing(planes, f)[..|planes| - 1] == OrNothing(planes[..|planes| - 1], f);
    }
  }

  /** Of planes of any lengths: the first decides how many samples there are, and one that has ended adds nothing. */
  lemma {:induction false} RaggedMonoIsTheMean(planes: seq<Plane>, f: nat)
    requires planes != [] && f < |planes[0]|
    ensures var mono := Mixed(planes, 1);
            |mono[0]| == |planes[0]| && mono[0][f] * |planes| as real == Sum(OrNothing(planes, f))
  {
    SumAtCounts(planes, f);
    QuotientRaised(SumAt(planes, f), 0.0, |planes| as real);
    if |planes| == 1 {
      assert OrNothing(planes, f) == [planes[0][f]] && [planes[0][f]][..0] == [];
      assert Sum([planes[0][f]]) == Sum([]) + planes[0][f];
    }
  }

  lemma {:induction false} MultipleIsFar(k: int, n: int)
    requires n > 0
    ensures k >= 1 ==> k * n >= n
    ensures k <= -1 ==> k * n <= -n
  {
  }

  lemma {:induction false} ModOfRest(c: nat, n: nat)
    requires n > 0
    ensures c < n ==> c % n == c
    ensures c >= n ==> c % n == (c - n) % n
  {
    if c >= n {
      var q, r, k, t := c / n, c % n, (c - n) / n, (c - n) % n;
      assert c == q * n + r && c - n == k * n + t;
      assert (q - 1 - k) * n == t - r;
      MultipleIsFar(q - 1 - k, n);
    }
  }

  lemma {:induction false} ChannelOf(frame: Frame, outChannels: nat, c: nat)
    requires frame != [] && c < outChannels && outChannels != 1
    ensures MixFrame(frame, outChannels)[c] == frame[c % |frame|]
  {
    ModOfRest(c, |frame|);
  }

  /** Given more or fewer channels than there are, but not one: channels keep their places, and begin again. */
  lemma {:induction false} ChannelsInTurn(frame: Frame, outChannels: nat, c: nat)
    requires frame != [] && c < outChannels && outChannels != 1
    ensures c < |frame| ==> MixFrame(frame, outChannels)[c] == frame[c]
    ensures c >= |frame| ==> MixFrame(frame, outChannels)[c] == MixFrame(frame, outChannels)[c - |frame|]
  {
    ModOfRest(c, |frame|);
    ChannelOf(frame, outChannels, c);
    if c >= |frame| {
      ChannelOf(frame, outChannels, c - |frame|);
    }
  }

  /** The same of planes of any lengths; and of no planes nothing is made. */
  lemma {:induction false} PlanesInTurn(input: seq<Plane>, outChannels: nat, c: nat)
    requires c < outChannels && (input == [] || outChannels != 1)
    ensures input == [] ==> Mixed(input, outChannels)[c] == []
    ensures c < |input| ==> Mixed(input, outChannels)[c] == input[c]
    ensures 0 < |input| <= c ==> Mixed(input, outChannels)[c] == Mixed(input, outChannels)[c - |input|]
  {
    if input != [] {
      ModOfRest(c, |input|);
      PlaneInTurn(input, outChannels, c);
      if c >= |input| {
        PlaneInTurn(input, outChannels, c - |input|);
      }
    }
  }

  lemma {:induction false} PlaneInTurn(input: seq<Plane>, outChannels: nat, c: nat)
    requires input != [] && c < outChannels && outChannels != 1
    ensures Mixed(input, outChannels)[c] == input[c % |input|]
  {
    ModOfRest(c, |input|);
  }

  function MixAll(frames: seq<Frame>, outChannels: nat): (mixed: seq<Frame>)
    ensures |mixed| == |frames| && OfWidth(mixed, outChannels)
    ensures forall f :: 0 <= f < |frames| ==> mixed[f] == MixFrame(frames[f], outChannels)
  {
    seq(|frames|, f requires 0 <= f < |frames| => MixFrame(frames[f], outChannels))
  }

  lemma {:induction false} SumAtIsSum(planes: seq<Plane>, frame: Frame, f: nat)
    requires |planes| == |frame| && forall c :: 0 <= c < |planes| ==> f < |planes[c]| && planes[c][f] == frame[c]
    ensures SumAt(planes, f) == Sum(frame)
    decreases |planes|
  {
    if planes == [] {
    } else {
      SumAtIsSum(planes[..|planes| - 1], frame[..|frame| - 1], f);
    }
  }

  /** Mixing works frame by frame, and always gives exactly the channels asked for, all of one length. */
  lemma {:induction false} MixedIsFramewise(frames: seq<Frame>, channels: nat, outChannels: nat)
    requires channels > 0 && OfWidth(frames, channels)
    ensures Mixed(Planes(frames, channels), outChannels) == Planes(MixAll(frames, outChannels), outChannels)
  {
    var input, mixed := Planes(frames, channels), MixAll(frames, outChannels);
    forall c | 0 <= c < outChannels ensures Mixed(input, outChannels)[c] == PlaneOf(mixed, outChannels, c) {
      MixedPlane(frames, channels, outChannels, c);
    }
  }

  lemma {:induction false} MixedPlane(frames: seq<Frame>, channels: nat, outChannels: nat, c: nat)
    requires channels > 0 && OfWidth(frames, channels) && c < outChannels
    ensures Mixed(Planes(frames, channels), outChannels)[c] == PlaneOf(MixAll(frames, outChannels), outChannels, c)
  {
    var input := Planes(frames, channels);
    var plane, expected := Mixed(input, outChannels)[c], PlaneOf(MixAll(frames, outChannels), outChannels, c);
    forall f | 0 <= f < |frames| ensures |plane| == |frames| && plane[f] == expected[f] {
      if channels != outChannels && channels != 1 && outChannels == 1 {
        SumAtIsSum(input, frames[f], f);
      }
    }
    assert |input[0]| == |frames|;
    assert |plane| == |frames|;
  }

  // ----- Interleaving -----------------------------------------------------------------------------

  /** The length of the shortest plane. */
  function Shortest(planes: seq<Plane>): (n: nat)
    requires planes != []
    ensures forall c :: 0 <= c < |planes| ==> n <= |planes[c]|
    ensures exists c :: 0 <= c < |planes| && n == |planes[c]|
  {
    var last := |planes[|planes| - 1]|;
    if |planes| == 1 then last
    else
      var n := Shortest(planes[..|planes| - 1]);
      if n <= last then n else last
  }

  function FrameAt(planes: seq<Plane>, f: nat): (frame: Frame)
    requires forall c :: 0 <= c < |planes| ==> f < |planes[c]|
    ensures |frame| == |planes|
  {
    seq(|planes|, c requires 0 <= c < |planes| => planes[c][f])
  }

  /** The first `n` frames of `planes`, one sample after the other. */
  function FirstFrames(planes: seq<Plane>, n: nat): (samples: seq<real>)
    requires forall c :: 0 <= c < |planes| ==> n <= |planes[c]|
  {
    if n == 0 then [] else FirstFrames(planes, n - 1) + FrameAt(planes, n - 1)
  }

  /** Frame after frame; the shortest plane decides how many. */
  function Interleaved(planes: seq<Plane>): (samples: seq<real>) {
    if planes == [] then [] else FirstFrames(planes, Shortest(planes))
  }

  method Interleave(planar: seq<Plane>) returns (out: seq<real>)
    ensures out == Interleaved(planar)
  {
    if |planar| == 0 {
      return [];
    }
    out := [];
    var frames := Shortest(planar);
    for frame := 0 to frames
      invariant out == FirstFrames(planar, frame)
    {
      ghost var before := out;
      for c := 0 to |planar|
        invariant out == before + FrameAt(planar, frame)[..c]
      {
        out := out + [planar[c][frame]];
      }
      assert FrameAt(planar, frame)[..|planar|] == FrameAt(planar, frame);
    }
  }

  /** All samples of a list of frames. */
  function Flat(frames: seq<Frame>): (samples: seq<real>) {
    if frames == [] then [] else Flat(frames[..|frames| - 1]) + frames[|frames| - 1]
  }

  lemma {:induction false} FlatConcat(a: seq<Frame>, b: seq<Frame>)
    ensures Flat(a + b) == Flat(a) + Flat(b)
    decreases |b|
  {
    if b == [] {
      assert a + b == a;
    } else {
      FlatConcat(a, b[..|b| - 1]);
      assert (a + b)[..|a + b| - 1] == a + b[..|b| - 1];
      Regroup(Flat(a), Flat(b[..|b| - 1]), b[|b| - 1]);
    }
  }

  lemma {:induction false} FirstFramesAreFlat(frames: seq<Frame>, channels: nat, n: nat)
    requires OfWidth(frames, channels) && n <= |frames|
    ensures FirstFrames(Planes(frames, channels), n) == Flat(frames[..n])
  {
    if n == 0 {
    } else {
      FirstFramesAreFlat(frames, channels, n - 1);
      assert frames[..n][..n - 1] == frames[..n - 1];
      assert FrameAt(Planes(frames, channels), n - 1) == frames[n - 1];
    }
  }

  /** Interleaving puts the frames back one after the other. */
  lemma {:induction false} InterleavedIsFlat(frames: seq<Frame>, channels: nat)
    requires channels > 0 && OfWidth(frames, channels)
    ensures Interleaved(Planes(frames, channels)) == Flat(frames)
  {
    assert Shortest(Planes(frames, channels)) == |frames|;
    FirstFramesAreFlat(frames, channels, |frames|);
    assert frames[..|frames|] == frames;
  }

  // ----- Back to s16le ----------------------------------------------------------------------------

  function Clamp(s: real): (r: real)
    ensures -1.0 <= r <= 1.0
  {
    if s < -1.0 then -1.0 else if s > 1.0 then 1.0 else s
  }

  /** To the nearest integer, halves away from zero. */
  function Round(s: real): (v: int) {
    if s >= 0.0 then (s + 0.5).Floor else -((0.5 - s).Floor)
  }

  function EncodeSample(s: real): (v: int)
    ensures -32767 <= v <= 32767
  {
    Round(Clamp(s) * I16_MAX)
  }

  /** The two little-endian bytes of a sample. */
  function Bytes16(v: int): (bytes: seq<byte>)
    requires -32768 <= v < 32768
    ensures |bytes| == 2 && I16(bytes[0], bytes[1]) == v
  {
    var u := if v < 0 then v + 65536 else v;
    [u % 256, u / 256]
  }

  function Encoded(samples: seq<real>): (bytes: seq<byte>) {
    if samples == [] then []
    else Encoded(samples[..|samples| - 1]) + Bytes16(EncodeSample(samples[|samples| - 1]))
  }

  method ToI16le(samples: seq<real>, out: seq<byte>) returns (out': seq<byte>)
    ensures out' == out + Encoded(samples)
  {
    out' := out;
    for i := 0 to |samples|
      invariant out' == out + Encoded(samples[..i])
    {
      assert samples[..i + 1][..i] == samples[..i];
      var scaled := Clamp(samples[i]) * I16_MAX;
      out' := out' + Bytes16(Round(scaled));
    }
    assert samples[..|samples|] == samples;
  }

  lemma {:induction false} EncodedConcat(a: seq<real>, b: seq<real>)
    ensures Encoded(a + b) == Encoded(a) + Encoded(b)
    decreases |b|
  {
    if b == [] {
      assert a + b == a;
    } else {
      EncodedConcat(a, b[..|b| - 1]);
      assert (a + b)[..|a + b| - 1] == a + b[..|b| - 1];
      Regroup(Encoded(a), Encoded(b[..|b| - 1]), Bytes16(EncodeSample(b[|b| - 1])));
    }
  }

  /** The nearest integer, and of two as near the one farther from zero. */
  lemma {:induction false} RoundsToNearest(s: real)
    ensures -0.5 <= Round(s) as real - s <= 0.5
    ensures Round(s) as real - s == 0.5 ==> s > 0.0
    ensures Round(s) as real - s == -0.5 ==> s < 0.0
  {
  }

  /** A sample within the range is encoded as the nearest integer to 32767 times it; any other as the nearest end. */
  lemma {:induction false} EncodesNearest(s: real)
    ensures -1.0 <= s <= 1.0 ==> -0.5 <= EncodeSample(s) as real - s * 32767.0 <= 0.5
    ensures s >= 1.0 ==> EncodeSample(s) == 32767
    ensures s <= -1.0 ==> EncodeSample(s) == -32767
  {
    RoundsToNearest(Clamp(s) * I16_MAX);
  }

  /** The low byte comes first, and the high byte counts 256; a negative sample is 65536 less than its bytes say. */
  lemma {:induction false} LowByteFirst(v: int)
    requires -32768 <= v < 32768
    ensures Bytes16(v)[0] as int + 256 * Bytes16(v)[1] as int == if v < 0 then v + 65536 else v
    ensures forall low: byte, high: byte :: I16(low, high) == v <==> [low, high] == Bytes16(v)
  {
    forall low: byte, high: byte ensures I16(low, high) == v <==> [low, high] == Bytes16(v) {
      BytesAreUnique(low, high);
    }
  }

  // ----- There and back ---------------------------------------------------------------------------

  function Saturated(v: int): (w: int) { if v < -32767 then -32767 else v }

  /** A sample survives, but for the most negative one. */
  lemma {:induction false} SampleSurvives(low: byte, high: byte)
    ensures EncodeSample(DecodeSample(low, high)) == Saturated(I16(low, high))
  {
    var v := I16(low, high);
    var s := v as real / I16_MAX;
    assert s * I16_MAX == v as real;
    if v >= -32767 {
      assert Clamp(s) == s;
    }
  }

  lemma {:induction false} BytesAreUnique(low: byte, high: byte)
    ensures Bytes16(I16(low, high)) == [low, high]
  {
  }

  /** Sixteen-bit samples with every -32768 replaced by -32767. */
  function SaturatedBytes(bytes: seq<byte>): (r: seq<byte>) {
    if |bytes| < 2 then []
    else Bytes16(Saturated(I16(bytes[0], bytes[1]))) + SaturatedBytes(bytes[2..])
  }

  lemma {:induction false} SaturatedConcat(a: seq<byte>, b: seq<byte>)
    requires |a| % 2 == 0
    ensures SaturatedBytes(a + b) == SaturatedBytes(a) + SaturatedBytes(b)
    decreases |a|
  {
    if a == [] {
      assert a + b == b;
    } else {
      assert (a + b)[2..] == a[2..] + b;
      SaturatedConcat(a[2..], b);
      Regroup(Bytes16(Saturated(I16(a[0], a[1]))), SaturatedBytes(a[2..]), SaturatedBytes(b));
    }
  }

  lemma {:induction false} DecodeFrameSplit(front: seq<byte>, low: byte, high: byte)
    requires |front| % 2 == 0
    ensures DecodeFrame(front + [low, high]) == DecodeFrame(front) + [DecodeSample(low, high)]
  {
  }

  lemma {:induction false} FrameSurvives(block: seq<byte>)
    requires |block| % 2 == 0
    ensures Encoded(DecodeFrame(block)) == SaturatedBytes(block)
    decreases |block|
  {
    if block == [] {
    } else {
      var n := |block| - 2;
      var front, low, high := block[..n], block[n], block[n + 1];
      FrameSurvives(front);
      assert block == front + [low, high];
      DecodeFrameSplit(front, low, high);
      EncodedConcat(DecodeFrame(front), [DecodeSample(low, high)]);
      OneSample(low, high);
      SaturatedConcat(front, [low, high]);
    }
  }

  lemma {:induction false} OneSample(low: byte, high: byte)
    ensures Encoded([DecodeSample(low, high)]) == SaturatedBytes([low, high])
  {
    SampleSurvives(low, high);
    var v := Saturated(I16(low, high));
    assert [low, high][2..] == [] && Bytes16(v) + [] == Bytes16(v) == [] + Bytes16(v);
    assert Encoded([DecodeSample(low, high)][..0]) == [];
  }

  lemma {:induction false} FramesSurvive(bytes: seq<byte>, channels: nat)
    requires channels > 0
    ensures Encoded(Flat(DecodeFrames(bytes, channels))) == SaturatedBytes(Glued(Blocks(bytes, 2 * channels)))
    decreases |bytes|
  {
    var n := 2 * channels;
    BlocksStep(bytes, n);
    DecodeOneMore(bytes, channels);
    if |bytes| < n {
    } else {
      var block, rest := bytes[..n], bytes[n..];
      var frame, frames := DecodeFrame(block), DecodeFrames(rest, channels);
      FramesSurvive(rest, channels);
      FrameSurvives(block);
      FlatConcat([frame], frames);
      assert Flat([frame]) == Flat([]) + frame == frame;
      EncodedConcat(frame, Flat(frames));
      GluedStep(block, Blocks(rest, n));
      SaturatedConcat(block, Glued(Blocks(rest, n)));
    }
  }

  /** No sample is the most negative one. */
  predicate NoExtreme(bytes: seq<byte>) {
    |bytes| < 2 || (I16(bytes[0], bytes[1]) != -32768 && NoExtreme(bytes[2..]))
  }

  lemma {:induction false} SaturationChangesExtremesOnly(bytes: seq<byte>)
    requires |bytes| % 2 == 0
    ensures SaturatedBytes(bytes) == bytes <==> NoExtreme(bytes)
    decreases |bytes|
  {
    if bytes == [] {
    } else {
      SaturationChangesExtremesOnly(bytes[2..]);
      BytesAreUnique(bytes[0], bytes[1]);
      assert bytes == [bytes[0], bytes[1]] + bytes[2..];
      assert SaturatedBytes(bytes)[2..] == SaturatedBytes(bytes[2..]);
      assert I16(SaturatedBytes(bytes)[0], SaturatedBytes(bytes)[1]) == Saturated(I16(bytes[0], bytes[1]));
    }
  }

  /**
   Decoding, mixing to the same number of channels, interleaving and encoding gives back the whole frames,
   however many, with -32768 turned into -32767; so it is the identity exactly when no sample is -32768.
   */
  lemma {:induction false} ThereAndBack(bytes: seq<byte>, channels: nat)
    requires channels > 0
    ensures var whole := Glued(Blocks(bytes, 2 * channels));
            var back := Encoded(Interleaved(Mixed(Planes(DecodeFrames(bytes, channels), channels), channels)));
            && bytes == whole + Rest(bytes, 2 * channels) && |Rest(bytes, 2 * channels)| < 2 * channels
            && back == SaturatedBytes(whole)
            && (back == whole <==> NoExtreme(whole))
  {
    var whole, planes := Glued(Blocks(bytes, 2 * channels)), Planes(DecodeFrames(bytes, channels), channels);
    BlocksAre(bytes, 2 * channels);
    InterleavedIsFlat(DecodeFrames(bytes, channels), channels);
    FramesSurvive(bytes, channels);
    GluedIsEven(Blocks(bytes, 2 * channels), channels);
    SaturationChangesExtremesOnly(whole);
  }

  lemma {:induction false} GluedIsEven(blocks: seq<seq<byte>>, n: nat)
    requires forall i :: 0 <= i < |blocks| ==> |blocks[i]| == 2 * n
    ensures |Glued(blocks)| % 2 == 0
  {
    if blocks == [] {
    } else {
      GluedIsEven(blocks[1..], n);
      assert |Glued(blocks)| == 2 * n + |Glued(blocks[1..])|;
    }
  }
}
