/**
 The local device (src/audio/output.rs): a bounded buffer that writers extend and the device callback
 drains. The history of a run is kept in the model: all samples written, and for each sample that has left
 the buffer whether it was played or dropped. Conversion to the device's sample type is left out.
 */
module Output {

  const MAX_BUFFERED_SAMPLES := 48_000 * 2 * 12
  const PREBUFFER_SECONDS_NUM := 3
  const PREBUFFER_SECONDS_DEN := 5
  const SILENCE := 0.0

  /** The cushion to accumulate before the first real output. */
  function Prebuffer(rate: nat, channels: nat): (n: nat) {
    rate * channels * PREBUFFER_SECONDS_NUM / PREBUFFER_SECONDS_DEN
  }

  /**
   `gone[i]` tells of the written sample `i` whether it was played; what has not gone is in the buffer.
   `slots[k]` is the index of the sample that device slot `k` received, or -1 for silence.
   */
  datatype State = State(written: seq<real>, gone: seq<bool>, primed: bool, slots: seq<int>)

  const NEW := State([], [], false, [])

  predicate Sound(st: State) { |st.gone| <= |st.written| }

  function Buffer(st: State): (buffer: seq<real>)
    requires Sound(st)
    ensures |buffer| == |st.written| - |st.gone|
  {
    st.written[|st.gone|..]
  }

  /** The oldest sample leaves without being played. */
  function DropOne(st: State): (st': State)
    requires Sound(st) && |Buffer(st)| > 0
  {
    st.(gone := st.gone + [false])
  }

  /** A slot gets the oldest sample, or silence when there is none. */
  function PopOne(st: State): (st': State)
    requires Sound(st)
  {
    if |Buffer(st)| > 0 then st.(gone := st.gone + [true], slots := st.slots + [|st.gone|]) else HushOne(st)
  }

  /** A slot gets silence. */
  function HushOne(st: State): (st': State) { st.(slots := st.slots + [-1]) }

  function Drop(st: State, n: nat): (st': State)
    requires Sound(st) && n <= |Buffer(st)|
    ensures Sound(st') && |st'.gone| == |st.gone| + n
    ensures st' == st.(gone := st'.gone)
  {
    if n == 0 then st else DropOne(Drop(st, n - 1))
  }

  function Pop(st: State, n: nat): (st': State)
    requires Sound(st)
    ensures Sound(st') && st'.written == st.written && st'.primed == st.primed && |st'.slots| == |st.slots| + n
    ensures |st'.gone| == |st.gone| + (if n < |Buffer(st)| then n else |Buffer(st)|)
    ensures st.slots <= st'.slots
  {
    if n == 0 then st else PopOne(Pop(st, n - 1))
  }

  function Hush(st: State, n: nat): (st': State)
    ensures st' == st.(slots := st'.slots) && |st'.slots| == |st.slots| + n
    ensures forall k :: |st.slots| <= k < |st'.slots| ==> st'.slots[k] == -1
    ensures st.slots <= st'.slots
  {
    if n == 0 then st else HushOne(Hush(st, n - 1))
  }

  /** Samples go to the back; beyond the bound the oldest are dropped. */
  function AfterWrite(st: State, samples: seq<real>): (st': State)
    requires Sound(st)
    ensures Sound(st') && |Buffer(st')| <= MAX_BUFFERED_SAMPLES
  {
    var longer := st.(written := st.written + samples);
    if |Buffer(longer)| > MAX_BUFFERED_SAMPLES then Drop(longer, |Buffer(longer)| - MAX_BUFFERED_SAMPLES) else longer
  }

  /** A callback for `n` slots: silence until the cushion is reached once, then what there is. */
  function AfterCallback(st: State, n: nat, prebuffer: nat): (st': State)
    requires Sound(st)
    ensures Sound(st')
  {
    if !st.primed && |Buffer(st)| < prebuffer then Hush(st, n) else Pop(st.(primed := true), n)
  }

  /** What slot `k` of the device was given. */
  function Given(st: State, k: nat): (sample: real)
    requires k < |st.slots| && st.slots[k] < |st.written|
  {
    if st.slots[k] < 0 then SILENCE else st.written[st.slots[k]]
  }

  predicate IsGiven(st: State, k: nat, sample: real) {
    k < |st.slots| && st.slots[k] < |st.written| && sample == Given(st, k)
  }

  /** The last `n` of some samples, or all if there are no more. */
  function Latest(samples: seq<real>, n: nat): (last: seq<real>) {
    if |samples| <= n then samples else samples[|samples| - n..]
  }

  /** A write keeps what fits, and beyond that the newest; not a sample is dropped that could stay. */
  lemma {:induction false} WriteKeepsLatest(st: State, samples: seq<real>)
    requires Sound(st)
    ensures Buffer(AfterWrite(st, samples)) == Latest(Buffer(st) + samples, MAX_BUFFERED_SAMPLES)
    ensures AfterWrite(st, samples).primed == st.primed && AfterWrite(st, samples).slots == st.slots
  {
    assert Buffer(st.(written := st.written + samples)) == Buffer(st) + samples;
  }

  /** Slots are given the samples of the buffer in order, and silence when they run out. */
  lemma {:induction false} PopGives(st: State, n: nat, k: nat)
    requires Sound(st) && k < n
    ensures Pop(st, n).slots[|st.slots| + k] == if k < |Buffer(st)| then |st.gone| + k else -1
  {
    if k < n - 1 {
      PopGives(st, n - 1, k);
    }
  }

  /** The device may play: the cushion is there now, or was there once. */
  predicate Reached(st: State, prebuffer: nat)
    requires Sound(st)
  {
    st.primed || |Buffer(st)| >= prebuffer
  }

  /**
   A callback for `n` slots, once the cushion has been reached, gives them the oldest samples of the buffer and then
   silence, and takes just these; before that it gives silence and takes nothing.
   */
  lemma {:induction false} CallbackPlays(st: State, n: nat, prebuffer: nat, k: nat)
    requires Sound(st) && k < n
    ensures var st', buffer := AfterCallback(st, n, prebuffer), Buffer(st);
            && st'.primed == Reached(st, prebuffer)
            && IsGiven(st', |st.slots| + k,
                       if Reached(st, prebuffer) && k < |buffer| then buffer[k] else SILENCE)
            && Buffer(st') == if !Reached(st, prebuffer) then buffer
                              else if n < |buffer| then buffer[n..] else []
  {
    if Reached(st, prebuffer) {
      PopGives(st.(primed := true), n, k);
    }
  }

  // ----- The device -------------------------------------------------------------------------------

  class AudioOutput {
    const prebuffer: nat
    var buffer: seq<real>
    var primed: bool
    ghost var history: State

    ghost predicate Valid()
      reads this
    {
      Sound(history) && buffer == Buffer(history) && primed == history.primed
    }

    constructor (rate: nat, channels: nat)
      ensures Valid() && history == NEW && prebuffer == Prebuffer(rate, channels)
    {
      prebuffer := rate * channels * PREBUFFER_SECONDS_NUM / PREBUFFER_SECONDS_DEN;
      buffer, primed, history := [], false, NEW;
    }

    method Write(samples: seq<real>)
      requires Valid()
      modifies this
      ensures Valid() && history == AfterWrite(old(history), samples)
      ensures buffer == Latest(old(buffer) + samples, MAX_BUFFERED_SAMPLES) && primed == old(primed)
    {
      WriteKeepsLatest(history, samples);
      ghost var longer := history.(written := history.written + samples);
      buffer := buffer + samples;
      assert buffer == Buffer(longer);
      if |buffer| > MAX_BUFFERED_SAMPLES {
        var overflow := |buffer| - MAX_BUFFERED_SAMPLES;
        buffer := buffer[overflow..];
        assert buffer == Buffer(Drop(longer, overflow));
      }
      history := AfterWrite(history, samples);
    }

    /** The front of the buffer, or silence. */
    method PopFront() returns (sample: real)
      requires Valid()
      modifies this`buffer, this`history
      ensures Valid() && history == PopOne(old(history))
      ensures var slot := |old(history.slots)|;
              history.slots[slot] < |history.written| && sample == Given(history, slot)
    {
      if |buffer| > 0 {
        sample := buffer[0];
        buffer := buffer[1..];
      } else {
        sample := SILENCE;
      }
      history := PopOne(history);
    }

    /** Pops into each slot in turn; an empty buffer gives silence. */
    method FillOutput(data: array<real>)
      requires Valid()
      modifies this`buffer, this`history, data
      ensures Valid() && history == Pop(old(history), data.Length)
      ensures forall k :: 0 <= k < data.Length ==> IsGiven(history, |old(history.slots)| + k, data[k])
    {
      ghost var was := history;
      for i := 0 to data.Length
        invariant Valid() && history == Pop(was, i)
        invariant forall k :: 0 <= k < i ==> IsGiven(history, |was.slots| + k, data[k])
      {
        ghost var before := history;
        data[i] := PopFront();
        forall k | 0 <= k <= i ensures IsGiven(history, |was.slots| + k, data[k]) {
          assert k < i ==> IsGiven(before, |was.slots| + k, data[k]);
        }
      }
    }

    /** The device callback; each slot is given what the history says. */
    method Callback(data: array<real>)
      requires Valid()
      modifies this, data
      ensures Valid() && history == AfterCallback(old(history), data.Length, prebuffer)
      ensures forall k :: 0 <= k < data.Length ==> IsGiven(history, |old(history.slots)| + k, data[k])
      ensures primed == (old(primed) || |old(buffer)| >= prebuffer)
      ensures forall k :: 0 <= k < data.Length ==>
                data[k] == if primed && k < |old(buffer)| then old(buffer)[k] else SILENCE
    {
      ghost var was := history;
      if !primed {
        if |buffer| < prebuffer {
          for i := 0 to data.Length
            modifies data
            invariant forall k :: 0 <= k < i ==> data[k] == SILENCE
          {
            data[i] := SILENCE;
          }
          history := Hush(history, data.Length);
          return;
        }
        primed := true;
        history := history.(primed := true);
      }
      FillOutput(data);
      forall k | 0 <= k < data.Length
        ensures data[k] == if k < |Buffer(was)| then Buffer(was)[k] else SILENCE
      {
        CallbackPlays(was, data.Length, prebuffer, k);
        assert IsGiven(history, |was.slots| + k, data[k]);
      }
    }
  }

  // ----- Runs -------------------------------------------------------------------------------------

  datatype Event = Write(samples: seq<real>) | Callback(slots: nat)

  function After(st: State, e: Event, prebuffer: nat): (st': State)
    requires Sound(st)
    ensures Sound(st')
  {
    match e
    case Write(samples) => AfterWrite(st, samples)
    case Callback(n) => AfterCallback(st, n, prebuffer)
  }

  function Run(events: seq<Event>, prebuffer: nat): (st: State)
    ensures Sound(st)
  {
    if events == [] then NEW else After(Run(events[..|events| - 1], prebuffer), events[|events| - 1], prebuffer)
  }

  /** The samples written, in order. */
  function Written(events: seq<Event>): (samples: seq<real>) {
    if events == [] then []
    else Written(events[..|events| - 1]) + (match events[|events| - 1] case Write(s) => s case Callback(_) => [])
  }

  // ----- Every sample once, in order --------------------------------------------------------------

  /** The positions of the samples that left as `played`. */
  function Left(gone: seq<bool>, played: bool): (positions: seq<int>) {
    if gone == [] then []
    else
      var n := |gone| - 1;
      Left(gone[..n], played) + (if gone[n] == played then [n] else [])
  }

  /** The samples the device was given, silence left out. */
  function Shown(slots: seq<int>): (positions: seq<int>) {
    if slots == [] then []
    else
      var n := |slots| - 1;
      Shown(slots[..n]) + (if slots[n] < 0 then [] else [slots[n]])
  }

  lemma {:induction false} LeftStep(gone: seq<bool>, last: bool, played: bool)
    ensures Left(gone + [last], played) == Left(gone, played) + (if last == played then [|gone|] else [])
  {
    assert (gone + [last])[..|gone|] == gone;
  }

  lemma {:induction false} ShownStep(slots: seq<int>, slot: int)
    ensures Shown(slots + [slot]) == Shown(slots) + (if slot < 0 then [] else [slot])
  {
    assert (slots + [slot])[..|slots|] == slots;
  }

  /** What the device was given is exactly what left as played, in the same order. */
  ghost predicate Accounted(st: State) {
    Shown(st.slots) == Left(st.gone, true)
  }

  lemma {:induction false} DropOneAccounts(st: State)
    requires Sound(st) && |Buffer(st)| > 0 && Accounted(st)
    ensures Accounted(DropOne(st))
  {
    LeftStep(st.gone, false, true);
    assert Left(st.gone, true) + [] == Left(st.gone, true);
  }

  lemma {:induction false} HushOneAccounts(st: State)
    requires Accounted(st)
    ensures Accounted(HushOne(st))
  {
    ShownStep(st.slots, -1);
    assert Shown(st.slots) + [] == Shown(st.slots);
  }

  lemma {:induction false} PopOneAccounts(st: State)
    requires Sound(st) && Accounted(st)
    ensures Accounted(PopOne(st))
  {
    if |Buffer(st)| > 0 {
      LeftStep(st.gone, true, true);
      ShownStep(st.slots, |st.gone|);
    } else {
      HushOneAccounts(st);
    }
  }

  lemma {:induction false} DropAccounts(st: State, n: nat)
    requires Sound(st) && n <= |Buffer(st)| && Accounted(st)
    ensures Accounted(Drop(st, n))
  {
    if n == 0 {
    } else {
      DropAccounts(st, n - 1);
      DropOneAccounts(Drop(st, n - 1));
    }
  }

  lemma {:induction false} PopAccounts(st: State, n: nat)
    requires Sound(st) && Accounted(st)
    ensures Accounted(Pop(st, n))
  {
    if n == 0 {
    } else {
      PopAccounts(st, n - 1);
      PopOneAccounts(Pop(st, n - 1));
    }
  }

  lemma {:induction false} HushAccounts(st: State, n: nat)
    requires Accounted(st)
    ensures Accounted(Hush(st, n))
  {
    if n == 0 {
    } else {
      HushAccounts(st, n - 1);
      HushOneAccounts(Hush(st, n - 1));
    }
  }

  lemma {:induction false} WriteAccounts(st: State, samples: seq<real>)
    requires Sound(st) && Accounted(st)
    ensures Accounted(AfterWrite(st, samples))
  {
    var longer := st.(written := st.written + samples);
    if |Buffer(longer)| > MAX_BUFFERED_SAMPLES {
      DropAccounts(longer, |Buffer(longer)| - MAX_BUFFERED_SAMPLES);
    }
  }

  lemma {:induction false} CallbackAccounts(st: State, n: nat, prebuffer: nat)
    requires Sound(st) && Accounted(st)
    ensures Accounted(AfterCallback(st, n, prebuffer))
  {
    HushAccounts(st, n);
    PopAccounts(st.(primed := true), n);
  }

  predicate Ascending(positions: seq<int>, n: nat) {
    && (forall i, j :: 0 <= i < j < |positions| ==> positions[i] < positions[j])
    && (forall i :: 0 <= i < |positions| ==> 0 <= positions[i] < n)
  }

  lemma {:induction false} LeftIsAscending(gone: seq<bool>, played: bool)
    ensures Ascending(Left(gone, played), |gone|)
    decreases |gone|
  {
    if gone == [] {
    } else {
      LeftIsAscending(gone[..|gone| - 1], played);
    }
  }

  lemma {:induction false} LeftOneWay(gone: seq<bool>)
    ensures |Left(gone, true)| + |Left(gone, false)| == |gone|
    decreases |gone|
  {
    if gone == [] {
    } else {
      LeftOneWay(gone[..|gone| - 1]);
    }
  }

  /**
   Over any run, the device is given samples in the order written, each at most once; every sample written
   has been played, or dropped, or is in the buffer; and the buffer never exceeds its bound.
   */
  lemma {:induction false} EverySampleOnce(events: seq<Event>, prebuffer: nat)
    ensures var st := Run(events, prebuffer);
            && st.written == Written(events) && |Buffer(st)| <= MAX_BUFFERED_SAMPLES
            && Shown(st.slots) == Left(st.gone, true)
            && Ascending(Shown(st.slots), |st.gone|)
            && |Shown(st.slots)| + |Left(st.gone, false)| + |Buffer(st)| == |Written(events)|
    decreases |events|
  {
    var st := Run(events, prebuffer);
    if events == [] {
    } else {
      var before, last := Run(events[..|events| - 1], prebuffer), events[|events| - 1];
      EverySampleOnce(events[..|events| - 1], prebuffer);
      match last {
        case Write(samples) => WriteAccounts(before, samples);
        case Callback(n) =>
          CallbackAccounts(before, n, prebuffer);
          assert Written(events[..|events| - 1]) + [] == Written(events[..|events| - 1]);
      }
    }
    LeftIsAscending(st.gone, true);
    LeftOneWay(st.gone);
  }

  // ----- Priming ----------------------------------------------------------------------------------

  predicate Silent(st: State) {
    true !in st.gone && forall k :: 0 <= k < |st.slots| ==> st.slots[k] < 0
  }

  lemma {:induction false} DropStaysSilent(st: State, n: nat)
    requires Sound(st) && n <= |Buffer(st)| && Silent(st)
    ensures Silent(Drop(st, n))
  {
    if n == 0 {
    } else {
      DropStaysSilent(st, n - 1);
    }
  }

  lemma {:induction false} HushStaysSilent(st: State, n: nat)
    requires Silent(st)
    ensures Silent(Hush(st, n))
  {
    if n == 0 {
    } else {
      HushStaysSilent(st, n - 1);
    }
  }

  /** Until the cushion has been reached once, nothing is played. */
  lemma {:induction false} NothingPlayedBeforePriming(events: seq<Event>, prebuffer: nat)
    ensures var st := Run(events, prebuffer);
            && (!st.primed ==> Silent(st))
            && (st.primed ==> prebuffer <= MAX_BUFFERED_SAMPLES)
    decreases |events|
  {
    if events == [] {
    } else {
      var before, last := Run(events[..|events| - 1], prebuffer), events[|events| - 1];
      NothingPlayedBeforePriming(events[..|events| - 1], prebuffer);
      EverySampleOnce(events[..|events| - 1], prebuffer);
      if !before.primed {
        match last {
          case Write(samples) =>
            var longer := before.(written := before.written + samples);
            if |Buffer(longer)| > MAX_BUFFERED_SAMPLES {
              DropStaysSilent(longer, |Buffer(longer)| - MAX_BUFFERED_SAMPLES);
            }
          case Callback(n) => HushStaysSilent(before, n);
        }
      }
    }
  }

  /** Event `m` is a callback that finds the cushion. */
  predicate FindsCushion(events: seq<Event>, prebuffer: nat, m: int) {
    0 <= m < |events| && events[m].Callback? && |Buffer(Run(events[..m], prebuffer))| >= prebuffer
  }

  lemma {:induction false} FindsInFront(events: seq<Event>, prebuffer: nat, m: int)
    requires events != []
    ensures FindsCushion(events, prebuffer, m) <==>
            FindsCushion(events[..|events| - 1], prebuffer, m)
            || (m == |events| - 1 && FindsCushion(events, prebuffer, m))
  {
    if 0 <= m < |events| - 1 {
      assert events[..|events| - 1][..m] == events[..m];
    }
  }

  lemma {:induction false} PrimedByLast(events: seq<Event>, prebuffer: nat)
    requires events != []
    ensures Run(events, prebuffer).primed <==>
            Run(events[..|events| - 1], prebuffer).primed || FindsCushion(events, prebuffer, |events| - 1)
  {
    var before, last := Run(events[..|events| - 1], prebuffer), events[|events| - 1];
    if last.Write? {
      WriteKeepsLatest(before, last.samples);
    }
  }

  /** Over any run: the device is primed iff some callback has found the cushion. */
  lemma {:induction false} PrimedExactly(events: seq<Event>, prebuffer: nat)
    ensures Run(events, prebuffer).primed <==> exists m :: FindsCushion(events, prebuffer, m)
    decreases |events|
  {
    if events == [] {
    } else {
      var front := events[..|events| - 1];
      PrimedExactly(front, prebuffer);
      PrimedByLast(events, prebuffer);
      if m :| FindsCushion(front, prebuffer, m) {
        FindsInFront(events, prebuffer, m);
        assert FindsCushion(events, prebuffer, m);
      } else if m :| FindsCushion(events, prebuffer, m) {
        FindsInFront(events, prebuffer, m);
      }
    }
  }

  /** So it is never taken back. */
  lemma {:induction false} PrimedForGood(events: seq<Event>, prebuffer: nat, n: nat)
    requires n <= |events| && Run(events[..n], prebuffer).primed
    ensures Run(events, prebuffer).primed
  {
    PrimedExactly(events[..n], prebuffer);
    PrimedExactly(events, prebuffer);
    var m :| FindsCushion(events[..n], prebuffer, m);
    assert events[..n][..m] == events[..m] && FindsCushion(events, prebuffer, m);
  }

  function Silences(n: nat): (samples: seq<real>)
    ensures |samples| == n
  {
    seq(n, _ => SILENCE)
  }

  /** A write of `n` samples and then a callback. */
  function WriteThenPlay(n: nat, slots: nat): (events: seq<Event>) {
    [Write(Silences(n)), Callback(slots)]
  }

  lemma {:induction false} AfterWriteThenPlay(n: nat, slots: nat, prebuffer: nat)
    ensures Run(WriteThenPlay(n, slots), prebuffer) == AfterCallback(AfterWrite(NEW, Silences(n)), slots, prebuffer)
  {
    var events, first := WriteThenPlay(n, slots), [Write(Silences(n))];
    assert events[..|events| - 1] == first && first[..|first| - 1] == [];
    assert Run(first, prebuffer) == AfterWrite(NEW, Silences(n));
  }

  /** Output can begin exactly when the cushion fits the buffer. */
  lemma {:induction false} PrimingIsReachableExactly(rate: nat, channels: nat)
    ensures (exists events :: Run(events, Prebuffer(rate, channels)).primed)
            <==> rate * channels * 3 / 5 <= 1_152_000
  {
    var prebuffer := Prebuffer(rate, channels);
    if prebuffer <= MAX_BUFFERED_SAMPLES {
      AfterWriteThenPlay(prebuffer, 0, prebuffer);
      assert Run(WriteThenPlay(prebuffer, 0), prebuffer).primed;
    } else {
      forall events ensures !Run(events, prebuffer).primed {
        NothingPlayedBeforePriming(events, prebuffer);
      }
    }
  }

  // ----- Channels ---------------------------------------------------------------------------------

  /** Whole frames apart. */
  predicate SameChannel(a: int, b: int, channels: nat)
    requires channels > 0
  {
    (a - b) % channels == 0
  }

  /** Every slot of the device was given a sample of its own channel, or silence. */
  predicate Aligned(st: State, channels: nat)
    requires channels > 0
  {
    forall k :: 0 <= k < |st.slots| && st.slots[k] >= 0 ==> SameChannel(st.slots[k], k, channels)
  }

  predicate IsWhole(e: Event, channels: nat)
    requires channels > 0
  {
    match e
    case Write(samples) => |samples| % channels == 0
    case Callback(n) => n % channels == 0
  }

  /** Writers write, and the device asks for, whole frames. */
  predicate WholeFrames(events: seq<Event>, channels: nat)
    requires channels > 0
  {
    forall i :: 0 <= i < |events| ==> IsWhole(events[i], channels)
  }

  lemma {:induction false} MultipleIsFar(d: int, c: int)
    requires c > 0
    ensures d >= 1 ==> d * c >= c
    ensures d <= -1 ==> d * c <= -c
  {
  }

  lemma {:induction false} MultipleMod(q: int, channels: nat)
    requires channels > 0
    ensures q * channels % channels == 0
  {
    var x := q * channels;
    assert (q - x / channels) * channels == x % channels;
    MultipleIsFar(q - x / channels, channels);
  }

  /** Sums and differences of whole frames are whole frames. */
  lemma {:induction false} WholeAgain(a: int, b: int, channels: nat)
    requires channels > 0 && a % channels == 0 && b % channels == 0
    ensures (a + b) % channels == 0 && (a - b) % channels == 0
  {
    var p, q := a / channels, b / channels;
    MultipleMod(p + q, channels);
    MultipleMod(p - q, channels);
    assert a + b == (p + q) * channels && a - b == (p - q) * channels;
  }

  /** Between events, all counts are whole frames. */
  ghost predicate Whole(st: State, channels: nat)
    requires channels > 0
  {
    && Sound(st) && Aligned(st, channels)
    && |st.written| % channels == 0 && |st.gone| % channels == 0 && |st.slots| % channels == 0
  }

  lemma {:induction false} PopStaysAligned(st: State, n: nat, channels: nat)
    requires channels > 0 && Sound(st) && Aligned(st, channels) && SameChannel(|st.gone|, |st.slots|, channels)
    ensures Aligned(Pop(st, n), channels)
    ensures n <= |Buffer(st)| ==> |Pop(st, n).gone| - |Pop(st, n).slots| == |st.gone| - |st.slots|
  {
    if n == 0 {
    } else {
      PopStaysAligned(st, n - 1, channels);
      var before := Pop(st, n - 1);
      assert |Buffer(before)| > 0 ==> |before.gone| - |before.slots| == |st.gone| - |st.slots|;
    }
  }

  lemma {:induction false} CallbackStaysWhole(st: State, n: nat, prebuffer: nat, channels: nat)
    requires channels > 0 && Whole(st, channels) && n % channels == 0
    ensures Whole(AfterCallback(st, n, prebuffer), channels)
  {
    var primed := st.(primed := true);
    WholeAgain(|st.gone|, |st.slots|, channels);
    WholeAgain(|st.gone|, n, channels);
    WholeAgain(|st.slots|, n, channels);
    PopStaysAligned(primed, n, channels);
  }

  lemma {:induction false} WriteStaysWhole(st: State, samples: seq<real>, channels: nat)
    requires channels > 0 && Whole(st, channels) && |samples| % channels == 0
    requires MAX_BUFFERED_SAMPLES % channels == 0
    ensures Whole(AfterWrite(st, samples), channels)
  {
    WholeAgain(|st.written|, |samples|, channels);
    WholeAgain(|st.written| + |samples|, MAX_BUFFERED_SAMPLES, channels);
  }

  lemma {:induction false} RunsStayWhole(events: seq<Event>, prebuffer: nat, channels: nat)
    requires channels > 0 && WholeFrames(events, channels) && MAX_BUFFERED_SAMPLES % channels == 0
    ensures Whole(Run(events, prebuffer), channels)
    decreases |events|
  {
    if events == [] {
    } else {
      var before, last := events[..|events| - 1], events[|events| - 1];
      RunsStayWhole(before, prebuffer, channels);
      assert IsWhole(last, channels);
      match last {
        case Write(samples) => WriteStaysWhole(Run(before, prebuffer), samples, channels);
        case Callback(n) => CallbackStaysWhole(Run(before, prebuffer), n, prebuffer, channels);
      }
    }
  }

  /** One write past the bound and one callback: the run that misaligns the channels. */
  function OneTooMany(channels: nat): (events: seq<Event>)
    requires channels > 0
  {
    WriteThenPlay((MAX_BUFFERED_SAMPLES / channels + 1) * channels, channels)
  }

  lemma {:induction false} OverflowMisaligns(prebuffer: nat, channels: nat)
    requires channels > 0 && MAX_BUFFERED_SAMPLES % channels != 0 && prebuffer <= MAX_BUFFERED_SAMPLES
    ensures WholeFrames(OneTooMany(channels), channels) && !Aligned(Run(OneTooMany(channels), prebuffer), channels)
  {
    var n := (MAX_BUFFERED_SAMPLES / channels + 1) * channels;
    MultipleMod(MAX_BUFFERED_SAMPLES / channels + 1, channels);
    MultipleMod(1, channels);
    assert n > MAX_BUFFERED_SAMPLES;
    AfterWriteThenPlay(n, channels, prebuffer);
    var full := AfterWrite(NEW, Silences(n)).(primed := true);
    FirstPop(full, channels);
    var slots := Run(OneTooMany(channels), prebuffer).slots;
    assert slots[0] == n - MAX_BUFFERED_SAMPLES;
    if SameChannel(slots[0], 0, channels) {
      WholeAgain(n, n - MAX_BUFFERED_SAMPLES, channels);
      assert false;
    }
  }

  lemma {:induction false} FirstPop(st: State, n: nat)
    requires Sound(st) && |Buffer(st)| > 0 && n > 0
    ensures Pop(st, n).slots[|st.slots|] == |st.gone|
  {
    if n == 1 {
    } else {
      FirstPop(st, n - 1);
    }
  }

  /**
   Each device slot keeps its channel over all runs, across overflow and underrun, exactly when the channel
   count divides the bound; or when the cushion does not fit the buffer and nothing is ever played.
   */
  lemma {:induction false} ChannelsKeptExactly(prebuffer: nat, channels: nat)
    requires channels > 0
    ensures (forall events :: WholeFrames(events, channels) ==> Aligned(Run(events, prebuffer), channels))
            <==> MAX_BUFFERED_SAMPLES % channels == 0 || prebuffer > MAX_BUFFERED_SAMPLES
  {
    if MAX_BUFFERED_SAMPLES % channels == 0 {
      forall events | WholeFrames(events, channels) ensures Aligned(Run(events, prebuffer), channels) {
        RunsStayWhole(events, prebuffer, channels);
      }
    } else if prebuffer > MAX_BUFFERED_SAMPLES {
      forall events ensures Aligned(Run(events, prebuffer), channels) {
        NothingPlayedBeforePriming(events, prebuffer);
      }
    } else {
      OverflowMisaligns(prebuffer, channels);
    }
  }
}
