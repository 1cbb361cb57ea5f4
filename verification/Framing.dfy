/**
 Cutting a growing stream into items while carrying what is left over, for any way of finding the next item
 and of measuring valid input that obeys the laws below: what the cut gives never depends on how the stream
 arrives. The metadata parser (src/audio/airplay_meta.rs), the frames of the PCM pump
 (src/audio/airplay.rs) and the chunks fed to the resampler (src/audio/decode.rs) are three instances.
 */
module Framing {
  import opened Sequences
  import opened Utf8
  import opened Wrappers

  /** What the next item of a text is: none, one that still lacks its end, or one from `start` to `end`. */
  datatype Next = NoItem | Incomplete(start: nat) | Complete(start: nat, end: nat)

  /** The items cut off the front, and how many bytes are done with. */
  datatype Framed<+T> = Framed(items: seq<seq<T>>, consumed: nat)

  type Scan<!T> = seq<T> -> Next
  type Bound<!T> = seq<T> -> nat

  predicate Fits<T(!new)>(scan: Scan<T>, text: seq<T>) {
    match scan(text)
    case NoItem => true
    case Incomplete(start) => start <= |text|
    case Complete(start, end) => start < end <= |text|
  }

  function Shifted(next: Next, n: nat): (r: Next) {
    match next
    case NoItem => NoItem
    case Incomplete(start) => Incomplete(start + n)
    case Complete(start, end) => Complete(start + n, end + n)
  }

  /** A complete item stays the next one; an incomplete one stays, and what stands before it may go. */
  predicate Stays<T(!new)>(scan: Scan<T>, a: seq<T>, b: seq<T>)
    requires Fits(scan, a)
  {
    match scan(a)
    case NoItem => true
    case Incomplete(start) => !scan(a + b).NoItem? && scan(a + b) == Shifted(scan(a[start..] + b), start)
    case Complete(_, _) => scan(a + b) == scan(a)
  }

  /** The bound measures a prefix, and that prefix is whole. */
  predicate Measures<T(!new)>(bound: Bound<T>, s: seq<T>) {
    bound(s) <= |s| && bound(s[..bound(s)]) == bound(s)
  }

  predicate Whole<T(!new)>(bound: Bound<T>, s: seq<T>) { bound(s) == |s| }

  predicate Continues<T(!new)>(bound: Bound<T>, p: seq<T>, q: seq<T>) {
    Whole(bound, p) ==> bound(p + q) == |p| + bound(q)
  }

  /** Items of whole text are cut where text may be cut. */
  predicate CutsBetween<T(!new)>(scan: Scan<T>, bound: Bound<T>, text: seq<T>)
    requires Fits(scan, text)
  {
    Whole(bound, text) ==>
      match scan(text)
      case NoItem => true
      case Incomplete(start) => Whole(bound, text[..start])
      case Complete(start, end) =>
        Whole(bound, text[..end]) && Whole(bound, text[start..end]) && Whole(bound, text[end..])
  }

  ghost predicate Fitting<T(!new)>(scan: Scan<T>) {
    forall text :: Fits(scan, text)
  }

  ghost predicate Lawful<T(!new)>(scan: Scan<T>, bound: Bound<T>) {
    && Fitting(scan)
    && (forall a, b :: Stays(scan, a, b))
    && (forall s :: Measures(bound, s))
    && (forall p, q :: Continues(bound, p, q))
    && (forall text :: CutsBetween(scan, bound, text))
  }

  /** The complete items one after the other, stopping at the start of an incomplete one. */
  function Cut<T(!new)>(text: seq<T>, scan: Scan<T>): (f: Framed<T>)
    requires Fitting(scan)
    ensures f.consumed <= |text|
    decreases |text|
  {
    assert Fits(scan, text);
    match scan(text)
    case NoItem => Framed([], 0)
    case Incomplete(start) => Framed([], start)
    case Complete(start, end) =>
      var rest := Cut(text[end..], scan);
      Framed([text[start..end]] + rest.items, end + rest.consumed)
  }

  /** Only the valid prefix of a buffer is looked at. */
  function CutBuffer<T(!new)>(buffer: seq<T>, scan: Scan<T>, bound: Bound<T>): (f: Framed<T>)
    requires Lawful(scan, bound)
    ensures f.consumed <= |buffer|
  {
    assert Measures(bound, buffer);
    Cut(buffer[..bound(buffer)], scan)
  }

  lemma {:induction false} WholeConcat<T(!new)>(bound: Bound<T>, p: seq<T>, q: seq<T>)
    requires Continues(bound, p, q) && Whole(bound, p) && Whole(bound, q)
    ensures Whole(bound, p + q)
  {
  }

  lemma {:induction false} ConsumedIsWhole<T(!new)>(text: seq<T>, scan: Scan<T>, bound: Bound<T>)
    requires Lawful(scan, bound) && Whole(bound, text)
    ensures Whole(bound, text[..Cut(text, scan).consumed])
    decreases |text|
  {
    assert Fits(scan, text) && CutsBetween(scan, bound, text);
    match scan(text) {
      case NoItem =>
        assert Measures(bound, []);
        assert text[..0] == [];
      case Incomplete(start) =>
      case Complete(start, end) =>
        var rest := text[end..];
        ConsumedIsWhole(rest, scan, bound);
        var more := rest[..Cut(rest, scan).consumed];
        assert Continues(bound, text[..end], more);
        WholeConcat(bound, text[..end], more);
        assert text[..Cut(text, scan).consumed] == text[..end] + more;
    }
  }

  lemma {:induction false} CutFrom<T(!new)>(text: seq<T>, tail: seq<T>, n: nat, scan: Scan<T>)
    requires Fitting(scan) && n <= |text| && tail == text[n..]
    requires !scan(text).NoItem? && scan(text) == Shifted(scan(tail), n)
    ensures Cut(text, scan) == Framed(Cut(tail, scan).items, n + Cut(tail, scan).consumed)
  {
    assert Fits(scan, text) && Fits(scan, tail);
    if scan(tail).Complete? {
      var next := scan(tail);
      assert tail[next.start..next.end] == text[n + next.start..n + next.end];
      assert tail[next.end..] == text[n + next.end..];
    }
  }

  lemma {:induction false} CutStep<T(!new)>(text: seq<T>, rest: seq<T>, scan: Scan<T>)
    requires Fitting(scan) && Fits(scan, text)
    requires scan(text).Complete? && rest == text[scan(text).end..]
    ensures Cut(text, scan).items == [text[scan(text).start..scan(text).end]] + Cut(rest, scan).items
    ensures Cut(text, scan).consumed == scan(text).end + Cut(rest, scan).consumed
  {
  }

  /** The step of `CutMayPause` over a complete item, given what holds for the rest `r` of `a`. */
  lemma {:induction false} CutOnward<T(!new)>(a: seq<T>, b: seq<T>, r: seq<T>, p: Framed<T>, q: Framed<T>,
                                       scan: Scan<T>)
    requires Fitting(scan) && Stays(scan, a, b)
    requires scan(a).Complete? && Fits(scan, a) && r == a[scan(a).end..]
    requires p == Cut(r, scan) && q == Cut(r[p.consumed..] + b, scan)
    requires Cut(r + b, scan) == Framed(p.items + q.items, p.consumed + q.consumed)
    ensures q == Cut(a[Cut(a, scan).consumed..] + b, scan)
    ensures Cut(a + b, scan).items == Cut(a, scan).items + q.items
    ensures Cut(a + b, scan).consumed == Cut(a, scan).consumed + q.consumed
  {
    CutStep(a, r, scan);
    DropTwice(a, scan(a).end, p.consumed);
    SliceOfConcat(a, b, scan(a).start, scan(a).end);
    CutStep(a + b, r + b, scan);
    Regroup([a[scan(a).start..scan(a).end]], p.items, q.items);
  }

  /** Cutting may stop after `a`, drop what it consumed, and go on when `b` has arrived. */
  lemma {:induction false} CutMayPause<T(!new)>(a: seq<T>, b: seq<T>, scan: Scan<T>)
    requires Fitting(scan) && forall x, y :: Stays(scan, x, y)
    ensures var p := Cut(a, scan);
            var q := Cut(a[p.consumed..] + b, scan);
            Cut(a + b, scan) == Framed(p.items + q.items, p.consumed + q.consumed)
    decreases |a|
  {
    assert Fits(scan, a) && Stays(scan, a, b);
    match scan(a) {
      case NoItem =>
        assert a[0..] == a;
      case Incomplete(start) =>
        CutFrom(a + b, a[start..] + b, start, scan);
      case Complete(_, end) =>
        CutMayPause(a[end..], b, scan);
        var p := Cut(a[end..], scan);
        CutOnward(a, b, a[end..], p, Cut(a[end..][p.consumed..] + b, scan), scan);
    }
  }

  /** The first `done` bytes of `text` held `items`, and the rest is yet to be cut. */
  ghost predicate CutSoFar<T(!new)>(text: seq<T>, items: seq<seq<T>>, done: nat, scan: Scan<T>)
    requires Fitting(scan)
  {
    && done <= |text|
    && Cut(text, scan).items == items + Cut(text[done..], scan).items
    && Cut(text, scan).consumed == done + Cut(text[done..], scan).consumed
  }

  lemma {:induction false} NothingCut<T(!new)>(text: seq<T>, scan: Scan<T>)
    requires Fitting(scan)
    ensures CutSoFar(text, [], 0, scan)
  {
    assert text[0..] == text;
  }

  lemma {:induction false} OneMoreItem<T(!new)>(text: seq<T>, items: seq<seq<T>>, done: nat, start: nat, end: nat,
                                         scan: Scan<T>)
    requires Fitting(scan) && CutSoFar(text, items, done, scan)
    requires start < end && done + end <= |text| && scan(text[done..]) == Complete(start, end)
    ensures CutSoFar(text, items + [text[done + start..done + end]], done + end, scan)
  {
    var item, rest, whole := text[done + start..done + end], text[done + end..], text[done..];
    assert item == whole[start..end];
    DropTwice(text, done, end);
    CutStep(whole, rest, scan);
    Regroup(items, [item], Cut(rest, scan).items);
  }

  lemma {:induction false} NoMoreItems<T(!new)>(text: seq<T>, items: seq<seq<T>>, done: nat, scan: Scan<T>)
    requires Fitting(scan) && CutSoFar(text, items, done, scan) && !scan(text[done..]).Complete?
    ensures Cut(text, scan).items == items
    ensures Cut(text, scan).consumed == done + (if scan(text[done..]).NoItem? then 0 else scan(text[done..]).start)
  {
    assert items + [] == items;
  }

  lemma {:induction false} BoundAfter<T(!new)>(a: seq<T>, b: seq<T>, n: nat, bound: Bound<T>)
    requires n <= |a| && Whole(bound, a[..n]) && Continues(bound, a[..n], a[n..] + b)
    ensures bound(a + b) == n + bound(a[n..] + b)
  {
    assert a + b == a[..n] + (a[n..] + b);
  }

  /** The same for raw bytes: a pause never disturbs what is valid text. */
  lemma {:induction false} BufferMayPause<T(!new)>(a: seq<T>, b: seq<T>, scan: Scan<T>, bound: Bound<T>)
    requires Lawful(scan, bound)
    ensures var p := CutBuffer(a, scan, bound);
            var q := CutBuffer(a[p.consumed..] + b, scan, bound);
            CutBuffer(a + b, scan, bound) == Framed(p.items + q.items, p.consumed + q.consumed)
  {
    assert Measures(bound, a) && Measures(bound, a + b);
    var n := bound(a);
    var text := a[..n];
    ConsumedIsWhole(text, scan, bound);
    var c := Cut(text, scan).consumed;
    assert text[..c] == a[..c];
    assert Continues(bound, a[..n], a[n..] + b) && Continues(bound, a[..c], a[c..] + b);
    BoundAfter(a, b, n, bound);
    BoundAfter(a, b, c, bound);
    assert Measures(bound, a[c..] + b);
    var more := (a + b)[n..bound(a + b)];
    CutMayPause(text, more, scan);
    assert (a + b)[..bound(a + b)] == text + more;
    assert a[c..] + b == (a + b)[c..];
    assert (a[c..] + b)[..bound(a[c..] + b)] == (a + b)[c..bound(a + b)] == text[c..] + more;
  }

  /** What remains of whole text is whole. */
  lemma {:induction false} RestIsWhole<T(!new)>(text: seq<T>, scan: Scan<T>, bound: Bound<T>)
    requires Lawful(scan, bound) && Whole(bound, text)
    ensures Whole(bound, text[CutBuffer(text, scan, bound).consumed..])
  {
    assert text[..|text|] == text;
    ConsumedIsWhole(text, scan, bound);
    var n := Cut(text, scan).consumed;
    assert Continues(bound, text[..n], text[n..]);
    assert text[..n] + text[n..] == text;
  }

  lemma {:induction false} CompleteIsConsumed<T(!new)>(text: seq<T>, scan: Scan<T>, bound: Bound<T>)
    requires Lawful(scan, bound) && Whole(bound, text) && scan(text).Complete?
    ensures CutBuffer(text, scan, bound).consumed > 0
  {
    assert text[..|text|] == text && Fits(scan, text);
    CutStep(text, text[scan(text).end..], scan);
  }

  function Joined<T(!new)>(chunks: seq<seq<T>>): (stream: seq<T>) {
    if chunks == [] then [] else Joined(chunks[..|chunks| - 1]) + chunks[|chunks| - 1]
  }

  /** The items, and the remainder, of a reader that carries its remainder from chunk to chunk. */
  function Carried<T(!new)>(chunks: seq<seq<T>>, scan: Scan<T>, bound: Bound<T>): (r: (seq<seq<T>>, seq<T>))
    requires Lawful(scan, bound)
  {
    if chunks == [] then ([], [])
    else
      var before := Carried(chunks[..|chunks| - 1], scan, bound);
      var buffer := before.1 + chunks[|chunks| - 1];
      var f := CutBuffer(buffer, scan, bound);
      (before.0 + f.items, buffer[f.consumed..])
  }

  /** Chunking does not matter: any split gives the items and the remainder of the whole stream. */
  lemma {:induction false} AnySplitCutsAlike<T(!new)>(chunks: seq<seq<T>>, scan: Scan<T>, bound: Bound<T>)
    requires Lawful(scan, bound)
    ensures var f := CutBuffer(Joined(chunks), scan, bound);
            Carried(chunks, scan, bound) == (f.items, Joined(chunks)[f.consumed..])
    decreases |chunks|
  {
    if chunks == [] {
      assert Measures(bound, []);
    } else {
      var before, last := Joined(chunks[..|chunks| - 1]), chunks[|chunks| - 1];
      AnySplitCutsAlike(chunks[..|chunks| - 1], scan, bound);
      BufferMayPause(before, last, scan, bound);
      var c := CutBuffer(before, scan, bound).consumed;
      var q := CutBuffer(before[c..] + last, scan, bound);
      SliceOfConcat(before, last, c, c);
      DropTwice(before + last, c, q.consumed);
    }
  }

  /** What remains after cutting holds no complete item. */
  lemma {:induction false} RemainderIsSpent<T(!new)>(buffer: seq<T>, scan: Scan<T>, bound: Bound<T>)
    requires Lawful(scan, bound)
    ensures CutBuffer(buffer[CutBuffer(buffer, scan, bound).consumed..], scan, bound) == Framed([], 0)
  {
    BufferMayPause(buffer, [], scan, bound);
    var rest := buffer[CutBuffer(buffer, scan, bound).consumed..];
    assert buffer + [] == buffer && rest + [] == rest;
  }

  // ----- Blocks of a fixed size -------------------------------------------------------------------

  /** Items of exactly `n` elements. */
  function Every<T>(n: nat): (scan: Scan<T>) {
    (text: seq<T>) => if 0 < n <= |text| then Complete(0, n) else Incomplete(0)
  }

  /** Every element counts. */
  function Whatever<T>(): (bound: Bound<T>) {
    (s: seq<T>) => |s|
  }

  lemma {:induction false} EveryIsLawful<T(!new)>(n: nat)
    ensures Lawful(Every<T>(n), Whatever<T>())
  {
    forall a: seq<T>, b: seq<T> ensures Stays(Every<T>(n), a, b) {
      assert a[0..] == a;
    }
    forall s: seq<T> ensures Measures(Whatever<T>(), s) {
    }
    forall text: seq<T> ensures CutsBetween(Every<T>(n), Whatever<T>(), text) {
    }
  }

  /** The blocks of `text`, and what is left over. */
  function Blocks<T(!new)>(text: seq<T>, n: nat): (items: seq<seq<T>>) {
    EveryIsLawful<T>(n);
    Cut(text, Every<T>(n)).items
  }

  function Rest<T(!new)>(text: seq<T>, n: nat): (rest: seq<T>) {
    EveryIsLawful<T>(n);
    text[Cut(text, Every<T>(n)).consumed..]
  }

  lemma {:induction false} BlocksStep<T(!new)>(text: seq<T>, n: nat)
    requires n > 0
    ensures |text| < n ==> Blocks(text, n) == [] && Rest(text, n) == text
    ensures |text| >= n ==> Blocks(text, n) == [text[..n]] + Blocks(text[n..], n) && Rest(text, n) == Rest(text[n..], n)
  {
    EveryIsLawful<T>(n);
    if |text| >= n {
      CutStep(text, text[n..], Every<T>(n));
      DropTwice(text, n, Cut(text[n..], Every<T>(n)).consumed);
    }
  }

  /** What the blocks are: nothing is lost or moved, each is full, and too little is left for another. */
  lemma {:induction false} BlocksAre<T(!new)>(text: seq<T>, n: nat)
    requires n > 0
    ensures Glued(Blocks(text, n)) + Rest(text, n) == text
    ensures |Rest(text, n)| < n && forall block :: block in Blocks(text, n) ==> |block| == n
    decreases |text|
  {
    BlocksStep(text, n);
    if |text| >= n {
      BlocksAre(text[n..], n);
      GluedStep(text[..n], Blocks(text[n..], n));
      Regroup(text[..n], Glued(Blocks(text[n..], n)), Rest(text, n));
      assert text == text[..n] + text[n..];
    } else {
      assert [] + text == text;
    }
  }

  lemma {:induction false} GluedStep<T>(first: seq<T>, rest: seq<seq<T>>)
    ensures Glued([first] + rest) == first + Glued(rest)
  {
    assert ([first] + rest)[1..] == rest;
  }

  /** Blocks may be cut from `a` first, and from what is left over with `b` later. */
  lemma {:induction false} BlocksMayPause<T(!new)>(a: seq<T>, b: seq<T>, n: nat)
    ensures Blocks(a + b, n) == Blocks(a, n) + Blocks(Rest(a, n) + b, n)
    ensures Rest(a + b, n) == Rest(Rest(a, n) + b, n)
  {
    EveryIsLawful<T>(n);
    CutMayPause(a, b, Every<T>(n));
    var c := Cut(a, Every<T>(n)).consumed;
    SliceOfConcat(a, b, c, c);
    DropTwice(a + b, c, Cut(a[c..] + b, Every<T>(n)).consumed);
  }

  // ----- Tags -------------------------------------------------------------------------------------

  predicate OccursAt(text: seq<byte>, pattern: seq<byte>, i: nat) {
    i <= |text| && pattern <= text[i..]
  }

  /** Where `pattern` first occurs. */
  function Find(text: seq<byte>, pattern: seq<byte>): (r: Option<nat>)
    ensures r.Some? ==> OccursAt(text, pattern, r.value)
  {
    if pattern <= text then Some(0)
    else if text == [] then None
    else
      match Find(text[1..], pattern)
      case None => None
      case Some(i) => Some(i + 1)
  }

  lemma {:induction false} FindIsFirst(text: seq<byte>, pattern: seq<byte>, i: nat)
    requires OccursAt(text, pattern, i)
    ensures Find(text, pattern).Some? && Find(text, pattern).value <= i
  {
    if pattern <= text {
    } else {
      assert i > 0 && text[1..][i - 1..] == text[i..];
      FindIsFirst(text[1..], pattern, i - 1);
    }
  }

  /** The text between the first `open` and the first `close` after it. */
  function Between(text: seq<byte>, open: seq<byte>, close: seq<byte>): (r: Option<seq<byte>>) {
    match Find(text, open)
    case None => None
    case Some(i) =>
      var body := text[i + |open|..];
      match Find(body, close)
      case None => None
      case Some(e) => Some(body[..e])
  }

  /** From the first `open` to the end of the first `close` after it. */
  function NextBetween(text: seq<byte>, open: seq<byte>, close: seq<byte>): (next: Next) {
    match Find(text, open)
    case None => NoItem
    case Some(start) =>
      match Find(text[start..], close)
      case None => Incomplete(start)
      case Some(e) => Complete(start, start + e + |close|)
  }

  predicate InAscii(tag: seq<byte>) { tag != [] && tag[0] < 0x80 && tag[|tag| - 1] < 0x80 }

  /** Text may be cut before and after every ASCII byte. */
  predicate CutsAscii(bound: Bound<byte>, text: seq<byte>, i: nat) {
    Whole(bound, text) && i < |text| && text[i] < 0x80 ==>
      Whole(bound, text[..i]) && Whole(bound, text[i..]) && Whole(bound, text[..i + 1]) && Whole(bound, text[i + 1..])
  }

  lemma {:induction false} TagIsBoundary(text: seq<byte>, tag: seq<byte>, i: nat, bound: Bound<byte>)
    requires forall t, k :: CutsAscii(bound, t, k)
    requires Whole(bound, text) && InAscii(tag) && OccursAt(text, tag, i)
    ensures Whole(bound, text[..i]) && Whole(bound, text[i..])
    ensures Whole(bound, text[..i + |tag|]) && Whole(bound, text[i + |tag|..])
  {
    assert text[i] == text[i..][0] == tag[0];
    assert text[i + (|tag| - 1)] == text[i..][|tag| - 1] == tag[|tag| - 1];
    assert CutsAscii(bound, text, i) && CutsAscii(bound, text, i + (|tag| - 1));
  }

  lemma {:induction false} OccursInLonger(a: seq<byte>, b: seq<byte>, pattern: seq<byte>, i: nat)
    requires i + |pattern| <= |a|
    ensures OccursAt(a + b, pattern, i) <==> OccursAt(a, pattern, i)
  {
    assert (a + b)[i..] == a[i..] + b;
  }

  lemma {:induction false} FindInLonger(a: seq<byte>, b: seq<byte>, pattern: seq<byte>)
    requires Find(a, pattern).Some?
    ensures Find(a + b, pattern) == Find(a, pattern)
    decreases |a|
  {
    if pattern <= a {
      assert pattern <= a + b;
    } else {
      assert (a + b)[1..] == a[1..] + b;
      FindInLonger(a[1..], b, pattern);
      assert !(pattern <= a + b) by {
        assert |pattern| <= |a|;
        assert (a + b)[..|pattern|] == a[..|pattern|];
      }
    }
  }

  lemma {:induction false} BetweenStays(a: seq<byte>, b: seq<byte>, open: seq<byte>, close: seq<byte>)
    ensures match NextBetween(a, open, close)
            case NoItem => true
            case Incomplete(start) =>
              && start <= |a| && !NextBetween(a + b, open, close).NoItem?
              && NextBetween(a + b, open, close) == Shifted(NextBetween(a[start..] + b, open, close), start)
            case Complete(_, _) => NextBetween(a + b, open, close) == NextBetween(a, open, close)
  {
    match NextBetween(a, open, close) {
      case NoItem =>
      case Incomplete(start) => IncompleteStays(a, b, open, close, start);
      case Complete(_, _) => CompleteStays(a, b, open, close);
    }
  }

  lemma {:induction false} FoundBetween(text: seq<byte>, open: seq<byte>, close: seq<byte>, start: nat, e: nat)
    requires Find(text, open) == Some(start) && start <= |text| && Find(text[start..], close) == Some(e)
    ensures NextBetween(text, open, close) == Complete(start, start + e + |close|)
  {
  }

  lemma {:induction false} CompleteStays(a: seq<byte>, b: seq<byte>, open: seq<byte>, close: seq<byte>)
    requires NextBetween(a, open, close).Complete?
    ensures NextBetween(a + b, open, close) == NextBetween(a, open, close)
  {
    var start := Find(a, open).value;
    var e := Find(a[start..], close).value;
    FoundBetween(a, open, close, start, e);
    FindInLonger(a, b, open);
    SliceOfConcat(a, b, start, start);
    FindInLonger(a[start..], b, close);
    FoundBetween(a + b, open, close, start, e);
  }

  lemma {:induction false} IncompleteStays(a: seq<byte>, b: seq<byte>, open: seq<byte>, close: seq<byte>, start: nat)
    requires NextBetween(a, open, close) == Incomplete(start)
    ensures start <= |a| && !NextBetween(a + b, open, close).NoItem?
    ensures NextBetween(a + b, open, close) == Shifted(NextBetween(a[start..] + b, open, close), start)
  {
    FindInLonger(a, b, open);
    SliceOfConcat(a, b, start, start);
    OccursInLonger(a[start..], b, open, 0);
    BetweenFromStart(a[start..] + b, open, close);
  }

  lemma {:induction false} BetweenFromStart(text: seq<byte>, open: seq<byte>, close: seq<byte>)
    requires OccursAt(text, open, 0)
    ensures Find(text, open) == Some(0)
    ensures NextBetween(text, open, close) ==
            match Find(text, close) case None => Incomplete(0) case Some(e) => Complete(0, e + |close|)
  {
    assert text[0..] == text;
  }

  lemma {:induction false} BetweenIsCut(text: seq<byte>, open: seq<byte>, close: seq<byte>, bound: Bound<byte>)
    requires (forall t, k :: CutsAscii(bound, t, k)) && forall p, q :: Continues(bound, p, q)
    requires InAscii(open) && InAscii(close)
    requires Whole(bound, text)
    ensures var next := NextBetween(text, open, close);
            && (next.Incomplete? ==> next.start <= |text| && Whole(bound, text[..next.start]))
            && (next.Complete? ==> next.start < next.end <= |text| && Whole(bound, text[..next.end])
                                   && Whole(bound, text[next.start..next.end]) && Whole(bound, text[next.end..]))
  {
    var next := NextBetween(text, open, close);
    if !next.NoItem? {
      StartOccurs(text, open, close);
      TagIsBoundary(text, open, next.start, bound);
      if next.Complete? {
        ItemIsCut(text, next.start, next.end, close, bound);
      }
    }
  }

  lemma {:induction false} StartOccurs(text: seq<byte>, open: seq<byte>, close: seq<byte>)
    requires !NextBetween(text, open, close).NoItem?
    ensures var next := NextBetween(text, open, close);
            && OccursAt(text, open, next.start)
            && (next.Complete? ==> next.start + |close| <= next.end
                                   && OccursAt(text[next.start..], close, next.end - next.start - |close|))
  {
    var start := Find(text, open).value;
    if Find(text[start..], close).Some? {
      FoundBetween(text, open, close, start, Find(text[start..], close).value);
    } else {
      assert NextBetween(text, open, close) == Incomplete(start);
    }
  }

  lemma {:induction false} ItemIsCut(text: seq<byte>, start: nat, end: nat, close: seq<byte>, bound: Bound<byte>)
    requires (forall t, k :: CutsAscii(bound, t, k)) && forall p, q :: Continues(bound, p, q)
    requires start <= |text| && Whole(bound, text[..start]) && Whole(bound, text[start..])
    requires InAscii(close) && start + |close| <= end && OccursAt(text[start..], close, end - start - |close|)
    ensures start < end <= |text|
    ensures Whole(bound, text[..end]) && Whole(bound, text[start..end]) && Whole(bound, text[end..])
  {
    TagIsBoundary(text[start..], close, end - start - |close|, bound);
    JoinedAt(text, start, end, bound);
  }

  lemma {:induction false} JoinedAt(text: seq<byte>, start: nat, end: nat, bound: Bound<byte>)
    requires start <= end <= |text| && forall p, q :: Continues(bound, p, q)
    requires Whole(bound, text[..start])
    requires Whole(bound, text[start..][..end - start]) && Whole(bound, text[start..][end - start..])
    ensures Whole(bound, text[..end]) && Whole(bound, text[start..end]) && Whole(bound, text[end..])
  {
    var item := text[start..end];
    assert text[start..][..end - start] == item;
    DropTwice(text, start, end - start);
    assert Continues(bound, text[..start], item);
    WholeConcat(bound, text[..start], item);
    assert text[..end] == text[..start] + item;
  }

  // ----- The loop ---------------------------------------------------------------------------------

  /** What `one` makes of each of a list of items. */
  function Interpreted<T, E>(items: seq<T>, one: T -> Option<E>): (results: seq<E>) {
    if items == [] then []
    else Interpreted(items[..|items| - 1], one) + (match one(items[|items| - 1]) case Some(e) => [e] case None => [])
  }

  lemma {:induction false} InterpretedStep<T, E>(items: seq<T>, item: T, one: T -> Option<E>)
    ensures one(item).Some? ==> Interpreted(items + [item], one) == Interpreted(items, one) + [one(item).value]
    ensures one(item).None? ==> Interpreted(items + [item], one) == Interpreted(items, one)
  {
    assert (items + [item])[..|items|] == items;
    assert Interpreted(items, one) + [] == Interpreted(items, one);
  }

  lemma {:induction false} InterpretedConcat<T, E>(a: seq<T>, b: seq<T>, one: T -> Option<E>)
    ensures Interpreted(a + b, one) == Interpreted(a, one) + Interpreted(b, one)
    decreases |b|
  {
    if b == [] {
      assert a + b == a;
    } else {
      InterpretedConcat(a, b[..|b| - 1], one);
      assert (a + b)[..|a + b| - 1] == a + b[..|b| - 1];
    }
  }

  lemma {:induction false} InterpretedAlike<S, T, E>(a: seq<S>, b: seq<T>, f: S -> Option<E>, g: T -> Option<E>)
    requires |a| == |b| && forall i :: 0 <= i < |a| ==> f(a[i]) == g(b[i])
    ensures Interpreted(a, f) == Interpreted(b, g)
    decreases |a|
  {
    if a == [] {
    } else {
      InterpretedAlike(a[..|a| - 1], b[..|b| - 1], f, g);
    }
  }

  lemma {:induction false} InterpretedAll<T, E>(items: seq<T>, one: T -> Option<E>, results: seq<E>)
    requires |items| == |results| && forall i :: 0 <= i < |items| ==> one(items[i]) == Some(results[i])
    ensures Interpreted(items, one) == results
    decreases |items|
  {
    if items == [] {
    } else {
      var n := |items| - 1;
      InterpretedAll(items[..n], one, results[..n]);
      InterpretedStep(items[..n], items[n], one);
      assert items == items[..n] + [items[n]] && results == results[..n] + [results[n]];
    }
  }

  /** As many results as items: then every item gave one. */
  lemma {:induction false} InterpretedFull<T, E>(items: seq<T>, one: T -> Option<E>)
    ensures |Interpreted(items, one)| <= |items|
    ensures |Interpreted(items, one)| == |items| ==>
              forall i :: 0 <= i < |items| ==> one(items[i]) == Some(Interpreted(items, one)[i])
    decreases |items|
  {
    if items == [] {
    } else {
      var n := |items| - 1;
      InterpretedFull(items[..n], one);
    }
  }

  /** Whatever follows `text`, it is cut off as one item. */
  ghost predicate IsOneItem<B(!new)>(scan: Scan<B>, text: seq<B>) {
    text != [] && forall rest :: scan(text + rest) == Complete(0, |text|)
  }

  function Glued<B>(texts: seq<seq<B>>): (stream: seq<B>) {
    if texts == [] then [] else texts[0] + Glued(texts[1..])
  }

  /** A stream of whole items is cut into exactly those. */
  lemma {:induction false} GluedIsCut<B(!new)>(texts: seq<seq<B>>, scan: Scan<B>)
    requires Fitting(scan)
    requires forall i :: 0 <= i < |texts| ==> IsOneItem(scan, texts[i])
    ensures Cut(Glued(texts), scan) == Framed(texts, |Glued(texts)|)
  {
    if texts == [] {
    } else {
      var first, rest := texts[0], Glued(texts[1..]);
      GluedIsCut(texts[1..], scan);
      assert IsOneItem(scan, first);
      assert (first + rest)[0..|first|] == first && (first + rest)[|first|..] == rest;
      assert Fits(scan, first + rest);
      CutStep(first + rest, rest, scan);
    }
  }

  /** Finds the items of `text` one after the other and gives each to `one`. */
  method EachItem<B(!new), E>(text: seq<B>, scan: Scan<B>, one: seq<B> -> Option<E>)
    returns (results: seq<E>, consumed: nat)
    requires Fitting(scan)
    ensures results == Interpreted(Cut(text, scan).items, one)
    ensures consumed == Cut(text, scan).consumed
  {
    results, consumed := [], 0;
    ghost var items: seq<seq<B>> := [];
    NothingCut(text, scan);
    while true
      invariant consumed <= |text| && CutSoFar(text, items, consumed, scan)
      invariant results == Interpreted(items, one)
      decreases |text| - consumed
    {
      assert Fits(scan, text[consumed..]);
      match scan(text[consumed..]) {
        case NoItem =>
          NoMoreItems(text, items, consumed, scan);
          return;
        case Incomplete(start) =>
          NoMoreItems(text, items, consumed, scan);
          consumed := consumed + start;
          return;
        case Complete(start, end) =>
          OneMoreItem(text, items, consumed, start, end, scan);
          var item := text[consumed + start..consumed + end];
          InterpretedStep(items, item, one);
          var result := one(item);
          if result.Some? {
            results := results + [result.value];
          }
          items := items + [item];
          consumed := consumed + end;
      }
    }
  }
}
