/**
 The metadata pipe (src/audio/airplay_meta.rs): `parse_items` over a growing buffer, the reader that
 carries an unfinished item from one read to the next, and the accumulator of commit points.
 Text is its UTF-8 bytes, and positions are byte offsets, as in the source.
 */
module AirplayMeta {
  import opened Sequences
  import opened Wrappers
  import opened Utf8
  import opened Framing
  import Base64

  datatype MetaEvent =
    | Title(title: seq<byte>)
    | Artist(artist: seq<byte>)
    | Album(album: seq<byte>)
    | Art(image: seq<byte>)
    | Client(client: seq<byte>)
    | BundleEnd

  /** What `parse_items` returns: the events, and how many leading bytes are done with. */
  datatype Parsed = Parsed(events: seq<MetaEvent>, consumed: nat)

  const LT: byte := 60
  const GT: byte := 62
  const PLUS: byte := 43

  const ITEM: seq<byte> := [105, 116, 101, 109]
  const TYPE: seq<byte> := [116, 121, 112, 101]
  const CODE: seq<byte> := [99, 111, 100, 101]
  const DATA: seq<byte> := [100, 97, 116, 97]

  /** `data encoding="base64"` */
  const DATA_BASE64: seq<byte> :=
    DATA + [32, 101, 110, 99, 111, 100, 105, 110, 103, 61, 34, 98, 97, 115, 101, 54, 52, 34]

  // The four-character types and codes that mean something here.
  const CORE: seq<byte> := [99, 111, 114, 101]
  const SSNC: seq<byte> := [115, 115, 110, 99]
  const MINM: seq<byte> := [109, 105, 110, 109]
  const ASAR: seq<byte> := [97, 115, 97, 114]
  const ASAL: seq<byte> := [97, 115, 97, 108]
  const SNUA: seq<byte> := [115, 110, 117, 97]
  const PICT: seq<byte> := [80, 73, 67, 84]
  const MDEN: seq<byte> := [109, 100, 101, 110]

  function Open(name: seq<byte>): (tag: seq<byte>) { [LT] + name + [GT] }

  function Close(name: seq<byte>): (tag: seq<byte>) { [LT, 47] + name + [GT] }

  // ----- One item ---------------------------------------------------------------------------------

  function HexDigit(b: byte): (v: int)
    ensures -1 <= v < 16
  {
    if 48 <= b < 58 then b - 48
    else if 97 <= b < 103 then b - 97 + 10
    else if 65 <= b < 71 then b - 65 + 10
    else -1
  }

  /** Two characters read as a `u8` in radix 16, which allows a leading plus sign; -1 when that fails. */
  function HexByte(high: byte, low: byte): (v: int)
    ensures -1 <= v < 256
  {
    if high == PLUS then HexDigit(low)
    else if HexDigit(high) < 0 || HexDigit(low) < 0 then -1
    else HexDigit(high) * 16 + HexDigit(low)
  }

  function HexBytes(hex: seq<byte>): (r: Option<seq<byte>>)
    requires |hex| % 2 == 0
  {
    if hex == [] then Some([])
    else if HexByte(hex[0], hex[1]) < 0 then None
    else
      match HexBytes(hex[2..])
      case None => None
      case Some(rest) => Some([HexByte(hex[0], hex[1])] + rest)
  }

  predicate IsAscii(s: seq<byte>) { forall i :: 0 <= i < |s| ==> s[i] < 0x80 }

  /** Odd length and bytes beyond ASCII are refused before anything is decoded. */
  function Unhexed(hex: seq<byte>): (r: Option<seq<byte>>) {
    if |hex| % 2 != 0 || !IsAscii(hex) then None
    else
      match HexBytes(hex)
      case None => None
      case Some(bytes) => if Valid(bytes) then Some(bytes) else None
  }

  function HexTag(item: seq<byte>, name: seq<byte>): (r: Option<seq<byte>>) {
    match Between(item, Open(name), Close(name))
    case None => None
    case Some(hex) => Unhexed(hex)
  }

  /** The characters of Unicode's White_Space property, by their UTF-8 bytes. */
  predicate IsWhitespace(c: seq<byte>) {
    || (|c| == 1 && (9 <= c[0] <= 13 || c[0] == 32))
    || (|c| == 2 && c[0] == 0xC2 && (c[1] == 0x85 || c[1] == 0xA0))
    || c == [0xE1, 0x9A, 0x80]
    || (|c| == 3 && c[0] == 0xE2 && c[1] == 0x80 && (c[2] <= 0x8A || c[2] == 0xA8 || c[2] == 0xA9 || c[2] == 0xAF))
    || c == [0xE2, 0x81, 0x9F]
    || c == [0xE3, 0x80, 0x80]
  }

  /** The code points of White_Space. */
  predicate IsWhitespaceScalar(c: int) {
    || 9 <= c <= 13 || c == 32 || c == 0x85 || c == 0xA0 || c == 0x1680 || 0x2000 <= c <= 0x200A
    || c == 0x2028 || c == 0x2029 || c == 0x202F || c == 0x205F || c == 0x3000
  }

  lemma {:induction false} WhitespaceExactly(c: int)
    requires IsScalar(c)
    ensures IsWhitespace(EncodeScalar(c)) <==> IsWhitespaceScalar(c)
  {
    var s := EncodeScalar(c);
    if |s| == 3 {
      assert s == [0xE1, 0x9A, 0x80] <==> c == 0x1680;
      assert s == [0xE2, 0x81, 0x9F] <==> c == 0x205F;
      assert s == [0xE3, 0x80, 0x80] <==> c == 0x3000;
    }
  }

  function WithoutWhitespace(text: seq<byte>): (s: seq<byte>) {
    var n := CharLength(text);
    if n == 0 then []
    else (if IsWhitespace(text[..n]) then [] else text[..n]) + WithoutWhitespace(text[n..])
  }

  function DecodeData(item: seq<byte>): (r: Option<seq<byte>>) {
    match Between(item, Open(DATA_BASE64), Close(DATA))
    case None => None
    case Some(body) => Base64.Decode(WithoutWhitespace(body))
  }

  /** The event of a type, a code and a payload, if they make one; `text` reads a payload as text. */
  function EventWith(type4: seq<byte>, code4: seq<byte>, data: Option<seq<byte>>, text: seq<byte> -> seq<byte>)
    : (r: Option<MetaEvent>)
  {
    if type4 == SSNC && code4 == MDEN then Some(BundleEnd)
    else if data.None? then None
    else if type4 == CORE && code4 == MINM then Some(Title(text(data.value)))
    else if type4 == CORE && code4 == ASAR then Some(Artist(text(data.value)))
    else if type4 == CORE && code4 == ASAL then Some(Album(text(data.value)))
    else if type4 == SSNC && code4 == SNUA then Some(Client(text(data.value)))
    else if type4 == SSNC && code4 == PICT && data.value != [] then Some(Art(data.value))
    else None
  }

  function EventOf(type4: seq<byte>, code4: seq<byte>, data: Option<seq<byte>>): (r: Option<MetaEvent>) {
    EventWith(type4, code4, data, Lossy)
  }

  function ParseOne(item: seq<byte>): (r: Option<MetaEvent>) {
    match (HexTag(item, TYPE), HexTag(item, CODE))
    case (Some(type4), Some(code4)) => EventOf(type4, code4, DecodeData(item))
    case _ => None
  }

  // ----- A buffer of items ------------------------------------------------------------------------

  const ITEM_START := Open(ITEM)
  const ITEM_END := Close(ITEM)

  function NextItem(text: seq<byte>): (next: Next) {
    NextBetween(text, ITEM_START, ITEM_END)
  }

  // ----- The laws of framing ----------------------------------------------------------------------

  lemma {:induction false} NextFits(text: seq<byte>)
    ensures Fits(NextItem, text)
  {
  }

  /** Tags begin and end with ASCII, and UTF-8 can be measured piece by piece: so framing is lawful here. */
  lemma {:induction false} ItemsAreLawful()
    ensures Lawful(NextItem, ValidUpTo)
  {
    forall text ensures Fits(NextItem, text) {
      NextFits(text);
    }
    forall a, b ensures Stays(NextItem, a, b) {
      BetweenStays(a, b, ITEM_START, ITEM_END);
    }
    forall s ensures Measures(ValidUpTo, s) {
      ValidPrefixIsValid(s);
    }
    forall p, q ensures Continues(ValidUpTo, p, q) {
      if Valid(p) {
        ValidUpToConcat(p, q);
      }
    }
    forall text: seq<byte>, i: nat ensures CutsAscii(ValidUpTo, text, i) {
      if Valid(text) && i < |text| && text[i] < 0x80 {
        CutAtAscii(text, i);
      }
    }
    forall text ensures CutsBetween(NextItem, ValidUpTo, text) {
      if Valid(text) {
        BetweenIsCut(text, ITEM_START, ITEM_END, ValidUpTo);
      }
    }
  }

  // ----- What parse_items answers -----------------------------------------------------------------

  /** The complete items of the valid prefix of `buffer`, and how much of it is done with. */
  function Items(buffer: seq<byte>): (f: Framed<byte>)
    ensures f.consumed <= |buffer|
  {
    ItemsAreLawful();
    CutBuffer<byte>(buffer, NextItem, ValidUpTo)
  }

  function Parse(buffer: seq<byte>): (p: Parsed) {
    Parsed(Interpreted(Items(buffer).items, ParseOne), Items(buffer).consumed)
  }

  method ParseItems(buffer: seq<byte>) returns (events: seq<MetaEvent>, consumed: nat)
    ensures Parsed(events, consumed) == Parse(buffer)
    ensures consumed <= |buffer|
  {
    ItemsAreLawful();
    assert Measures(ValidUpTo, buffer);
    events, consumed := EachItem(buffer[..ValidUpTo(buffer)], NextItem, ParseOne);
  }

  /** Chunking does not matter: any split gives the events and the remainder of the whole stream. */
  lemma {:induction false} AnySplitParsesAlike(chunks: seq<seq<byte>>)
    ensures Lawful(NextItem, ValidUpTo)
    ensures var (items, remainder) := Carried(chunks, NextItem, ValidUpTo);
            && Interpreted(items, ParseOne) == Parse(Joined(chunks)).events
            && remainder == Joined(chunks)[Parse(Joined(chunks)).consumed..]
  {
    ItemsAreLawful();
    AnySplitCutsAlike(chunks, NextItem, ValidUpTo);
  }

  /** What the reader keeps holds nothing that is an event already. */
  lemma {:induction false} RemainderHoldsNoItem(buffer: seq<byte>)
    ensures Parse(buffer[Parse(buffer).consumed..]) == Parsed([], 0)
  {
    ItemsAreLawful();
    RemainderIsSpent(buffer, NextItem, ValidUpTo);
  }

  lemma {:induction false} NoOverlap(text: seq<byte>, e: nat, p: nat)
    requires OccursAt(text, ITEM_END, e) && OccursAt(text, ITEM_START, p) && e <= p
    ensures e + |ITEM_END| <= p
  {
    assert text[p..][0] == LT && text[p..][1] == 105;
  }

  lemma {:induction false} IncompleteItemIsNotCut(text: seq<byte>, p: nat)
    requires Fitting(NextItem) && OccursAt(text, ITEM_START, p)
    requires forall e: nat :: OccursAt(text, ITEM_END, e) ==> e < p
    ensures Cut(text, NextItem).consumed <= p
    decreases |text|
  {
    FindIsFirst(text, ITEM_START, p);
    var start := Find(text, ITEM_START).value;
    var e := Find(text[start..], ITEM_END);
    if e.None? {
    } else {
      DropTwice(text, start, e.value);
      assert OccursAt(text, ITEM_END, start + e.value);
      NoOverlap(text, start + e.value, p);
      var end := start + e.value + |ITEM_END|;
      EndsBefore(text, end, p);
      IncompleteItemIsNotCut(text[end..], p - end);
      CutStep(text, text[end..], NextItem);
    }
  }

  lemma {:induction false} EndsBefore(text: seq<byte>, end: nat, p: nat)
    requires end <= p && OccursAt(text, ITEM_START, p)
    requires forall e: nat :: OccursAt(text, ITEM_END, e) ==> e < p
    ensures OccursAt(text[end..], ITEM_START, p - end)
    ensures forall e: nat :: OccursAt(text[end..], ITEM_END, e) ==> e < p - end
  {
    DropTwice(text, end, p - end);
    forall e: nat | OccursAt(text[end..], ITEM_END, e) ensures e < p - end {
      DropTwice(text, end, e);
      assert OccursAt(text, ITEM_END, end + e);
    }
  }

  lemma {:induction false} OccursInPrefix(text: seq<byte>, pattern: seq<byte>, p: nat, v: nat)
    requires OccursAt(text, pattern, p) && p + |pattern| <= v <= |text|
    ensures OccursAt(text[..v], pattern, p)
  {
    assert text[..v][p..] == text[p..][..v - p];
  }

  lemma {:induction false} TagByte(text: seq<byte>, p: nat, v: nat)
    requires OccursAt(text, ITEM_START, p) && p <= v < p + |ITEM_START|
    ensures v < |text| && text[v] < 0x80
  {
    assert text[v] == text[p..][v - p];
  }

  /** The valid prefix of a buffer never ends inside a tag. */
  lemma {:induction false} TagIsValid(buffer: seq<byte>, p: nat)
    requires OccursAt(buffer, ITEM_START, p) && p < ValidUpTo(buffer)
    ensures OccursAt(buffer[..ValidUpTo(buffer)], ITEM_START, p)
  {
    var v := ValidUpTo(buffer);
    if v < p + |ITEM_START| {
      TagByte(buffer, p, v);
      AsciiGoesOn(buffer);
      assert false;
    } else {
      OccursInPrefix(buffer, ITEM_START, p, v);
    }
  }

  /** An item whose end is not in the valid part of the buffer is kept whole: what is consumed ends before it. */
  lemma {:induction false} IncompleteItemIsKept(buffer: seq<byte>, p: nat)
    requires OccursAt(buffer, ITEM_START, p)
    requires forall e: nat :: OccursAt(buffer[..ValidUpTo(buffer)], ITEM_END, e) ==> e < p
    ensures Parse(buffer).consumed <= p
  {
    ItemsAreLawful();
    if p < ValidUpTo(buffer) {
      TagIsValid(buffer, p);
      IncompleteItemIsNotCut(buffer[..ValidUpTo(buffer)], p);
    }
  }

  const EMPTY_ITEM := ITEM_START + ITEM_END

  /** An end after a start completes an item. */
  lemma {:induction false} EndCompletes(text: seq<byte>, p: nat, q: nat)
    requires OccursAt(text, ITEM_START, p) && OccursAt(text, ITEM_END, q) && p <= q
    ensures NextItem(text).Complete?
  {
    FindIsFirst(text, ITEM_START, p);
    var start := Find(text, ITEM_START).value;
    DropTwice(text, start, q - start);
    FindIsFirst(text[start..], ITEM_END, q - start);
  }

  lemma {:induction false} EmptyItemOccurs(r: seq<byte>)
    ensures OccursAt(r + EMPTY_ITEM, ITEM_START, |r|) && OccursAt(r + EMPTY_ITEM, ITEM_END, |r| + |ITEM_START|)
  {
    assert (r + EMPTY_ITEM)[|r|..] == EMPTY_ITEM;
    DropTwice(r + EMPTY_ITEM, |r|, |ITEM_START|);
    assert EMPTY_ITEM[|ITEM_START|..] == ITEM_END;
  }

  lemma {:induction false} EmptyItemIsAscii()
    ensures IsAscii(EMPTY_ITEM)
  {
  }

  lemma {:induction false} AsciiKeepsValid(r: seq<byte>, more: seq<byte>)
    requires Valid(r) && IsAscii(more)
    ensures Valid(r + more)
  {
    AsciiIsValid(more);
    ValidConcat(r, more);
  }

  lemma {:induction false} EmptyItemCompletes(r: seq<byte>)
    ensures NextItem(r + EMPTY_ITEM).Complete?
  {
    EmptyItemOccurs(r);
    EndCompletes(r + EMPTY_ITEM, |r|, |r| + |ITEM_START|);
  }

  lemma {:induction false} TextOfOneIsConsumed(text: seq<byte>)
    requires Valid(text) && NextItem(text).Complete?
    ensures Parse(text).consumed > 0
  {
    ItemsAreLawful();
    CompleteIsConsumed(text, NextItem, ValidUpTo);
  }

  /** After valid text an empty item always ends something that is consumed. */
  lemma {:induction false} EmptyItemIsConsumed(r: seq<byte>)
    requires Valid(r)
    ensures Parse(r + EMPTY_ITEM).consumed > 0
  {
    EmptyItemIsAscii();
    AsciiKeepsValid(r, EMPTY_ITEM);
    EmptyItemCompletes(r);
    TextOfOneIsConsumed(r + EMPTY_ITEM);
  }

  lemma {:induction false} ConsumedGrows(a: seq<byte>, b: seq<byte>)
    ensures Parse(a + b).consumed == Parse(a).consumed + Parse(a[Parse(a).consumed..] + b).consumed
  {
    ItemsAreLawful();
    BufferMayPause(a, b, NextItem, ValidUpTo);
  }

  lemma {:induction false} RemainderIsValid(a: seq<byte>)
    requires Valid(a)
    ensures Valid(a[Parse(a).consumed..])
  {
    ItemsAreLawful();
    RestIsWhole(a, NextItem, ValidUpTo);
  }

  /** Text that is not broken can still give something that is consumed. */
  lemma {:induction false} UnbrokenIsParsed(a: seq<byte>) returns (b: seq<byte>)
    requires !Broken(a)
    ensures Parse(a + b).consumed > Parse(a).consumed
  {
    var c := UnbrokenCompletes(a);
    ConsumedGrows(a, c);
    ConsumedGrows(a + c, EMPTY_ITEM);
    RemainderIsValid(a + c);
    EmptyItemIsConsumed((a + c)[Parse(a + c).consumed..]);
    b := c + EMPTY_ITEM;
    Regroup(a, c, EMPTY_ITEM);
  }

  lemma {:induction false} BrokenIsNotParsed(a: seq<byte>, b: seq<byte>)
    requires Broken(a)
    ensures Parse(a + b) == Parse(a)
  {
    BrokenIsStuck(a, b);
    assert (a + b)[..ValidUpTo(a)] == a[..ValidUpTo(a)];
  }

  /**
   The reader stalls exactly at bytes that cannot become text: only then nothing that arrives later in the same
   opening gives an event or is consumed.
   */
  lemma {:induction false} StallsExactlyWhenBroken(a: seq<byte>)
    ensures (forall b :: Parse(a + b) == Parse(a)) <==> Broken(a)
  {
    if Broken(a) {
      forall b ensures Parse(a + b) == Parse(a) {
        BrokenIsNotParsed(a, b);
      }
    } else {
      var b := UnbrokenIsParsed(a);
      assert Parse(a + b) != Parse(a);
    }
  }

  // ----- Commit points ----------------------------------------------------------------------------

  datatype MetaCommit =
    | Track(title: seq<byte>, artist: seq<byte>, album: seq<byte>, client: seq<byte>)
    | NewArt(image: seq<byte>)

  function Committed(fields: MetaCommit, ev: MetaEvent): (r: (MetaCommit, Option<MetaCommit>))
    requires fields.Track?
    ensures r.0.Track?
  {
    match ev
    case Title(t) => (fields.(title := t), None)
    case Artist(a) => (fields.(artist := a), None)
    case Album(l) => (fields.(album := l), None)
    case Client(c) => (fields.(client := c), None)
    case Art(bytes) => (fields, Some(NewArt(bytes)))
    case BundleEnd => (fields, Some(fields))
  }

  const NO_FIELDS := Track([], [], [], [])

  class MetaAccumulator {
    var title: seq<byte>
    var artist: seq<byte>
    var album: seq<byte>
    var client: seq<byte>

    ghost function Fields(): (f: MetaCommit)
      reads this
      ensures f.Track?
    {
      Track(title, artist, album, client)
    }

    constructor ()
      ensures Fields() == NO_FIELDS
    {
      title, artist, album, client := [], [], [], [];
    }

    method Apply(ev: MetaEvent) returns (commit: Option<MetaCommit>)
      modifies this
      ensures (Fields(), commit) == Committed(old(Fields()), ev)
    {
      commit := None;
      match ev {
        case Title(t) => title := t;
        case Artist(a) => artist := a;
        case Album(l) => album := l;
        case Client(c) => client := c;
        case Art(bytes) => commit := Some(NewArt(bytes));
        case BundleEnd => commit := Some(Track(title, artist, album, client));
      }
    }
  }

  /** The fields after a run of events, and the commits made on the way. */
  function Folded(fields: MetaCommit, events: seq<MetaEvent>): (r: (MetaCommit, seq<MetaCommit>))
    requires fields.Track?
    ensures r.0.Track?
  {
    if events == [] then (fields, [])
    else
      var (before, commits) := Folded(fields, events[..|events| - 1]);
      var (after, commit) := Committed(before, events[|events| - 1]);
      (after, if commit.Some? then commits + [commit.value] else commits)
  }

  lemma {:induction false} FoldedStep(fields: MetaCommit, events: seq<MetaEvent>, ev: MetaEvent)
    requires fields.Track?
    ensures var before, after := Folded(fields, events), Folded(fields, events + [ev]);
            && after.0 == Committed(before.0, ev).0
            && after.1 == before.1 + (if Committed(before.0, ev).1.Some? then [Committed(before.0, ev).1.value] else [])
  {
    assert (events + [ev])[..|events|] == events;
  }

  lemma {:induction false} FoldedConcat(fields: MetaCommit, a: seq<MetaEvent>, b: seq<MetaEvent>)
    requires fields.Track?
    ensures Folded(fields, a + b)
            == (Folded(Folded(fields, a).0, b).0, Folded(fields, a).1 + Folded(Folded(fields, a).0, b).1)
    decreases |b|
  {
    if b == [] {
      assert a + b == a && Folded(fields, a).1 + [] == Folded(fields, a).1;
    } else {
      var shorter, last := b[..|b| - 1], b[|b| - 1];
      FoldedConcat(fields, a, shorter);
      FoldedStep(fields, a + shorter, last);
      FoldedStep(Folded(fields, a).0, shorter, last);
      assert a + b == a + shorter + [last] && b == shorter + [last];
      var made := Committed(Folded(fields, a + shorter).0, last).1;
      Regroup(Folded(fields, a).1, Folded(Folded(fields, a).0, shorter).1, if made.Some? then [made.value] else []);
    }
  }

  /** The latest value given by an event of one kind, or the value before any event. */
  function Latest(events: seq<MetaEvent>, pick: MetaEvent -> Option<seq<byte>>, initial: seq<byte>): (v: seq<byte>) {
    if events == [] then initial
    else if pick(events[|events| - 1]).Some? then pick(events[|events| - 1]).value
    else Latest(events[..|events| - 1], pick, initial)
  }

  function TitleOf(ev: MetaEvent): Option<seq<byte>> { if ev.Title? then Some(ev.title) else None }
  function ArtistOf(ev: MetaEvent): Option<seq<byte>> { if ev.Artist? then Some(ev.artist) else None }
  function AlbumOf(ev: MetaEvent): Option<seq<byte>> { if ev.Album? then Some(ev.album) else None }
  function ClientOf(ev: MetaEvent): Option<seq<byte>> { if ev.Client? then Some(ev.client) else None }

  /** Each field holds the latest value received, across bundles and art. */
  lemma {:induction false} FieldsAreLatest(fields: MetaCommit, events: seq<MetaEvent>)
    requires fields.Track?
    ensures Folded(fields, events).0 ==
            Track(Latest(events, TitleOf, fields.title), Latest(events, ArtistOf, fields.artist),
                  Latest(events, AlbumOf, fields.album), Latest(events, ClientOf, fields.client))
    decreases |events|
  {
    if events == [] {
    } else {
      FieldsAreLatest(fields, events[..|events| - 1]);
    }
  }

  /** The positions of the events that commit something: bundle ends and images. */
  function CommitPoints(events: seq<MetaEvent>): (points: seq<nat>)
    ensures forall i :: 0 <= i < |points| ==> points[i] < |events|
  {
    if events == [] then []
    else
      var n := |events| - 1;
      CommitPoints(events[..n]) + (if events[n].BundleEnd? || events[n].Art? then [n] else [])
  }

  /** They are listed once each, in order, and there are no others. */
  lemma {:induction false} CommitPointsExactly(events: seq<MetaEvent>)
    ensures forall i, j :: 0 <= i < j < |CommitPoints(events)| ==> CommitPoints(events)[i] < CommitPoints(events)[j]
    ensures forall n: nat :: n in CommitPoints(events) <==>
              n < |events| && (events[n] == BundleEnd || exists image :: events[n] == Art(image))
    decreases |events|
  {
    if events == [] {
    } else {
      CommitPointsExactly(events[..|events| - 1]);
    }
  }

  /** The event at `n` commits its image, or each field's latest value before it. */
  predicate CommitsAt(fields: MetaCommit, events: seq<MetaEvent>, n: nat, commit: MetaCommit)
    requires fields.Track? && n < |events|
  {
    var before := events[..n];
    if events[n].Art? then commit == NewArt(events[n].image)
    else
      && commit.Track?
      && commit.title == Latest(before, TitleOf, fields.title)
      && commit.artist == Latest(before, ArtistOf, fields.artist)
      && commit.album == Latest(before, AlbumOf, fields.album)
      && commit.client == Latest(before, ClientOf, fields.client)
  }

  /** One commit for each bundle end and each image, in order, and no other. */
  ghost predicate AreCommits(fields: MetaCommit, events: seq<MetaEvent>, commits: seq<MetaCommit>)
    requires fields.Track?
  {
    && |commits| == |CommitPoints(events)|
    && forall i :: 0 <= i < |commits| ==> CommitsAt(fields, events, CommitPoints(events)[i], commits[i])
  }

  /** What is committed, told from the events alone. */
  lemma {:induction false} CommitsAreLatest(fields: MetaCommit, events: seq<MetaEvent>)
    requires fields.Track?
    ensures AreCommits(fields, events, Folded(fields, events).1)
    decreases |events|
  {
    if events == [] {
    } else {
      var front := events[..|events| - 1];
      CommitsAreLatest(fields, front);
      FieldsAreLatest(fields, front);
      var points, commits := CommitPoints(front), Folded(fields, front).1;
      forall i | 0 <= i < |commits| ensures CommitsAt(fields, events, points[i], commits[i]) {
        assert front[..points[i]] == events[..points[i]] && front[points[i]] == events[points[i]];
      }
    }
  }

  // ----- The reader -------------------------------------------------------------------------------

  /** All the events of a FIFO opened again and again; each opening is a list of reads and starts afresh. */
  function AllEvents(openings: seq<seq<seq<byte>>>): (events: seq<MetaEvent>) {
    if openings == [] then []
    else AllEvents(openings[..|openings| - 1]) + Parse(Joined(openings[|openings| - 1])).events
  }

  /** `on_event` for each event of one read. */
  method ApplyAll(events: seq<MetaEvent>, accumulator: MetaAccumulator) returns (commits: seq<MetaCommit>)
    modifies accumulator
    ensures (accumulator.Fields(), commits) == Folded(old(accumulator.Fields()), events)
  {
    commits := [];
    for i := 0 to |events|
      invariant (accumulator.Fields(), commits) == Folded(old(accumulator.Fields()), events[..i])
    {
      FoldedStep(old(accumulator.Fields()), events[..i], events[i]);
      assert events[..i + 1] == events[..i] + [events[i]];
      var commit := accumulator.Apply(events[i]);
      if commit.Some? {
        commits := commits + [commit.value];
      }
    }
    assert events[..|events|] == events;
  }

  /** One opening, read to its end. */
  method ReadToEnd(chunks: seq<seq<byte>>, accumulator: MetaAccumulator) returns (commits: seq<MetaCommit>)
    modifies accumulator
    ensures (accumulator.Fields(), commits) == Folded(old(accumulator.Fields()), Parse(Joined(chunks)).events)
    ensures AreCommits(old(accumulator.Fields()), Parse(Joined(chunks)).events, commits)
  {
    ItemsAreLawful();
    commits := [];
    var remainder: seq<byte> := [];
    for n := 0 to |chunks|
      invariant remainder == Carried(chunks[..n], NextItem, ValidUpTo).1
      invariant (accumulator.Fields(), commits) ==
                Folded(old(accumulator.Fields()), Interpreted(Carried(chunks[..n], NextItem, ValidUpTo).0, ParseOne))
    {
      assert chunks[..n + 1][..n] == chunks[..n];
      ghost var items := Carried(chunks[..n], NextItem, ValidUpTo).0;
      remainder := remainder + chunks[n];
      InterpretedConcat(items, Items(remainder).items, ParseOne);
      var events, consumed := ParseItems(remainder);
      FoldedConcat(old(accumulator.Fields()), Interpreted(items, ParseOne), events);
      var more := ApplyAll(events, accumulator);
      commits := commits + more;
      remainder := remainder[consumed..];
    }
    assert chunks[..|chunks|] == chunks;
    AnySplitParsesAlike(chunks);
    CommitsAreLatest(old(accumulator.Fields()), Parse(Joined(chunks)).events);
  }

  /** The reader's reopen loop: the accumulator lives on, an unfinished item does not. */
  method RunReader(openings: seq<seq<seq<byte>>>, accumulator: MetaAccumulator) returns (commits: seq<MetaCommit>)
    modifies accumulator
    ensures (accumulator.Fields(), commits) == Folded(old(accumulator.Fields()), AllEvents(openings))
    ensures AreCommits(old(accumulator.Fields()), AllEvents(openings), commits)
  {
    commits := [];
    for n := 0 to |openings|
      invariant (accumulator.Fields(), commits) == Folded(old(accumulator.Fields()), AllEvents(openings[..n]))
    {
      assert openings[..n + 1][..n] == openings[..n];
      FoldedConcat(old(accumulator.Fields()), AllEvents(openings[..n]), Parse(Joined(openings[n])).events);
      var more := ReadToEnd(openings[n], accumulator);
      commits := commits + more;
    }
    assert openings[..|openings|] == openings;
    CommitsAreLatest(old(accumulator.Fields()), AllEvents(openings));
  }
}
