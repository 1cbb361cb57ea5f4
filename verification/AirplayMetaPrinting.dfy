/**
 Items as shairport-sync writes them (the writer in the tests of src/audio/airplay_meta.rs), and the round
 trip: what is written is read back, event for event, under any split of the stream.
 */
module AirplayMetaPrinting {
  import opened Sequences
  import opened Wrappers
  import opened Utf8
  import opened Framing
  import opened AirplayMeta
  import Base64

  // ----- Tags and the text between them -----------------------------------------------------------

  datatype Piece = Tag(name: seq<byte>) | Payload(text: seq<byte>)

  predicate Lacks(s: seq<byte>, b: byte) { forall i :: 0 <= i < |s| ==> s[i] != b }

  /** No tag hides inside a tag's name or inside a payload. */
  predicate WellFormed(piece: Piece) {
    match piece
    case Tag(name) => Lacks(name, LT) && Lacks(name, GT)
    case Payload(text) => Lacks(text, LT)
  }

  predicate AllWellFormed(pieces: seq<Piece>) { forall p :: p in pieces ==> WellFormed(p) }

  function RenderOne(piece: Piece): (s: seq<byte>) {
    match piece
    case Tag(name) => Open(name)
    case Payload(text) => text
  }

  function Render(pieces: seq<Piece>): (s: seq<byte>) {
    if pieces == [] then [] else RenderOne(pieces[0]) + Render(pieces[1..])
  }

  lemma {:induction false} RenderConcat(a: seq<Piece>, b: seq<Piece>)
    ensures Render(a + b) == Render(a) + Render(b)
  {
    if a == [] {
      assert a + b == b;
    } else {
      assert (a + b)[1..] == a[1..] + b;
      RenderConcat(a[1..], b);
      Regroup(RenderOne(a[0]), Render(a[1..]), Render(b));
    }
  }

  /** `tag` does not occur in `text` before position `n`. */
  ghost predicate NotBefore(text: seq<byte>, tag: seq<byte>, n: nat) {
    forall i: nat :: i < n ==> !OccursAt(text, tag, i)
  }

  lemma {:induction false} FindsFirst(text: seq<byte>, tag: seq<byte>, n: nat)
    requires NotBefore(text, tag, n) && OccursAt(text, tag, n)
    ensures Find(text, tag) == Some(n)
  {
    FindIsFirst(text, tag, n);
  }

  lemma {:induction false} FindsNone(text: seq<byte>, tag: seq<byte>)
    requires NotBefore(text, tag, |text|) && tag != []
    ensures Find(text, tag) == None
  {
  }

  lemma {:induction false} NotBeforeConcat(a: seq<byte>, b: seq<byte>, tag: seq<byte>, n: nat)
    requires NotBefore(a + b, tag, |a|) && NotBefore(b, tag, n)
    ensures NotBefore(a + b, tag, |a| + n)
  {
    forall i: nat | |a| <= i < |a| + n ensures !OccursAt(a + b, tag, i) {
      if i <= |a + b| {
        assert (a + b)[i..] == b[i - |a|..];
        assert !OccursAt(b, tag, i - |a|);
      }
    }
  }

  /** A tag does not start at a byte other than `<`. */
  lemma {:induction false} NotInPlain(text: seq<byte>, from: nat, rest: seq<byte>, tag: seq<byte>)
    requires tag != [] && tag[0] == LT
    requires forall i :: from <= i < |text| ==> text[i] != LT
    requires NotBefore(text + rest, tag, from)
    ensures NotBefore(text + rest, tag, |text|)
  {
    forall i: nat | from <= i < |text| ensures !OccursAt(text + rest, tag, i) {
      assert (text + rest)[i..][0] == text[i];
    }
  }

  /** A tag does not begin like another: the first `>` ends each. */
  lemma {:induction false} TagsDiffer(m: seq<byte>, name: seq<byte>, rest: seq<byte>)
    requires Lacks(m, GT) && Lacks(name, GT) && Open(name) <= Open(m) + rest
    ensures m == name
  {
    var text, tag := Open(m) + rest, Open(name);
    assert forall i :: 0 <= i < |tag| ==> tag[i] == text[i];
    assert tag[|name| + 1] == GT && text[|m| + 1] == GT;
    assert forall i :: 0 <= i < |m| ==> text[i + 1] == m[i];
    assert forall i :: 0 <= i < |name| ==> tag[i + 1] == name[i];
  }

  lemma {:induction false} NotInPiece(p: Piece, rest: seq<byte>, name: seq<byte>, tag: seq<byte>)
    requires WellFormed(p) && Lacks(name, GT) && p != Tag(name) && tag == Open(name)
    ensures NotBefore(RenderOne(p) + rest, tag, |RenderOne(p)|)
  {
    match p {
      case Tag(m) =>
        if tag <= Open(m) + rest {
          TagsDiffer(m, name, rest);
        }
        assert (Open(m) + rest)[0..] == Open(m) + rest;
        NotInPlain(Open(m), 1, rest, tag);
      case Payload(text) => NotInPlain(text, 0, rest, tag);
    }
  }

  predicate HasTag(pieces: seq<Piece>, name: seq<byte>) { Tag(name) in pieces }

  /** A tag does not occur where only other tags and payloads are written. */
  lemma {:induction false} NotInPieces(pieces: seq<Piece>, rest: seq<byte>, name: seq<byte>, tag: seq<byte>)
    requires AllWellFormed(pieces) && Lacks(name, GT) && !HasTag(pieces, name) && tag == Open(name)
    ensures NotBefore(Render(pieces) + rest, tag, |Render(pieces)|)
  {
    if pieces == [] {
    } else {
      var p, more := pieces[0], pieces[1..];
      assert p in pieces && forall q :: q in more ==> q in pieces;
      NotInPieces(more, rest, name, tag);
      NotInPiece(p, Render(more) + rest, name, tag);
      NotBeforeConcat(RenderOne(p), Render(more) + rest, tag, |Render(more)|);
      Regroup(RenderOne(p), Render(more), rest);
    }
  }

  lemma {:induction false} AfterHead(head: seq<byte>, tag: seq<byte>, rest: seq<byte>)
    ensures var text := head + (tag + rest);
            text[..|head|] == head && text[|head| + |tag|..] == rest && OccursAt(text, tag, |head|)
  {
    assert (head + (tag + rest))[|head|..] == tag + rest;
  }

  /** The tag after `before` is found first, and what follows it is at hand. */
  lemma {:induction false} FindWritten(before: seq<Piece>, name: seq<byte>, tag: seq<byte>, rest: seq<byte>)
    requires AllWellFormed(before) && Lacks(name, GT) && !HasTag(before, name) && tag == Open(name)
    ensures var text := Render(before) + (tag + rest);
            && Find(text, tag) == Some(|Render(before)|)
            && text[..|Render(before)|] == Render(before) && text[|Render(before)| + |tag|..] == rest
  {
    var head := Render(before);
    NotInPieces(before, tag + rest, name, tag);
    AfterHead(head, tag, rest);
    FindsFirst(head + (tag + rest), tag, |head|);
  }

  /** Between a tag and its closing tag stands what was written there. */
  lemma {:induction false} BetweenTags(before: seq<Piece>, name: seq<byte>, inside: seq<Piece>, closing: seq<byte>,
                                       rest: seq<byte>)
    requires AllWellFormed(before) && AllWellFormed(inside) && Lacks(name, GT) && Lacks(closing, GT)
    requires !HasTag(before, name) && !HasTag(inside, closing)
    ensures Between(Render(before) + (Open(name) + (Render(inside) + (Open(closing) + rest))),
                    Open(name), Open(closing))
            == Some(Render(inside))
  {
    var open, close := Open(name), Open(closing);
    var body := Render(inside) + (close + rest);
    var text := Render(before) + (open + body);
    FindWritten(before, name, open, body);
    FindWritten(inside, closing, close, rest);
    BetweenIs(text, open, close, |Render(before)|, body, |Render(inside)|);
  }

  lemma {:induction false} BetweenIs(text: seq<byte>, open: seq<byte>, close: seq<byte>, i: nat, body: seq<byte>,
                                     e: nat)
    requires Find(text, open) == Some(i) && text[i + |open|..] == body && Find(body, close) == Some(e)
    ensures Between(text, open, close) == Some(body[..e])
  {
  }

  /** `Render` cut at the pieces `k` and `m`. */
  lemma {:induction false} RenderAround(pieces: seq<Piece>, k: nat, m: nat)
    requires k < m < |pieces|
    ensures Render(pieces) == Render(pieces[..k]) + (RenderOne(pieces[k]) + (Render(pieces[k + 1..m])
                              + (RenderOne(pieces[m]) + Render(pieces[m + 1..]))))
  {
    RenderFrom(pieces, k);
    RenderFrom(pieces[k + 1..], m - k - 1);
    assert pieces[k + 1..][..m - k - 1] == pieces[k + 1..m];
    assert pieces[k + 1..][m - k..] == pieces[m + 1..];
  }

  lemma {:induction false} RenderFrom(pieces: seq<Piece>, k: nat)
    requires k < |pieces|
    ensures Render(pieces) == Render(pieces[..k]) + (RenderOne(pieces[k]) + Render(pieces[k + 1..]))
  {
    RenderConcat(pieces[..k], pieces[k..]);
    assert pieces == pieces[..k] + pieces[k..];
    assert pieces[k..][1..] == pieces[k + 1..];
  }

  lemma {:induction false} BetweenPieces(pieces: seq<Piece>, k: nat, m: nat, name: seq<byte>, closing: seq<byte>)
    requires k < m < |pieces| && AllWellFormed(pieces)
    requires pieces[k] == Tag(name) && pieces[m] == Tag(closing)
    requires !HasTag(pieces[..k], name) && !HasTag(pieces[k + 1..m], closing)
    ensures Between(Render(pieces), Open(name), Open(closing)) == Some(Render(pieces[k + 1..m]))
  {
    assert pieces[k] in pieces && pieces[m] in pieces;
    RenderAround(pieces, k, m);
    BetweenTags(pieces[..k], name, pieces[k + 1..m], closing, Render(pieces[m + 1..]));
  }

  /** The name of a closing tag. */
  function Slash(name: seq<byte>): (closing: seq<byte>) { [47] + name }

  lemma {:induction false} CloseIsOpen(name: seq<byte>)
    ensures Close(name) == Open(Slash(name))
  {
  }

  lemma {:induction false} RenderPayload(text: seq<byte>)
    ensures Render([Payload(text)]) == text
  {
    assert Render([Payload(text)][1..]) == [];
    assert text + [] == text;
  }

  // ----- An item ----------------------------------------------------------------------------------

  const LENGTH: seq<byte> := [108, 101, 110, 103, 116, 104]
  const NEWLINE: byte := 10

  function Nibble(v: int): (b: byte)
    requires 0 <= v < 16
    ensures HexDigit(b) == v && b < 0x80 && b != LT && b != PLUS
  {
    if v < 10 then 48 + v else 97 + (v - 10)
  }

  /** Two lower-case hex digits a byte, as `{:02x}`. */
  function Hex(bytes: seq<byte>): (hex: seq<byte>)
    ensures |hex| == 2 * |bytes| && |hex| % 2 == 0
    ensures forall i :: 0 <= i < |hex| ==> hex[i] < 0x80 && hex[i] != LT
  {
    if bytes == [] then [] else [Nibble(bytes[0] / 16), Nibble(bytes[0] % 16)] + Hex(bytes[1..])
  }

  function Decimal(n: nat): (digits: seq<byte>)
    ensures forall i :: 0 <= i < |digits| ==> 48 <= digits[i] < 58
  {
    if n < 10 then [48 + n] else Decimal(n / 10) + [48 + n % 10]
  }

  function Header(type4: seq<byte>, code4: seq<byte>, length: nat): (pieces: seq<Piece>) {
    [Tag(ITEM), Tag(TYPE), Payload(Hex(type4)), Tag(Slash(TYPE)), Tag(CODE), Payload(Hex(code4)), Tag(Slash(CODE)),
     Tag(LENGTH), Payload(Decimal(length)), Tag(Slash(LENGTH))]
  }

  function Body(data: seq<byte>): (pieces: seq<Piece>) {
    [Payload([NEWLINE]), Tag(DATA_BASE64), Payload([NEWLINE] + Base64.Encode(data)), Tag(Slash(DATA))]
  }

  datatype Item = Item(type4: seq<byte>, code4: seq<byte>, data: Option<seq<byte>>)

  /** An item up to its end tag. */
  function Front(item: Item): (pieces: seq<Piece>) {
    match item.data
    case None => Header(item.type4, item.code4, 0)
    case Some(d) => Header(item.type4, item.code4, |d|) + Body(d)
  }

  function Print(item: Item): (s: seq<byte>) {
    Render(Front(item)) + Close(ITEM)
  }

  lemma {:induction false} PrintIsRendered(item: Item)
    ensures Print(item) == Render(Front(item) + [Tag(Slash(ITEM))])
  {
    RenderConcat(Front(item), [Tag(Slash(ITEM))]);
    CloseIsOpen(ITEM);
    assert Render([Tag(Slash(ITEM))][1..]) == [];
  }

  // ----- Reading it back --------------------------------------------------------------------------

  lemma {:induction false} HexReadsBack(bytes: seq<byte>)
    ensures HexBytes(Hex(bytes)) == Some(bytes)
  {
    if bytes == [] {
    } else {
      var hex := Hex(bytes);
      assert hex[0] == Nibble(bytes[0] / 16) && hex[1] == Nibble(bytes[0] % 16);
      assert hex[2..] == Hex(bytes[1..]);
      HexReadsBack(bytes[1..]);
      assert bytes == [bytes[0]] + bytes[1..];
    }
  }

  lemma {:induction false} WithoutWhitespaceKeeps(s: seq<byte>)
    requires forall i :: 0 <= i < |s| ==> 32 < s[i] < 0x80
    ensures WithoutWhitespace(s) == s
    decreases |s|
  {
    if s == [] {
    } else {
      assert CharLength(s) == 1 && !IsWhitespace(s[..1]);
      WithoutWhitespaceKeeps(s[1..]);
      assert s == s[..1] + s[1..];
    }
  }

  predicate Visible(s: seq<byte>) { forall i :: 0 <= i < |s| ==> 32 < s[i] < 0x80 && s[i] != LT }

  lemma {:induction false} AlphabetIsVisible(b: byte)
    requires Base64.InAlphabet(b)
    ensures 32 < b < 0x80 && b != LT
  {
  }

  lemma {:induction false} EncodedIsVisible(data: seq<byte>)
    ensures Visible(Base64.Encode(data))
  {
    var code := Base64.Encode(data);
    Base64.EncodeInAlphabet(data);
    forall i | 0 <= i < |code| ensures 32 < code[i] < 0x80 && code[i] != LT {
      AlphabetIsVisible(code[i]);
    }
  }

  lemma {:induction false} WithoutLineBreak(s: seq<byte>)
    requires Visible(s)
    ensures WithoutWhitespace([NEWLINE] + s) == s
  {
    var t := [NEWLINE] + s;
    assert CharLength(t) == 1 && t[..1] == [NEWLINE] && t[1..] == s;
    assert IsWhitespace([NEWLINE]);
    WithoutWhitespaceKeeps(s);
  }

  /** The payload is read back although a line break was written before it. */
  lemma {:induction false} PayloadReadsBack(data: seq<byte>)
    ensures Base64.Decode(WithoutWhitespace([NEWLINE] + Base64.Encode(data))) == Some(data)
  {
    EncodedIsVisible(data);
    WithoutLineBreak(Base64.Encode(data));
    Base64.DecodeInvertsEncode(Base64.Encode(data), data);
  }

  lemma {:induction false} NamesDiffer()
    ensures ITEM != TYPE && ITEM != CODE && TYPE != CODE && LENGTH != ITEM && LENGTH != TYPE && LENGTH != CODE
    ensures DATA_BASE64 != ITEM && DATA_BASE64 != TYPE && DATA_BASE64 != CODE && DATA_BASE64 != LENGTH
    ensures DATA != ITEM
  {
    assert ITEM[0] == 105 && TYPE[0] == 116 && CODE[0] == 99 && LENGTH[0] == 108 && DATA_BASE64[0] == 100
           && DATA[0] == 100;
  }

  predicate Name(name: seq<byte>) { name != [] && name[0] != 47 && Lacks(name, LT) && Lacks(name, GT) }

  lemma {:induction false} NamesAreNames()
    ensures Name(ITEM) && Name(TYPE) && Name(CODE) && Name(LENGTH) && Name(DATA) && Name(DATA_BASE64)
  {
  }

  lemma {:induction false} SlashIsApart(a: seq<byte>, b: seq<byte>)
    requires Name(a) && Name(b)
    ensures Slash(a) != b && (Slash(a) == Slash(b) ==> a == b)
    ensures Lacks(Slash(a), LT) && Lacks(Slash(a), GT)
  {
    assert Slash(a)[1..] == a && Slash(b)[1..] == b;
    assert Slash(a)[0] == 47;
  }

  function Pieces(item: Item): (pieces: seq<Piece>) { Front(item) + [Tag(Slash(ITEM))] }

  lemma {:induction false} HeaderIsWellFormed(type4: seq<byte>, code4: seq<byte>, length: nat)
    ensures AllWellFormed(Header(type4, code4, length))
  {
    NamesAreNames();
    SlashIsApart(TYPE, CODE);
    SlashIsApart(CODE, LENGTH);
    SlashIsApart(LENGTH, TYPE);
  }

  lemma {:induction false} BodyIsWellFormed(data: seq<byte>)
    ensures AllWellFormed(Body(data))
  {
    NamesAreNames();
    SlashIsApart(DATA, DATA);
    EncodedIsVisible(data);
    assert WellFormed(Payload([NEWLINE] + Base64.Encode(data)));
  }

  lemma {:induction false} PiecesAreWellFormed(item: Item)
    ensures AllWellFormed(Pieces(item))
  {
    NamesAreNames();
    SlashIsApart(ITEM, ITEM);
    HeaderIsWellFormed(item.type4, item.code4, if item.data.Some? then |item.data.value| else 0);
    if item.data.Some? {
      BodyIsWellFormed(item.data.value);
    }
  }

  lemma {:induction false} OneBetween(pieces: seq<Piece>, k: nat, name: seq<byte>, closing: seq<byte>, text: seq<byte>)
    requires k + 2 < |pieces| && AllWellFormed(pieces) && !HasTag(pieces[..k], name)
    requires pieces[k] == Tag(name) && pieces[k + 1] == Payload(text) && pieces[k + 2] == Tag(Slash(closing))
    ensures Between(Render(pieces), Open(name), Close(closing)) == Some(text)
  {
    assert pieces[k + 1..k + 2] == [Payload(text)];
    RenderPayload(text);
    CloseIsOpen(closing);
    BetweenPieces(pieces, k, k + 2, name, Slash(closing));
  }

  lemma {:induction false} TypeIsBetween(item: Item)
    ensures Between(Print(item), Open(TYPE), Close(TYPE)) == Some(Hex(item.type4))
  {
    var pieces := Pieces(item);
    PiecesAreWellFormed(item);
    PrintIsRendered(item);
    NamesDiffer();
    assert pieces[..1] == [Tag(ITEM)];
    OneBetween(pieces, 1, TYPE, TYPE, Hex(item.type4));
  }

  lemma {:induction false} NoCodeYet(type4: seq<byte>)
    ensures !HasTag([Tag(ITEM), Tag(TYPE), Payload(Hex(type4)), Tag(Slash(TYPE))], CODE)
  {
    NamesDiffer();
    NamesAreNames();
    SlashIsApart(TYPE, CODE);
  }

  lemma {:induction false} CodeIsBetween(item: Item)
    ensures Between(Print(item), Open(CODE), Close(CODE)) == Some(Hex(item.code4))
  {
    var pieces := Pieces(item);
    PiecesAreWellFormed(item);
    PrintIsRendered(item);
    NoCodeYet(item.type4);
    assert pieces[..4] == [Tag(ITEM), Tag(TYPE), Payload(Hex(item.type4)), Tag(Slash(TYPE))];
    OneBetween(pieces, 4, CODE, CODE, Hex(item.code4));
  }

  lemma {:induction false} HexTagReadsBack(text: seq<byte>, name: seq<byte>, bytes: seq<byte>)
    requires Between(text, Open(name), Close(name)) == Some(Hex(bytes)) && Valid(bytes)
    ensures HexTag(text, name) == Some(bytes)
  {
    UnhexedReadsBack(bytes);
  }

  lemma {:induction false} UnhexedReadsBack(bytes: seq<byte>)
    requires Valid(bytes)
    ensures Unhexed(Hex(bytes)) == Some(bytes)
  {
    var hex := Hex(bytes);
    HexReadsBack(bytes);
    assert IsAscii(hex);
    UnhexedIs(hex, bytes);
  }

  lemma {:induction false} UnhexedIs(hex: seq<byte>, bytes: seq<byte>)
    requires |hex| % 2 == 0 && IsAscii(hex) && HexBytes(hex) == Some(bytes) && Valid(bytes)
    ensures Unhexed(hex) == Some(bytes)
  {
  }

  lemma {:induction false} HeaderHasNoData(type4: seq<byte>, code4: seq<byte>, length: nat)
    ensures !HasTag(Header(type4, code4, length), DATA_BASE64)
  {
    NamesDiffer();
    NamesAreNames();
    SlashIsApart(TYPE, DATA_BASE64);
    SlashIsApart(CODE, DATA_BASE64);
    SlashIsApart(LENGTH, DATA_BASE64);
  }

  lemma {:induction false} DataIsBetween(item: Item)
    requires item.data.Some?
    ensures Between(Print(item), Open(DATA_BASE64), Close(DATA)) == Some([NEWLINE] + Base64.Encode(item.data.value))
  {
    var pieces, data := Pieces(item), item.data.value;
    var header, body := Header(item.type4, item.code4, |data|), Body(data);
    PiecesAreWellFormed(item);
    PrintIsRendered(item);
    HeaderHasNoData(item.type4, item.code4, |data|);
    assert |header| == 10 && pieces == header + body + [Tag(Slash(ITEM))];
    assert pieces[10] == body[0] && pieces[11] == body[1] && pieces[12] == body[2] && pieces[13] == body[3];
    assert pieces[..11] == header + [body[0]];
    OneBetween(pieces, 11, DATA_BASE64, DATA, [NEWLINE] + Base64.Encode(data));
  }

  lemma {:induction false} NoDataIsFound(item: Item)
    requires item.data.None?
    ensures Find(Print(item), Open(DATA_BASE64)) == None
  {
    PiecesAreWellFormed(item);
    PrintIsRendered(item);
    HeaderHasNoData(item.type4, item.code4, 0);
    NamesAreNames();
    SlashIsApart(ITEM, DATA_BASE64);
    TagIsNotFound(Pieces(item), DATA_BASE64);
  }

  lemma {:induction false} TagIsNotFound(pieces: seq<Piece>, name: seq<byte>)
    requires AllWellFormed(pieces) && Lacks(name, GT) && !HasTag(pieces, name)
    ensures Find(Render(pieces), Open(name)) == None
  {
    NotInPieces(pieces, [], name, Open(name));
    assert Render(pieces) + [] == Render(pieces);
    FindsNone(Render(pieces), Open(name));
  }

  lemma {:induction false} DataReadsBack(item: Item)
    ensures DecodeData(Print(item)) == item.data
  {
    if item.data.Some? {
      DataIsBetween(item);
      PayloadReadsBack(item.data.value);
    } else {
      NoDataIsFound(item);
    }
  }

  /** A written item is read back as the event its type, code and payload stand for. */
  lemma {:induction false} ItemReadsBack(item: Item)
    requires Valid(item.type4) && Valid(item.code4)
    ensures ParseOne(Print(item)) == EventOf(item.type4, item.code4, item.data)
  {
    TypeIsBetween(item);
    HexTagReadsBack(Print(item), TYPE, item.type4);
    CodeIsBetween(item);
    HexTagReadsBack(Print(item), CODE, item.code4);
    DataReadsBack(item);
  }

  // ----- A stream of items ------------------------------------------------------------------------

  lemma {:induction false} FrontHasNoEnd(item: Item)
    ensures !HasTag(Front(item), Slash(ITEM))
  {
    NamesAreNames();
    NamesDiffer();
    SlashIsApart(ITEM, ITEM);
    SlashIsApart(ITEM, TYPE);
    SlashIsApart(ITEM, CODE);
    SlashIsApart(ITEM, LENGTH);
    SlashIsApart(ITEM, DATA);
    SlashIsApart(ITEM, DATA_BASE64);
  }

  lemma {:induction false} FrontIsWellFormed(item: Item)
    ensures AllWellFormed(Front(item)) && !HasTag(Front(item), Slash(ITEM)) && Lacks(Slash(ITEM), GT)
    ensures Front(item) != [] && Front(item)[0] == Tag(ITEM)
  {
    PiecesAreWellFormed(item);
    assert forall p :: p in Front(item) ==> p in Pieces(item);
    FrontHasNoEnd(item);
    NamesAreNames();
    SlashIsApart(ITEM, ITEM);
  }

  /** The next item of a stream that begins with a written item is exactly that one. */
  lemma {:induction false} PrintedIsNext(item: Item, rest: seq<byte>)
    ensures NextItem(Print(item) + rest) == Complete(0, |Print(item)|)
  {
    var front, text := Front(item), Print(item) + rest;
    FrontIsWellFormed(item);
    CloseIsOpen(ITEM);
    Regroup(Render(front), Close(ITEM), rest);
    FindWritten(front, Slash(ITEM), Close(ITEM), rest);
    StartsWithTag(front, ITEM, Close(ITEM) + rest);
    FindsFirst(text, Open(ITEM), 0);
    assert text[0..] == text;
  }

  lemma {:induction false} StartsWithTag(pieces: seq<Piece>, name: seq<byte>, rest: seq<byte>)
    requires pieces != [] && pieces[0] == Tag(name)
    ensures OccursAt(Render(pieces) + rest, Open(name), 0)
  {
    assert Render(pieces) == Open(name) + Render(pieces[1..]);
  }

  function Printed(items: seq<Item>): (texts: seq<seq<byte>>) {
    seq(|items|, i requires 0 <= i < |items| => Print(items[i]))
  }

  function PrintAll(items: seq<Item>): (stream: seq<byte>) { Glued(Printed(items)) }

  lemma {:induction false} PrintedIsCut(items: seq<Item>)
    requires Fitting(NextItem)
    ensures Cut(PrintAll(items), NextItem) == Framed(Printed(items), |PrintAll(items)|)
  {
    forall i | 0 <= i < |items| ensures IsOneItem(NextItem, Printed(items)[i]) {
      PrintedIsOneItem(items[i]);
    }
    GluedIsCut(Printed(items), NextItem);
  }

  lemma {:induction false} PrintedIsOneItem(item: Item)
    ensures IsOneItem(NextItem, Print(item))
  {
    forall rest ensures NextItem(Print(item) + rest) == Complete(0, |Print(item)|) {
      PrintedIsNext(item, rest);
    }
  }

  predicate AsciiPiece(p: Piece) {
    match p
    case Tag(name) => IsAscii(name)
    case Payload(text) => IsAscii(text)
  }

  predicate AllAscii(pieces: seq<Piece>) { forall p :: p in pieces ==> AsciiPiece(p) }

  lemma {:induction false} RenderIsAscii(pieces: seq<Piece>)
    requires AllAscii(pieces)
    ensures IsAscii(Render(pieces))
  {
    if pieces == [] {
    } else {
      assert pieces[0] in pieces && forall p :: p in pieces[1..] ==> p in pieces;
      assert AsciiPiece(pieces[0]);
      RenderIsAscii(pieces[1..]);
    }
  }

  lemma {:induction false} NamesAreAscii()
    ensures IsAscii(ITEM) && IsAscii(TYPE) && IsAscii(CODE) && IsAscii(LENGTH) && IsAscii(DATA) && IsAscii(DATA_BASE64)
  {
  }

  lemma {:induction false} SlashIsAscii(name: seq<byte>)
    requires IsAscii(name)
    ensures IsAscii(Slash(name))
  {
  }

  lemma {:induction false} HeaderIsAscii(type4: seq<byte>, code4: seq<byte>, length: nat)
    ensures AllAscii(Header(type4, code4, length))
  {
    NamesAreAscii();
    SlashIsAscii(TYPE);
    SlashIsAscii(CODE);
    SlashIsAscii(LENGTH);
    assert AsciiPiece(Payload(Hex(type4))) && AsciiPiece(Payload(Hex(code4))) && AsciiPiece(Payload(Decimal(length)));
  }

  lemma {:induction false} BodyIsAscii(data: seq<byte>)
    ensures AllAscii(Body(data))
  {
    NamesAreAscii();
    SlashIsAscii(DATA);
    EncodedIsVisible(data);
    assert AsciiPiece(Payload([NEWLINE] + Base64.Encode(data)));
  }

  lemma {:induction false} PrintIsAscii(item: Item)
    ensures IsAscii(Print(item))
  {
    HeaderIsAscii(item.type4, item.code4, if item.data.Some? then |item.data.value| else 0);
    if item.data.Some? {
      BodyIsAscii(item.data.value);
    }
    RenderIsAscii(Front(item));
    NamesAreAscii();
  }

  lemma {:induction false} GluedIsText(texts: seq<seq<byte>>)
    requires forall i :: 0 <= i < |texts| ==> Valid(texts[i])
    ensures Valid(Glued(texts))
  {
    if texts == [] {
    } else {
      GluedIsText(texts[1..]);
      ValidConcat(texts[0], Glued(texts[1..]));
    }
  }

  lemma {:induction false} PrintAllIsText(items: seq<Item>)
    ensures Valid(PrintAll(items))
  {
    forall i | 0 <= i < |items| ensures Valid(Printed(items)[i]) {
      PrintIsAscii(items[i]);
      AsciiIsValid(Print(items[i]));
    }
    GluedIsText(Printed(items));
  }

  predicate TextCodes(items: seq<Item>) {
    forall i :: 0 <= i < |items| ==> Valid(items[i].type4) && Valid(items[i].code4)
  }

  function ItemEvent(item: Item): (r: Option<MetaEvent>) { EventOf(item.type4, item.code4, item.data) }

  /** The events that a list of items stands for. */
  function EventsOf(items: seq<Item>): (events: seq<MetaEvent>) { Interpreted(items, ItemEvent) }

  lemma {:induction false} PrintedIsInterpreted(items: seq<Item>)
    requires TextCodes(items)
    ensures Interpreted(Printed(items), ParseOne) == EventsOf(items)
  {
    forall i | 0 <= i < |items| ensures ParseOne(Printed(items)[i]) == ItemEvent(items[i]) {
      ItemReadsBack(items[i]);
    }
    InterpretedAlike(Printed(items), items, ParseOne, ItemEvent);
  }

  /** Whatever items are written, known or not, exactly their events are read, and nothing is left over. */
  lemma {:induction false} ItemsReadBack(items: seq<Item>)
    requires TextCodes(items)
    ensures Parse(PrintAll(items)) == Parsed(EventsOf(items), |PrintAll(items)|)
  {
    var stream := PrintAll(items);
    ItemsAreLawful();
    PrintAllIsText(items);
    assert stream[..|stream|] == stream;
    PrintedIsCut(items);
    PrintedIsInterpreted(items);
  }

  // ----- Known events -----------------------------------------------------------------------------

  function ItemOf(ev: MetaEvent): (item: Item) {
    match ev
    case Title(t) => Item(CORE, MINM, Some(t))
    case Artist(a) => Item(CORE, ASAR, Some(a))
    case Album(l) => Item(CORE, ASAL, Some(l))
    case Client(c) => Item(SSNC, SNUA, Some(c))
    case Art(image) => Item(SSNC, PICT, Some(image))
    case BundleEnd => Item(SSNC, MDEN, None)
  }

  /** Text is text, and an image is not empty. */
  predicate Sendable(ev: MetaEvent) {
    match ev
    case Title(t) => Valid(t)
    case Artist(a) => Valid(a)
    case Album(l) => Valid(l)
    case Client(c) => Valid(c)
    case Art(image) => image != []
    case BundleEnd => true
  }

  function ItemsOf(events: seq<MetaEvent>): (items: seq<Item>) {
    seq(|events|, i requires 0 <= i < |events| => ItemOf(events[i]))
  }

  lemma {:induction false} CodesAreText(ev: MetaEvent)
    ensures Valid(ItemOf(ev).type4) && Valid(ItemOf(ev).code4)
  {
    FourAreText(ItemOf(ev).type4);
    FourAreText(ItemOf(ev).code4);
  }

  lemma {:induction false} FourAreText(code: seq<byte>)
    requires code in {CORE, SSNC, MINM, ASAR, ASAL, SNUA, PICT, MDEN}
    ensures Valid(code)
  {
    assert IsAscii(code);
    AsciiIsValid(code);
  }

  lemma {:induction false} CodesDiffer()
    ensures CORE != SSNC && MDEN != MINM && MDEN != ASAR && MDEN != ASAL && MDEN != SNUA && MDEN != PICT
    ensures MINM != ASAR && MINM != ASAL && ASAR != ASAL && SNUA != PICT
  {
    assert CORE[0] == 99 && SSNC[0] == 115 && MDEN[1] == 100 && MINM[1] == 105 && ASAR[1] == 115 && ASAL[1] == 115;
    assert SNUA[1] == 110 && PICT[1] == 73 && ASAR[2] == 97 && ASAL[2] == 97 && ASAR[3] == 114 && ASAL[3] == 108;
  }

  lemma {:induction false} EventArrivesWith(ev: MetaEvent, text: seq<byte> -> seq<byte>)
    ensures var item := ItemOf(ev);
            EventWith(item.type4, item.code4, item.data, text) == Some(ev) <==>
            match ev
            case Title(t) => text(t) == t
            case Artist(a) => text(a) == a
            case Album(l) => text(l) == l
            case Client(c) => text(c) == c
            case Art(image) => image != []
            case BundleEnd => true
  {
    CodesDiffer();
  }

  lemma {:induction false} LossyIsExact(s: seq<byte>)
    ensures Lossy(s) == s <==> Valid(s)
  {
    LossyKeepsExactlyText(s);
  }

  /** A sent event arrives unchanged exactly when it is sendable. */
  lemma {:induction false} EventArrivesExactly(ev: MetaEvent)
    ensures EventOf(ItemOf(ev).type4, ItemOf(ev).code4, ItemOf(ev).data) == Some(ev) <==> Sendable(ev)
  {
    EventArrivesWith(ev, Lossy);
    match ev {
      case Title(t) => LossyIsExact(t);
      case Artist(a) => LossyIsExact(a);
      case Album(l) => LossyIsExact(l);
      case Client(c) => LossyIsExact(c);
      case Art(_) =>
      case BundleEnd =>
    }
  }

  lemma {:induction false} EventsArriveExactly(events: seq<MetaEvent>)
    ensures EventsOf(ItemsOf(events)) == events <==> forall i :: 0 <= i < |events| ==> Sendable(events[i])
  {
    var items := ItemsOf(events);
    forall i | 0 <= i < |events| ensures ItemEvent(items[i]) == Some(events[i]) <==> Sendable(events[i]) {
      EventArrivesExactly(events[i]);
    }
    if EventsOf(items) == events {
      InterpretedFull(items, ItemEvent);
    } else if forall i :: 0 <= i < |events| ==> Sendable(events[i]) {
      InterpretedAll(items, ItemEvent, events);
    }
  }

  /**
   Any events, written and sent in any chunks, are read back one for one exactly when all are sendable; and
   nothing written is carried over.
   */
  lemma {:induction false} EventsReadBackExactly(events: seq<MetaEvent>, chunks: seq<seq<byte>>)
    requires Joined(chunks) == PrintAll(ItemsOf(events))
    ensures Lawful(NextItem, ValidUpTo)
    ensures var (items, remainder) := Carried(chunks, NextItem, ValidUpTo);
            && remainder == []
            && (Interpreted(items, ParseOne) == events <==> forall i :: 0 <= i < |events| ==> Sendable(events[i]))
  {
    var items := ItemsOf(events);
    forall i | 0 <= i < |items| ensures Valid(items[i].type4) && Valid(items[i].code4) {
      CodesAreText(events[i]);
    }
    ItemsReadBack(items);
    EventsArriveExactly(events);
    AnySplitParsesAlike(chunks);
  }
}
