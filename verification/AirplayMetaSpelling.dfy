/**
 Items of the metadata pipe spelled out as text (src/audio/airplay_meta.rs): the tags, types and codes that
 `parse_one` knows, and the event each item stands for.
 */
module AirplayMetaSpelling {
  import opened Wrappers
  import opened Utf8
  import opened Framing
  import opened AirplayMeta
  import opened AirplayMetaPrinting
  import Base64

  /** Plain text as its bytes; there are no other characters in what follows. */
  function Ascii(text: string): (bytes: seq<byte>)
    ensures |bytes| == |text|
    ensures forall i :: 0 <= i < |text| && text[i] as int < 0x80 ==> bytes[i] == text[i] as int
  {
    seq(|text|, i requires 0 <= i < |text| => text[i] as int % 0x80)
  }

  // ----- Names ------------------------------------------------------------------------------------

  lemma {:induction false} CodesAreSpelled()
    ensures CORE == Ascii("core") && SSNC == Ascii("ssnc")
    ensures MINM == Ascii("minm") && ASAR == Ascii("asar") && ASAL == Ascii("asal")
    ensures SNUA == Ascii("snua") && PICT == Ascii("PICT") && MDEN == Ascii("mden")
  {
  }

  lemma {:induction false} OpenTagsAreSpelled()
    ensures Open(ITEM) == Ascii("<item>") && Open(TYPE) == Ascii("<type>") && Open(CODE) == Ascii("<code>")
    ensures Open(LENGTH) == Ascii("<length>")
    ensures [NEWLINE] == Ascii("\n")
  {
  }

  lemma {:induction false} DataTagIsSpelled()
    ensures Open(DATA_BASE64) == Ascii("<data encoding=\"base64\">")
  {
    assert |Open(DATA_BASE64)| == 24;
  }

  lemma {:induction false} CloseTagsAreSpelled()
    ensures Close(ITEM) == Ascii("</item>") && Close(TYPE) == Ascii("</type>") && Close(CODE) == Ascii("</code>")
    ensures Close(LENGTH) == Ascii("</length>") && Close(DATA) == Ascii("</data>")
  {
  }

  /** The digits of radix 16, in either case, and nothing else. */
  lemma {:induction false} HexDigitsExactly(b: byte, v: int)
    requires 0 <= v < 16
    ensures HexDigit(b) == v <==>
            b == Ascii("0123456789abcdef")[v] || b == Ascii("0123456789ABCDEF")[v]
  {
  }

  /** Two digits are read as one number, and a leading plus sign as nothing. */
  lemma {:induction false} TwoDigitsExactly(high: byte, low: byte, v: byte)
    ensures HexByte(high, low) == v <==>
            || (HexDigit(high) == v / 16 && HexDigit(low) == v % 16)
            || (high == Ascii("+")[0] && HexDigit(low) == v)
  {
  }

  /** Of a payload, characters of Unicode's White_Space go, all others stay, in their order. */
  lemma {:induction false} OnlyWhitespaceGoes(c: int, rest: seq<byte>)
    requires IsScalar(c)
    ensures WithoutWhitespace(EncodeScalar(c) + rest) ==
            (if IsWhitespaceScalar(c) then [] else EncodeScalar(c)) + WithoutWhitespace(rest)
  {
    var s, text := EncodeScalar(c), EncodeScalar(c) + rest;
    WhitespaceExactly(c);
    EncodedIsChar(c);
    CharLengthOfPrefix(s, rest);
    assert text[..|s|] == s && text[|s|..] == rest;
  }

  // ----- Events -----------------------------------------------------------------------------------

  lemma {:induction false} EventsOfCodes(d: seq<byte>)
    ensures EventOf(CORE, MINM, Some(d)) == Some(Title(Lossy(d)))
    ensures EventOf(CORE, ASAR, Some(d)) == Some(Artist(Lossy(d)))
    ensures EventOf(CORE, ASAL, Some(d)) == Some(Album(Lossy(d)))
    ensures EventOf(SSNC, SNUA, Some(d)) == Some(Client(Lossy(d)))
    ensures EventOf(SSNC, PICT, Some(d)) == if d == [] then None else Some(Art(d))
    ensures EventOf(SSNC, MDEN, Some(d)) == Some(BundleEnd)
  {
    CodesDiffer();
  }

  /** What a spelled type and code with a payload stand for. */
  lemma {:induction false} EventsAreSpelled(d: seq<byte>)
    ensures EventOf(Ascii("core"), Ascii("minm"), Some(d)) == Some(Title(Lossy(d)))
    ensures EventOf(Ascii("core"), Ascii("asar"), Some(d)) == Some(Artist(Lossy(d)))
    ensures EventOf(Ascii("core"), Ascii("asal"), Some(d)) == Some(Album(Lossy(d)))
    ensures EventOf(Ascii("ssnc"), Ascii("snua"), Some(d)) == Some(Client(Lossy(d)))
    ensures EventOf(Ascii("ssnc"), Ascii("PICT"), Some(d)) == if d == [] then None else Some(Art(d))
    ensures EventOf(Ascii("ssnc"), Ascii("mden"), Some(d)) == Some(BundleEnd)
  {
    CodesAreSpelled();
    EventsOfCodes(d);
  }

  lemma {:induction false} CodesDiffer()
    ensures CORE != SSNC
    ensures MINM != ASAR && MINM != ASAL && MINM != SNUA && MINM != PICT && MINM != MDEN
    ensures ASAR != ASAL && ASAR != SNUA && ASAR != PICT && ASAR != MDEN
    ensures ASAL != SNUA && ASAL != PICT && ASAL != MDEN
    ensures SNUA != PICT && SNUA != MDEN && PICT != MDEN
  {
    assert CORE[0] == 99 && SSNC[0] == 115;
    assert MINM[1] == 105 && ASAR[1] == 115 && ASAL[1] == 115 && SNUA[1] == 110 && PICT[1] == 73 && MDEN[1] == 100;
    assert ASAR[3] == 114 && ASAL[3] == 108;
  }

  /** The pairs of type and code that stand for something. */
  predicate Means(type4: seq<byte>, code4: seq<byte>) {
    || (type4 == Ascii("core") && code4 in {Ascii("minm"), Ascii("asar"), Ascii("asal")})
    || (type4 == Ascii("ssnc") && code4 in {Ascii("snua"), Ascii("PICT"), Ascii("mden")})
  }

  /** Nothing else stands for anything; and without a payload only the end of a bundle does. */
  lemma {:induction false} NoOtherEvents(type4: seq<byte>, code4: seq<byte>, data: Option<seq<byte>>)
    ensures !Means(type4, code4) ==> EventOf(type4, code4, data) == None
    ensures data == None ==>
              EventOf(type4, code4, data) ==
              if type4 == Ascii("ssnc") && code4 == Ascii("mden") then Some(BundleEnd) else None
  {
    CodesAreSpelled();
  }

  // ----- Items ------------------------------------------------------------------------------------

  /** Pieces of text, one after the other. */
  function Text(pieces: seq<seq<byte>>): (text: seq<byte>) {
    if pieces == [] then [] else pieces[0] + Text(pieces[1..])
  }

  lemma {:induction false} RenderIsText(pieces: seq<Piece>, texts: seq<seq<byte>>)
    requires |texts| == |pieces| && forall i :: 0 <= i < |pieces| ==> RenderOne(pieces[i]) == texts[i]
    ensures Render(pieces) == Text(texts)
    decreases |pieces|
  {
    if pieces == [] {
    } else {
      RenderIsText(pieces[1..], texts[1..]);
    }
  }

  function HeaderText(type4: string, code4: string, length: nat): (texts: seq<seq<byte>>) {
    [Ascii("<item>"), Ascii("<type>"), Ascii(type4), Ascii("</type>"), Ascii("<code>"), Ascii(code4), Ascii("</code>"),
     Ascii("<length>"), Decimal(length), Ascii("</length>")]
  }

  function BodyText(d: seq<byte>): (texts: seq<seq<byte>>) {
    [Ascii("\n"), Ascii("<data encoding=\"base64\">"), Ascii("\n") + Base64.Encode(d), Ascii("</data>")]
  }

  /** An item with a payload, as shairport-sync writes it; `type4` and `code4` are hexadecimal. */
  function Spelled(type4: string, code4: string, d: seq<byte>): (text: seq<byte>) {
    Text(HeaderText(type4, code4, |d|)) + Text(BodyText(d)) + Ascii("</item>")
  }

  lemma {:induction false} HeaderIsSpelled(t: seq<byte>, c: seq<byte>, length: nat, type4: string, code4: string)
    requires Hex(t) == Ascii(type4) && Hex(c) == Ascii(code4)
    ensures Render(Header(t, c, length)) == Text(HeaderText(type4, code4, length))
  {
    OpenTagsAreSpelled();
    CloseTagsAreSpelled();
    ClosesAreSlashes();
    RenderIsText(Header(t, c, length), HeaderText(type4, code4, length));
  }

  lemma {:induction false} BodyIsSpelled(d: seq<byte>)
    ensures Render(Body(d)) == Text(BodyText(d))
  {
    OpenTagsAreSpelled();
    DataTagIsSpelled();
    CloseTagsAreSpelled();
    ClosesAreSlashes();
    RenderIsText(Body(d), BodyText(d));
  }

  lemma {:induction false} PrintIsSpelled(item: Item, type4: string, code4: string)
    requires item.data.Some?
    requires Hex(item.type4) == Ascii(type4) && Hex(item.code4) == Ascii(code4)
    ensures Print(item) == Spelled(type4, code4, item.data.value)
  {
    var d := item.data.value;
    HeaderIsSpelled(item.type4, item.code4, |d|, type4, code4);
    BodyIsSpelled(d);
    CloseTagsAreSpelled();
    RenderConcat(Header(item.type4, item.code4, |d|), Body(d));
  }

  lemma {:induction false} ClosesAreSlashes()
    ensures Open(Slash(ITEM)) == Close(ITEM) && Open(Slash(TYPE)) == Close(TYPE) && Open(Slash(CODE)) == Close(CODE)
    ensures Open(Slash(LENGTH)) == Close(LENGTH) && Open(Slash(DATA)) == Close(DATA)
  {
    CloseIsOpen(ITEM);
    CloseIsOpen(TYPE);
    CloseIsOpen(CODE);
    CloseIsOpen(LENGTH);
    CloseIsOpen(DATA);
  }

  /** Four bytes in hexadecimal. */
  lemma {:induction false} HexOfFour(code: seq<byte>, text: string)
    requires |code| == 4 && |text| == 8
    requires forall i :: 0 <= i < 4 ==> text[2 * i] as int == Nibble(code[i] / 16)
    requires forall i :: 0 <= i < 4 ==> text[2 * i + 1] as int == Nibble(code[i] % 16)
    ensures Hex(code) == Ascii(text)
  {
    var a, b, c, d := code[0], code[1], code[2], code[3];
    assert text[2 * 0] as int == Nibble(a / 16) && text[2 * 1] as int == Nibble(b / 16);
    assert text[2 * 2] as int == Nibble(c / 16) && text[2 * 3] as int == Nibble(d / 16);
    assert code == [a, b, c, d];
    FourInHex(a, b, c, d);
  }

  lemma {:induction false} FourInHex(a: byte, b: byte, c: byte, d: byte)
    ensures Hex([a, b, c, d]) == [Nibble(a / 16), Nibble(a % 16), Nibble(b / 16), Nibble(b % 16),
                                  Nibble(c / 16), Nibble(c % 16), Nibble(d / 16), Nibble(d % 16)]
  {
    assert [a, b, c, d][1..] == [b, c, d] && [b, c, d][1..] == [c, d] && [c, d][1..] == [d] && [d][1..] == [];
    assert Hex([d]) == [Nibble(d / 16), Nibble(d % 16)];
    assert Hex([c, d]) == [Nibble(c / 16), Nibble(c % 16)] + Hex([d]);
    assert Hex([b, c, d]) == [Nibble(b / 16), Nibble(b % 16)] + Hex([c, d]);
  }

  lemma {:induction false} CoreInHex()
    ensures Hex(CORE) == Ascii("636f7265") && IsAscii(CORE)
  {
    HexOfFour(CORE, "636f7265");
  }

  lemma {:induction false} SsncInHex()
    ensures Hex(SSNC) == Ascii("73736e63") && IsAscii(SSNC)
  {
    HexOfFour(SSNC, "73736e63");
  }

  lemma {:induction false} MinmInHex()
    ensures Hex(MINM) == Ascii("6d696e6d") && IsAscii(MINM)
  {
    HexOfFour(MINM, "6d696e6d");
  }

  lemma {:induction false} AsarInHex()
    ensures Hex(ASAR) == Ascii("61736172") && IsAscii(ASAR)
  {
    HexOfFour(ASAR, "61736172");
  }

  lemma {:induction false} AsalInHex()
    ensures Hex(ASAL) == Ascii("6173616c") && IsAscii(ASAL)
  {
    HexOfFour(ASAL, "6173616c");
  }

  lemma {:induction false} SnuaInHex()
    ensures Hex(SNUA) == Ascii("736e7561") && IsAscii(SNUA)
  {
    HexOfFour(SNUA, "736e7561");
  }

  lemma {:induction false} PictInHex()
    ensures Hex(PICT) == Ascii("50494354") && IsAscii(PICT)
  {
    HexOfFour(PICT, "50494354");
  }

  lemma {:induction false} MdenInHex()
    ensures Hex(MDEN) == Ascii("6d64656e") && IsAscii(MDEN)
  {
    HexOfFour(MDEN, "6d64656e");
  }

  lemma {:induction false} ItemIsRead(t: seq<byte>, c: seq<byte>, d: seq<byte>, type4: string, code4: string)
    requires IsAscii(t) && IsAscii(c) && Hex(t) == Ascii(type4) && Hex(c) == Ascii(code4)
    ensures ParseOne(Spelled(type4, code4, d)) == EventOf(t, c, Some(d))
  {
    AsciiIsValid(t);
    AsciiIsValid(c);
    ItemReadsBack(Item(t, c, Some(d)));
    PrintIsSpelled(Item(t, c, Some(d)), type4, code4);
  }

  // Items spelled out as text, and what `parse_one` makes of each.

  lemma {:induction false} TitleIsRead(d: seq<byte>)
    ensures ParseOne(Spelled("636f7265", "6d696e6d", d)) == Some(Title(Lossy(d)))
  {
    CoreInHex();
    MinmInHex();
    EventsOfCodes(d);
    ItemIsRead(CORE, MINM, d, "636f7265", "6d696e6d");
  }

  lemma {:induction false} ArtistIsRead(d: seq<byte>)
    ensures ParseOne(Spelled("636f7265", "61736172", d)) == Some(Artist(Lossy(d)))
  {
    CoreInHex();
    AsarInHex();
    EventsOfCodes(d);
    ItemIsRead(CORE, ASAR, d, "636f7265", "61736172");
  }

  lemma {:induction false} AlbumIsRead(d: seq<byte>)
    ensures ParseOne(Spelled("636f7265", "6173616c", d)) == Some(Album(Lossy(d)))
  {
    CoreInHex();
    AsalInHex();
    EventsOfCodes(d);
    ItemIsRead(CORE, ASAL, d, "636f7265", "6173616c");
  }

  lemma {:induction false} ClientIsRead(d: seq<byte>)
    ensures ParseOne(Spelled("73736e63", "736e7561", d)) == Some(Client(Lossy(d)))
  {
    SsncInHex();
    SnuaInHex();
    EventsOfCodes(d);
    ItemIsRead(SSNC, SNUA, d, "73736e63", "736e7561");
  }

  lemma {:induction false} ArtIsRead(d: seq<byte>)
    ensures ParseOne(Spelled("73736e63", "50494354", d)) == if d == [] then None else Some(Art(d))
  {
    SsncInHex();
    PictInHex();
    EventsOfCodes(d);
    ItemIsRead(SSNC, PICT, d, "73736e63", "50494354");
  }

  lemma {:induction false} BundleEndIsRead(d: seq<byte>)
    ensures ParseOne(Spelled("73736e63", "6d64656e", d)) == Some(BundleEnd)
  {
    SsncInHex();
    MdenInHex();
    EventsOfCodes(d);
    ItemIsRead(SSNC, MDEN, d, "73736e63", "6d64656e");
  }
}
