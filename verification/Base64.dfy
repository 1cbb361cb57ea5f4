/**
 Base 64 as the `STANDARD` engine of the base64 crate reads and writes it: the alphabet of section 4 of
 RFC 4648, padding required, and the unused bits of the last symbol zero.
 */
module Base64 {
  import opened Wrappers
  import opened Utf8

  const PAD: byte := 61

  /** The six bits a symbol stands for, and -1 for a byte that is no symbol. */
  function ValueOf(b: byte): (v: int)
    ensures -1 <= v < 64
    ensures v >= 0 ==> Symbol(v) == b
  {
    if 65 <= b < 91 then b - 65
    else if 97 <= b < 123 then b - 97 + 26
    else if 48 <= b < 58 then b - 48 + 52
    else if b == 43 then 62
    else if b == 47 then 63
    else -1
  }

  function Symbol(v: int): (b: byte)
    requires 0 <= v < 64
  {
    if v < 26 then 65 + v
    else if v < 52 then 97 + (v - 26)
    else if v < 62 then 48 + (v - 52)
    else if v == 62 then 43
    else 47
  }

  // Three bytes x, y, z and the four sextets a, b, c, d they are spread over.
  function A(x: byte): (a: int) ensures 0 <= a < 64 { x / 4 }
  function B(x: byte, y: byte): (b: int) ensures 0 <= b < 64 { x % 4 * 16 + y / 16 }
  function C(y: byte, z: byte): (c: int) ensures 0 <= c < 64 { y % 16 * 4 + z / 64 }
  function D(z: byte): (d: int) ensures 0 <= d < 64 { z % 64 }

  predicate Sextets(s: seq<int>) { forall v :: v in s ==> 0 <= v < 64 }

  function X(a: int, b: int): (x: byte) requires Sextets([a, b]) { assert a in [a, b] && b in [a, b]; a * 4 + b / 16 }
  function Y(b: int, c: int): (y: byte)
    requires Sextets([b, c])
  {
    assert b in [b, c] && c in [b, c];
    b % 16 * 16 + c / 4
  }
  function Z(c: int, d: int): (z: byte) requires Sextets([c, d]) { assert c in [c, d] && d in [c, d]; c % 4 * 64 + d }

  function Symbols(x: byte, y: byte, z: byte): (s: seq<byte>)
    ensures |s| == 4
  {
    [Symbol(A(x)), Symbol(B(x, y)), Symbol(C(y, z)), Symbol(D(z))]
  }

  function Encode(data: seq<byte>): (s: seq<byte>) {
    if data == [] then []
    else if |data| == 1 then [Symbol(A(data[0])), Symbol(B(data[0], 0)), PAD, PAD]
    else if |data| == 2 then [Symbol(A(data[0])), Symbol(B(data[0], data[1])), Symbol(C(data[1], 0)), PAD]
    else Symbols(data[0], data[1], data[2]) + Encode(data[3..])
  }

  /** The three bytes of four symbols. */
  function Bytes(s: seq<byte>): (r: Option<seq<byte>>)
    requires |s| == 4
    ensures r.Some? ==> |r.value| == 3
  {
    var a, b, c, d := ValueOf(s[0]), ValueOf(s[1]), ValueOf(s[2]), ValueOf(s[3]);
    if a < 0 || b < 0 || c < 0 || d < 0 then None else Some([X(a, b), Y(b, c), Z(c, d)])
  }

  /** The last four symbols, of which two may be padding; the bits that padding leaves over must be zero. */
  function LastBytes(s: seq<byte>): (r: Option<seq<byte>>)
    requires |s| == 4
  {
    var a, b, c := ValueOf(s[0]), ValueOf(s[1]), ValueOf(s[2]);
    if s[3] != PAD then Bytes(s)
    else if s[2] != PAD then
      if a < 0 || b < 0 || c < 0 || c % 4 != 0 then None else Some([X(a, b), Y(b, c)])
    else
      if a < 0 || b < 0 || b % 16 != 0 then None else Some([X(a, b)])
  }

  function Decode(s: seq<byte>): (data: Option<seq<byte>>) {
    if s == [] then Some([])
    else if |s| < 4 then None
    else if |s| == 4 then LastBytes(s)
    else
      match (Bytes(s[..4]), Decode(s[4..]))
      case (Some(x), Some(rest)) => Some(x + rest)
      case _ => None
  }

  lemma {:induction false} ValueOfSymbol(v: int)
    requires 0 <= v < 64
    ensures ValueOf(Symbol(v)) == v && Symbol(v) != PAD
  {
  }

  lemma {:induction false} Spread(x: byte, y: byte, z: byte)
    ensures X(A(x), B(x, y)) == x && Y(B(x, y), C(y, z)) == y && Z(C(y, z), D(z)) == z
  {
  }

  lemma {:induction false} Gather(a: int, b: int, c: int, d: int)
    requires 0 <= a < 64 && 0 <= b < 64 && 0 <= c < 64 && 0 <= d < 64
    ensures A(X(a, b)) == a && B(X(a, b), Y(b, c)) == b && C(Y(b, c), Z(c, d)) == c && D(Z(c, d)) == d
    ensures c % 4 == 0 ==> C(Y(b, c), 0) == c
    ensures b % 16 == 0 ==> B(X(a, b), 0) == b
  {
  }

  lemma {:induction false} BytesOfSextets(a: int, b: int, c: int, d: int)
    requires 0 <= a < 64 && 0 <= b < 64 && 0 <= c < 64 && 0 <= d < 64
    ensures Bytes([Symbol(a), Symbol(b), Symbol(c), Symbol(d)]) == Some([X(a, b), Y(b, c), Z(c, d)])
    ensures PAD !in [Symbol(a), Symbol(b), Symbol(c), Symbol(d)]
  {
    ValueOfSymbol(a);
    ValueOfSymbol(b);
    ValueOfSymbol(c);
    ValueOfSymbol(d);
  }

  lemma {:induction false} LastBytesOfSextets(a: int, b: int, c: int)
    requires 0 <= a < 64 && 0 <= b < 64 && 0 <= c < 64
    ensures c % 4 == 0 ==> LastBytes([Symbol(a), Symbol(b), Symbol(c), PAD]) == Some([X(a, b), Y(b, c)])
    ensures b % 16 == 0 ==> LastBytes([Symbol(a), Symbol(b), PAD, PAD]) == Some([X(a, b)])
  {
    ValueOfSymbol(a);
    ValueOfSymbol(b);
    ValueOfSymbol(c);
  }

  lemma {:induction false} BytesOfSymbols(x: byte, y: byte, z: byte)
    ensures Bytes(Symbols(x, y, z)) == Some([x, y, z]) && PAD !in Symbols(x, y, z)
  {
    BytesOfSextets(A(x), B(x, y), C(y, z), D(z));
    Spread(x, y, z);
  }

  lemma {:induction false} UnusedBits(x: byte)
    ensures C(x, 0) % 4 == 0 && B(x, 0) % 16 == 0
  {
  }

  lemma {:induction false} TwoLastBytes(x: byte, y: byte)
    ensures LastBytes([Symbol(A(x)), Symbol(B(x, y)), Symbol(C(y, 0)), PAD]) == Some([x, y])
  {
    var a, b, c := A(x), B(x, y), C(y, 0);
    UnusedBits(y);
    LastBytesOfSextets(a, b, c);
    Spread(x, y, 0);
  }

  lemma {:induction false} OneLastByte(x: byte)
    ensures LastBytes([Symbol(A(x)), Symbol(B(x, 0)), PAD, PAD]) == Some([x])
  {
    var a, b := A(x), B(x, 0);
    UnusedBits(x);
    LastBytesOfSextets(a, b, 0);
    Spread(x, 0, 0);
  }

  lemma {:induction false} SymbolsOfBytes(s: seq<byte>)
    requires |s| == 4 && Bytes(s).Some?
    ensures s == Symbols(Bytes(s).value[0], Bytes(s).value[1], Bytes(s).value[2])
  {
    Gather(ValueOf(s[0]), ValueOf(s[1]), ValueOf(s[2]), ValueOf(s[3]));
  }

  lemma {:induction false} EncodeOfTwo(a: int, b: int, c: int)
    requires 0 <= a < 64 && 0 <= b < 64 && 0 <= c < 64 && c % 4 == 0
    ensures Encode([X(a, b), Y(b, c)]) == [Symbol(a), Symbol(b), Symbol(c), PAD]
  {
    Gather(a, b, c, 0);
  }

  lemma {:induction false} EncodeOfOne(a: int, b: int)
    requires 0 <= a < 64 && 0 <= b < 64 && b % 16 == 0
    ensures Encode([X(a, b)]) == [Symbol(a), Symbol(b), PAD, PAD]
  {
    Gather(a, b, 0, 0);
  }

  lemma {:induction false} EncodeOfLastBytes(s: seq<byte>)
    requires |s| == 4 && LastBytes(s).Some?
    ensures LastBytes(s).value != [] && Encode(LastBytes(s).value) == s
  {
    if s[3] != PAD {
      SymbolsOfBytes(s);
      assert Bytes(s).value[3..] == [];
    } else if s[2] != PAD {
      EncodeOfTwo(ValueOf(s[0]), ValueOf(s[1]), ValueOf(s[2]));
    } else {
      EncodeOfOne(ValueOf(s[0]), ValueOf(s[1]));
    }
  }

  lemma {:induction false} DecodeStep(head: seq<byte>, tail: seq<byte>)
    requires |head| == 4 && PAD !in head && Bytes(head).Some? && Decode(tail).Some?
    ensures Decode(head + tail) == Some(Bytes(head).value + Decode(tail).value)
  {
    assert head[3] in head;
    assert (head + tail)[..4] == head && (head + tail)[4..] == tail;
    if tail == [] {
      assert head + tail == head;
      assert Decode(tail).value == [] && Bytes(head).value + [] == Bytes(head).value;
    }
  }

  lemma {:induction false} DecodeOfGroup(x: byte, y: byte, z: byte, code: seq<byte>, rest: seq<byte>)
    requires Decode(code) == Some(rest)
    ensures Decode(Symbols(x, y, z) + code) == Some([x, y, z] + rest)
  {
    BytesOfSymbols(x, y, z);
    DecodeStep(Symbols(x, y, z), code);
  }

  lemma {:induction false} DecodeOfEncode(data: seq<byte>)
    ensures Decode(Encode(data)) == Some(data)
    decreases |data|
  {
    if data == [] {
    } else if |data| == 1 {
      OneLastByte(data[0]);
      assert data == [data[0]];
    } else if |data| == 2 {
      TwoLastBytes(data[0], data[1]);
      assert data == [data[0], data[1]];
    } else {
      DecodeOfEncode(data[3..]);
      DecodeOfLong(data);
    }
  }

  lemma {:induction false} DecodeOfLong(data: seq<byte>)
    requires |data| >= 3 && Decode(Encode(data[3..])) == Some(data[3..])
    ensures Decode(Encode(data)) == Some(data)
  {
    DecodeOfGroup(data[0], data[1], data[2], Encode(data[3..]), data[3..]);
    assert data == [data[0], data[1], data[2]] + data[3..];
  }

  lemma {:induction false} EncodeOfDecode(s: seq<byte>)
    ensures Decode(s).Some? ==> Encode(Decode(s).value) == s
    decreases |s|
  {
    if Decode(s).None? || s == [] {
    } else if |s| == 4 && LastBytes(s).Some? {
      EncodeOfLastBytes(s);
    } else {
      EncodeOfDecode(s[4..]);
      SymbolsOfBytes(s[..4]);
      assert Decode(s).value[3..] == Decode(s[4..]).value;
      assert s == s[..4] + s[4..];
    }
  }

  /** Decoding accepts exactly what encoding writes: no second spelling of any data is accepted. */
  lemma {:induction false} DecodeInvertsEncode(s: seq<byte>, data: seq<byte>)
    ensures Decode(s) == Some(data) <==> s == Encode(data)
  {
    DecodeOfEncode(data);
    EncodeOfDecode(s);
  }

  /** The table of section 4 of RFC 4648, character by character. */
  lemma {:induction false} AlphabetIsStandard(c: char)
    requires c as int < 256
    ensures var v := ValueOf(c as int);
            if 'A' <= c <= 'Z' then v == c as int - 'A' as int
            else if 'a' <= c <= 'z' then v == 26 + (c as int - 'a' as int)
            else if '0' <= c <= '9' then v == 52 + (c as int - '0' as int)
            else if c == '+' then v == 62
            else if c == '/' then v == 63
            else v == -1
    ensures ValueOf(c as int) >= 0 ==> Symbol(ValueOf(c as int)) == c as int
    ensures PAD == '=' as int
  {
  }

  /** Four symbols are the bits of three bytes, first byte and high bits first; fewer bytes are padded. */
  lemma {:induction false} SymbolsHoldTheBits(x: byte, y: byte, z: byte)
    ensures A(x) * 262144 + B(x, y) * 4096 + C(y, z) * 64 + D(z) == x as int * 65536 + y as int * 256 + z as int
    ensures Encode([x, y, z]) == [Symbol(A(x)), Symbol(B(x, y)), Symbol(C(y, z)), Symbol(D(z))]
    ensures Encode([x, y]) == [Symbol(A(x)), Symbol(B(x, y)), Symbol(C(y, 0)), PAD]
    ensures Encode([x]) == [Symbol(A(x)), Symbol(B(x, 0)), PAD, PAD]
  {
    assert [x, y, z][3..] == [];
    assert Encode([]) == [];
    assert Encode([x, y, z]) == Symbols(x, y, z) + Encode([x, y, z][3..]);
  }

  predicate InAlphabet(b: byte) { ValueOf(b) >= 0 || b == PAD }

  lemma {:induction false} EncodeInAlphabet(data: seq<byte>)
    ensures forall i :: 0 <= i < |Encode(data)| ==> InAlphabet(Encode(data)[i])
    decreases |data|
  {
    if data == [] {
    } else {
      var y, z := if |data| > 1 then data[1] else 0, if |data| > 2 then data[2] else 0;
      ValueOfSymbol(A(data[0]));
      ValueOfSymbol(B(data[0], y));
      ValueOfSymbol(C(y, z));
      ValueOfSymbol(D(z));
      if |data| > 2 {
        EncodeInAlphabet(data[3..]);
      }
    }
  }
}
