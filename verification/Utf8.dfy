/**
 Text as the metadata reader sees it: bytes, of which a prefix is valid UTF-8 (section 4 of RFC 3629).
 The functions follow `str::from_utf8` and `String::from_utf8_lossy` of Rust's standard library.
 */
module Utf8 {
  import opened Wrappers

  /** The UTF-8 form of the replacement character U+FFFD. */
  const REPLACEMENT: seq<byte> := [0xEF, 0xBF, 0xBD]

  predicate IsContinuation(b: byte) { 0x80 <= b < 0xC0 }

  /** How many bytes the lead byte `b` announces; 0 for a byte that cannot lead. */
  function Announced(b: byte): nat {
    if b < 0x80 then 1
    else if 0xC2 <= b < 0xE0 then 2
    else if 0xE0 <= b < 0xF0 then 3
    else if 0xF0 <= b < 0xF5 then 4
    else 0
  }

  /** The second byte leaves out overlong forms, surrogates and values beyond U+10FFFF. */
  predicate FitsLead(lead: byte, second: byte) {
    if lead == 0xE0 then 0xA0 <= second < 0xC0
    else if lead == 0xED then 0x80 <= second < 0xA0
    else if lead == 0xF0 then 0x90 <= second < 0xC0
    else if lead == 0xF4 then 0x80 <= second < 0x90
    else IsContinuation(second)
  }

  /** How much of the beginning of `s` is a beginning of some character. */
  function Agreeing(s: seq<byte>): (n: nat)
    ensures n <= |s|
    ensures s != [] ==> n <= Announced(s[0])
  {
    if s == [] || Announced(s[0]) == 0 then 0
    else if Announced(s[0]) == 1 || |s| == 1 || !FitsLead(s[0], s[1]) then 1
    else if Announced(s[0]) == 2 || |s| == 2 || !IsContinuation(s[2]) then 2
    else if Announced(s[0]) == 3 || |s| == 3 || !IsContinuation(s[3]) then 3
    else 4
  }

  /** The length of the character `s` begins with; 0 when it begins with none. */
  function CharLength(s: seq<byte>): (n: nat)
    ensures n <= |s|
  {
    if s != [] && Agreeing(s) == Announced(s[0]) then Agreeing(s) else 0
  }

  /** The length of the longest valid prefix, whole characters only. */
  function ValidUpTo(s: seq<byte>): (n: nat)
    ensures n <= |s|
  {
    var n := CharLength(s);
    if n == 0 then 0 else n + ValidUpTo(s[n..])
  }

  predicate Valid(s: seq<byte>) { ValidUpTo(s) == |s| }

  /** Valid text unchanged; every longest piece that cannot be completed becomes one replacement character. */
  function Lossy(s: seq<byte>): (text: seq<byte>) {
    if s == [] then []
    else if CharLength(s) > 0 then s[..CharLength(s)] + Lossy(s[CharLength(s)..])
    else
      var broken := if Agreeing(s) == 0 then 1 else Agreeing(s);
      REPLACEMENT + Lossy(s[broken..])
  }

  /** A first character does not depend on what follows it. */
  lemma {:induction false} CharLengthOfPrefix(p: seq<byte>, q: seq<byte>)
    requires CharLength(p) > 0
    ensures CharLength(p + q) == CharLength(p)
  {
  }

  lemma {:induction false} CharAlone(s: seq<byte>)
    requires CharLength(s) > 0
    ensures Valid(s[..CharLength(s)])
  {
    var c := s[..CharLength(s)];
    assert CharLength(c) == |c|;
    assert c[|c|..] == [];
  }

  /** Validity goes on from the end of a valid prefix. */
  lemma {:induction false} ValidUpToConcat(p: seq<byte>, q: seq<byte>)
    requires Valid(p)
    ensures ValidUpTo(p + q) == |p| + ValidUpTo(q)
    decreases |p|
  {
    var n := CharLength(p);
    if n == 0 {
      assert p + q == q;
    } else {
      CharLengthOfPrefix(p, q);
      assert (p + q)[n..] == p[n..] + q;
      ValidUpToConcat(p[n..], q);
    }
  }

  lemma {:induction false} ValidConcat(p: seq<byte>, q: seq<byte>)
    requires Valid(p) && Valid(q)
    ensures Valid(p + q)
  {
    ValidUpToConcat(p, q);
  }

  lemma {:induction false} SplitTwice(s: seq<byte>, n: nat, i: nat)
    requires n <= i <= |s|
    ensures s[..i] == s[..n] + s[n..][..i - n] && s[i..] == s[n..][i - n..]
  {
  }

  /** What `ValidUpTo` measures is valid, so a reader may take it as text. */
  lemma {:induction false} ValidPrefixIsValid(s: seq<byte>)
    ensures Valid(s[..ValidUpTo(s)])
    decreases |s|
  {
    var n := CharLength(s);
    if n == 0 {
    } else {
      ValidPrefixIsValid(s[n..]);
      CharAlone(s);
      ValidConcat(s[..n], s[n..][..ValidUpTo(s[n..])]);
      SplitTwice(s, n, ValidUpTo(s));
    }
  }

  lemma {:induction false} AsciiIsValid(s: seq<byte>)
    requires forall i :: 0 <= i < |s| ==> s[i] < 0x80
    ensures Valid(s)
    decreases |s|
  {
    if s == [] {
    } else {
      AsciiIsValid(s[1..]);
    }
  }

  /** An ASCII byte is a character of its own. */
  lemma {:induction false} AsciiStandsAlone(s: seq<byte>, i: nat)
    requires i < CharLength(s) && s[i] < 0x80
    ensures i == 0 && CharLength(s) == 1
  {
  }

  lemma {:induction false} CutBeforeAscii(s: seq<byte>, i: nat)
    requires Valid(s) && i < |s| && s[i] < 0x80
    ensures Valid(s[..i]) && Valid(s[i..])
    decreases |s|
  {
    var n := CharLength(s);
    if i == 0 {
      assert s[0..] == s && s[..0] == [];
    } else {
      if i < n {
        AsciiStandsAlone(s, i);
      }
      SplitTwice(s, n, i);
      CutBeforeAscii(s[n..], i - n);
      CharAlone(s);
      ValidConcat(s[..n], s[n..][..i - n]);
    }
  }

  /** Text may be cut before and after every ASCII byte. */
  lemma {:induction false} CutAtAscii(s: seq<byte>, i: nat)
    requires Valid(s) && i < |s| && s[i] < 0x80
    ensures Valid(s[..i]) && Valid(s[i..]) && Valid(s[..i + 1]) && Valid(s[i + 1..])
  {
    CutBeforeAscii(s, i);
    assert s[i..][1..] == s[i + 1..];
    assert CharLength(s[i..]) == 1;
    AsciiIsValid([s[i]]);
    ValidConcat(s[..i], [s[i]]);
    assert s[..i + 1] == s[..i] + [s[i]];
  }

  /** Lossy decoding always gives text, and changes nothing exactly when it was given text. */
  lemma {:induction false} LossyKeepsExactlyText(s: seq<byte>)
    ensures Valid(Lossy(s))
    ensures Lossy(s) == s <==> Valid(s)
    decreases |s|
  {
    if s == [] {
    } else {
      var n := CharLength(s);
      if n > 0 {
        LossyKeepsExactlyText(s[n..]);
        CharAlone(s);
        ValidConcat(s[..n], Lossy(s[n..]));
        assert s == s[..n] + s[n..];
        assert Lossy(s)[n..] == Lossy(s[n..]);
      } else {
        var broken := if Agreeing(s) == 0 then 1 else Agreeing(s);
        LossyKeepsExactlyText(s[broken..]);
        assert REPLACEMENT[3..] == [];
        ValidConcat(REPLACEMENT, Lossy(s[broken..]));
        assert !Valid(s);
      }
    }
    LossyOfText(s);
  }

  lemma {:induction false} LossyOfText(s: seq<byte>)
    ensures Valid(s) ==> Lossy(s) == s
    decreases |s|
  {
    var n := CharLength(s);
    if n == 0 {
    } else {
      LossyOfText(s[n..]);
      assert s == s[..n] + s[n..];
    }
  }

  // ----- Bytes that can never become text ---------------------------------------------------------

  /** After the valid prefix stands something that no more bytes turn into a character. */
  predicate Broken(s: seq<byte>) {
    Agreeing(s[ValidUpTo(s)..]) < |s| - ValidUpTo(s)
  }

  lemma {:induction false} NoCharFollows(t: seq<byte>, b: seq<byte>)
    requires Agreeing(t) < |t| && CharLength(t) == 0
    ensures CharLength(t + b) == 0
  {
  }

  lemma {:induction false} PrefixEndsHere(s: seq<byte>)
    ensures CharLength(s[ValidUpTo(s)..]) == 0
    decreases |s|
  {
    var n := CharLength(s);
    if n == 0 {
      assert s[0..] == s;
    } else {
      PrefixEndsHere(s[n..]);
      SplitTwice(s, n, ValidUpTo(s));
    }
  }

  /** What stops a valid prefix is not ASCII. */
  lemma {:induction false} AsciiGoesOn(s: seq<byte>)
    ensures ValidUpTo(s) < |s| ==> s[ValidUpTo(s)] >= 0x80
  {
    PrefixEndsHere(s);
    var t := s[ValidUpTo(s)..];
    assert t != [] ==> t[0] == s[ValidUpTo(s)];
  }

  /** Bytes that complete the beginning of a character. */
  function Completion(t: seq<byte>): (rest: seq<byte>)
    requires t != [] && Announced(t[0]) > 0
  {
    var second := if t[0] == 0xE0 then 0xA0 else if t[0] == 0xF0 then 0x90 else 0x80;
    if |t| == 1 then ([second] + [0x80, 0x80])[..Announced(t[0]) - 1]
    else [0x80, 0x80][..if Announced(t[0]) > |t| then Announced(t[0]) - |t| else 0]
  }

  lemma {:induction false} CompletionCompletes(t: seq<byte>)
    requires t != [] && Agreeing(t) == |t|
    ensures CharLength(t + Completion(t)) > 0
    ensures CharLength(t) == 0 ==> CharLength(t + Completion(t)) == |t + Completion(t)|
  {
  }

  lemma {:induction false} GoesOnAfterPrefix(s: seq<byte>, b: seq<byte>)
    ensures ValidUpTo(s + b) == ValidUpTo(s) + ValidUpTo(s[ValidUpTo(s)..] + b)
  {
    var p, t := s[..ValidUpTo(s)], s[ValidUpTo(s)..];
    ValidPrefixIsValid(s);
    ValidUpToConcat(p, t + b);
    assert s + b == p + (t + b);
  }

  lemma {:induction false} BrokenIsStuck(s: seq<byte>, b: seq<byte>)
    requires Broken(s)
    ensures ValidUpTo(s + b) == ValidUpTo(s)
  {
    GoesOnAfterPrefix(s, b);
    PrefixEndsHere(s);
    NoCharFollows(s[ValidUpTo(s)..], b);
  }

  lemma {:induction false} UnbrokenGoesOn(s: seq<byte>) returns (b: seq<byte>)
    requires !Broken(s)
    ensures ValidUpTo(s + b) > ValidUpTo(s)
  {
    var t := s[ValidUpTo(s)..];
    if t == [] {
      b := [65];
      assert CharLength(t + b) == 1;
    } else {
      b := Completion(t);
      CompletionCompletes(t);
    }
    GoesOnAfterPrefix(s, b);
  }

  /** Text that is not broken can be made valid. */
  lemma {:induction false} UnbrokenCompletes(s: seq<byte>) returns (b: seq<byte>)
    requires !Broken(s)
    ensures Valid(s + b)
  {
    var t := s[ValidUpTo(s)..];
    GoesOnAfterPrefix(s, []);
    if t == [] {
      b := [];
      assert s + b == s;
    } else {
      b := Completion(t);
      PrefixEndsHere(s);
      CompletionCompletes(t);
      GoesOnAfterPrefix(s, b);
      assert (t + b)[|t + b|..] == [];
    }
  }

  /** No more bytes ever lengthen the valid prefix exactly when the text is broken after it. */
  lemma {:induction false} StuckExactly(s: seq<byte>)
    ensures (forall b :: ValidUpTo(s + b) == ValidUpTo(s)) <==> Broken(s)
  {
    if Broken(s) {
      forall b ensures ValidUpTo(s + b) == ValidUpTo(s) {
        BrokenIsStuck(s, b);
      }
    } else {
      var b := UnbrokenGoesOn(s);
      assert ValidUpTo(s + b) != ValidUpTo(s);
    }
  }

  // ----- What lossy decoding replaces -------------------------------------------------------------

  /** Some more bytes make a character of it, or it begins with one that goes no less far. */
  ghost predicate Begins(b: seq<byte>) { exists t :: CharLength(b + t) >= |b| }

  lemma {:induction false} BeginsExactly(b: seq<byte>)
    requires b != []
    ensures Begins(b) <==> Agreeing(b) == |b|
  {
    if Agreeing(b) == |b| {
      BeginsByCompletion(b);
    }
  }

  lemma {:induction false} BeginsByCompletion(b: seq<byte>)
    requires b != [] && Agreeing(b) == |b|
    ensures Begins(b)
  {
    CompletionCompletes(b);
    assert b + [] == b;
    if CharLength(b) == 0 {
      assert CharLength(b + Completion(b)) >= |b|;
    } else {
      assert CharLength(b + []) >= |b|;
    }
  }

  /** The beginning of a character that what follows does not go on with becomes one replacement, however long. */
  lemma {:induction false} BeginningIsReplacedOnce(b: seq<byte>, rest: seq<byte>)
    requires b != [] && Begins(b) && CharLength(b) == 0 && (rest == [] || !Begins(b + [rest[0]]))
    ensures Lossy(b + rest) == REPLACEMENT + Lossy(rest)
  {
    BeginsExactly(b);
    if rest == [] {
      assert b + rest == b;
    } else {
      BeginsExactly(b + [rest[0]]);
    }
    assert Agreeing(b + rest) == |b| && CharLength(b + rest) == 0;
    assert (b + rest)[|b|..] == rest;
  }

  /** A byte that begins no character is replaced alone. */
  lemma {:induction false} StrayByteIsReplaced(b: byte, rest: seq<byte>)
    requires !Begins([b])
    ensures Lossy([b] + rest) == REPLACEMENT + Lossy(rest)
  {
    BeginsExactly([b]);
    assert Agreeing([b] + rest) == 0 && ([b] + rest)[1..] == rest;
  }

  // ----- What valid text is -----------------------------------------------------------------------

  /** A Unicode scalar value: a code point that is not a surrogate. */
  predicate IsScalar(c: int) { 0 <= c < 0xD800 || 0xE000 <= c < 0x11_0000 }

  /** A continuation byte. */
  function Tail(c: int): (b: byte)
    requires 0 <= c
    ensures IsContinuation(b)
  {
    0x80 + c % 64
  }

  /** The table of section 3 of RFC 3629. */
  function EncodeScalar(c: int): (s: seq<byte>)
    requires IsScalar(c)
  {
    if c < 0x80 then [c]
    else if c < 0x800 then [0xC0 + c / 64, Tail(c)]
    else if c < 0x1_0000 then [0xE0 + c / 64 / 64, Tail(c / 64), Tail(c)]
    else [0xF0 + c / 64 / 64 / 64, Tail(c / 64 / 64), Tail(c / 64), Tail(c)]
  }

  /** The value of the character at the front of `s`. */
  function DecodeScalar(s: seq<byte>): (c: int)
    requires CharLength(s) > 0
  {
    match CharLength(s)
    case 1 => s[0]
    case 2 => WithTail(s[0] as int - 0xC0, s[1])
    case 3 => WithTail(WithTail(s[0] as int - 0xE0, s[1]), s[2])
    case _ => WithTail(WithTail(WithTail(s[0] as int - 0xF0, s[1]), s[2]), s[3])
  }

  /** Six more bits. */
  function WithTail(high: int, tail: byte): (c: int) { high * 64 + (tail as int - 0x80) }

  function EncodeAll(scalars: seq<int>): (s: seq<byte>)
    requires forall i :: 0 <= i < |scalars| ==> IsScalar(scalars[i])
  {
    if scalars == [] then [] else EncodeScalar(scalars[0]) + EncodeAll(scalars[1..])
  }

  lemma {:induction false} EncodedIsChar(c: int)
    requires IsScalar(c)
    ensures CharLength(EncodeScalar(c)) == |EncodeScalar(c)| > 0
  {
  }

  lemma {:induction false} TailSplits(high: int, tail: byte)
    requires high >= 0 && IsContinuation(tail)
    ensures WithTail(high, tail) / 64 == high && Tail(WithTail(high, tail)) == tail
  {
  }

  lemma {:induction false} TwoBytes(a: byte, b: byte)
    requires Announced(a) == 2 && FitsLead(a, b)
    ensures var c := WithTail(a as int - 0xC0, b);
            IsScalar(c) && EncodeScalar(c) == [a, b]
  {
    TailSplits(a as int - 0xC0, b);
  }

  lemma {:induction false} ThreeBytes(a: byte, b: byte, c: byte)
    requires Announced(a) == 3 && FitsLead(a, b) && IsContinuation(c)
    ensures var v := WithTail(WithTail(a as int - 0xE0, b), c);
            IsScalar(v) && EncodeScalar(v) == [a, b, c]
  {
    TailSplits(a as int - 0xE0, b);
    TailSplits(WithTail(a as int - 0xE0, b), c);
  }

  lemma {:induction false} FourBytes(a: byte, b: byte, c: byte, d: byte)
    requires Announced(a) == 4 && FitsLead(a, b) && IsContinuation(c) && IsContinuation(d)
    ensures var v := WithTail(WithTail(WithTail(a as int - 0xF0, b), c), d);
            IsScalar(v) && EncodeScalar(v) == [a, b, c, d]
  {
    TailSplits(a as int - 0xF0, b);
    TailSplits(WithTail(a as int - 0xF0, b), c);
    TailSplits(WithTail(WithTail(a as int - 0xF0, b), c), d);
  }

  lemma {:induction false} CharIsEncoded(s: seq<byte>)
    requires CharLength(s) > 0
    ensures IsScalar(DecodeScalar(s)) && s[..CharLength(s)] == EncodeScalar(DecodeScalar(s))
  {
    match CharLength(s) {
      case 1 => assert s[..1] == [s[0]];
      case 2 => TwoBytes(s[0], s[1]); assert s[..2] == [s[0], s[1]];
      case 3 => ThreeBytes(s[0], s[1], s[2]); assert s[..3] == [s[0], s[1], s[2]];
      case _ => FourBytes(s[0], s[1], s[2], s[3]); assert s[..4] == [s[0], s[1], s[2], s[3]];
    }
  }

  lemma {:induction false} EncodedIsValid(scalars: seq<int>)
    requires forall i :: 0 <= i < |scalars| ==> IsScalar(scalars[i])
    ensures Valid(EncodeAll(scalars))
  {
    if scalars == [] {
    } else {
      var c := EncodeScalar(scalars[0]);
      EncodedIsChar(scalars[0]);
      CharAlone(c);
      assert c[..|c|] == c;
      EncodedIsValid(scalars[1..]);
      ValidConcat(c, EncodeAll(scalars[1..]));
    }
  }

  /** The scalar values of the valid prefix. */
  function Scalars(s: seq<byte>): (scalars: seq<int>)
    ensures forall i :: 0 <= i < |scalars| ==> IsScalar(scalars[i])
  {
    var n := CharLength(s);
    if n == 0 then []
    else
      CharIsEncoded(s);
      [DecodeScalar(s)] + Scalars(s[n..])
  }

  lemma {:induction false} ScalarsReadBack(s: seq<byte>)
    ensures EncodeAll(Scalars(s)) == s[..ValidUpTo(s)]
    decreases |s|
  {
    var n := CharLength(s);
    if n == 0 {
    } else {
      CharIsEncoded(s);
      ScalarsReadBack(s[n..]);
      assert Scalars(s)[1..] == Scalars(s[n..]);
      SplitTwice(s, n, ValidUpTo(s));
    }
  }

  /** Text is valid exactly when it encodes some scalar values: no surrogates and no second spelling. */
  lemma {:induction false} ValidIsEncodedExactly(s: seq<byte>)
    ensures Valid(s) <==>
            exists scalars: seq<int> :: (forall i :: 0 <= i < |scalars| ==> IsScalar(scalars[i]))
              && EncodeAll(scalars) == s
  {
    if Valid(s) {
      ScalarsReadBack(s);
      assert s[..|s|] == s;
    } else {
      forall scalars: seq<int> | forall i :: 0 <= i < |scalars| ==> IsScalar(scalars[i])
        ensures EncodeAll(scalars) != s
      {
        EncodedIsValid(scalars);
      }
    }
  }
}
