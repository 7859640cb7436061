/** The byte table of UTF-8 against its arithmetic (section 3 of RFC 3629): the byte strings the codec accepts are exactly the
    encodings of sequences of Unicode scalar values (packages/codec/src/tx.ts). */
module Utf8 {
  import opened Bytes

  /** A code point that is no surrogate. */
  predicate Scalar(c: nat) { c < 0xD800 || 0xE000 <= c < 0x11_0000 }

  /** Six bits in a continuation byte. */
  function Six(x: nat): byte { 0x80 + x % 64 }

  function EncodeScalar(c: nat): (r: seq<byte>)
    requires Scalar(c)
    ensures r != []
  {
    if c < 0x80 then [c]
    else if c < 0x800 then [0xC0 + c / 64, Six(c)]
    else if c < 0x1_0000 then [0xE0 + c / 4_096, Six(c / 64), Six(c)]
    else [0xF0 + c / 262_144, Six(c / 4_096), Six(c / 64), Six(c)]
  }

  ghost predicate Text(cs: seq<nat>) { forall i :: 0 <= i < |cs| ==> Scalar(cs[i]) }

  ghost function EncodeText(cs: seq<nat>): seq<byte>
    requires Text(cs)
  {
    if cs == [] then [] else EncodeScalar(cs[0]) + EncodeText(cs[1..])
  }

  lemma ScalarHeads(c: nat, rest: seq<byte>)
    requires Scalar(c)
    ensures Utf8Head(EncodeScalar(c) + rest) == |EncodeScalar(c)|
  {
  }

  /** What a continuation byte carries, and what a head byte does above `base`. */
  function Over(b: byte, base: nat): int { b as int - base }

  /** The scalar whose encoding the table finds at the head of `s`. */
  function HeadScalar(s: seq<byte>): (c: nat)
    requires s != [] && Utf8Head(s) > 0
    ensures Scalar(c)
  {
    var n := Utf8Head(s);
    if n == 1 then s[0]
    else if n == 2 then Over(s[0], 0xC0) * 64 + Over(s[1], 0x80)
    else if n == 3 then Over(s[0], 0xE0) * 4_096 + Over(s[1], 0x80) * 64 + Over(s[2], 0x80)
    else Over(s[0], 0xF0) * 262_144 + Over(s[1], 0x80) * 4_096 + Over(s[2], 0x80) * 64 + Over(s[3], 0x80)
  }

  lemma Digits(w: nat, x: nat, y: nat, z: nat)
    requires x < 64 && y < 64 && z < 64
    ensures var c := w * 262_144 + x * 4_096 + y * 64 + z;
      c % 64 == z && c / 64 % 64 == y && c / 4_096 % 64 == x && c / 262_144 == w
      && (w == 0 ==> c / 4_096 == x) && (w == 0 && x == 0 ==> c / 64 == y)
  {
    var c := w * 262_144 + x * 4_096 + y * 64 + z;
    assert c / 64 == w * 4_096 + x * 64 + y;
    assert c / 4_096 == w * 64 + x;
  }

  lemma HeadIsScalar(s: seq<byte>)
    requires s != [] && Utf8Head(s) > 0
    ensures EncodeScalar(HeadScalar(s)) == s[..Utf8Head(s)]
  {
    var n := Utf8Head(s);
    if n == 2 {
      TwoBytes(s);
    } else if n == 3 {
      ThreeBytes(s);
    } else if n == 4 {
      FourBytes(s);
    }
  }

  lemma TwoBytes(s: seq<byte>)
    requires s != [] && Utf8Head(s) == 2
    ensures EncodeScalar(HeadScalar(s)) == s[..2]
  {
    Digits(0, 0, Over(s[0], 0xC0), Over(s[1], 0x80));
  }

  lemma ThreeBytes(s: seq<byte>)
    requires s != [] && Utf8Head(s) == 3
    ensures EncodeScalar(HeadScalar(s)) == s[..3]
  {
    Digits(0, Over(s[0], 0xE0), Over(s[1], 0x80), Over(s[2], 0x80));
  }

  lemma FourBytes(s: seq<byte>)
    requires s != [] && Utf8Head(s) == 4
    ensures EncodeScalar(HeadScalar(s)) == s[..4]
  {
    Digits(Over(s[0], 0xF0), Over(s[1], 0x80), Over(s[2], 0x80), Over(s[3], 0x80));
  }

  lemma {:induction false} TextIsValid(cs: seq<nat>)
    requires Text(cs)
    ensures ValidUtf8(EncodeText(cs))
  {
    if cs != [] {
      var h, rest := EncodeScalar(cs[0]), EncodeText(cs[1..]);
      TextIsValid(cs[1..]);
      ScalarHeads(cs[0], rest);
      assert (h + rest)[|h|..] == rest;
    }
  }

  lemma TextGrows(c: nat, rest: seq<nat>)
    requires Scalar(c) && Text(rest)
    ensures Text([c] + rest) && EncodeText([c] + rest) == EncodeScalar(c) + EncodeText(rest)
  {
    hide EncodeScalar;
    assert ([c] + rest)[1..] == rest;
  }

  lemma {:induction false} ValidIsText(s: seq<byte>) returns (cs: seq<nat>)
    requires ValidUtf8(s)
    ensures Text(cs) && EncodeText(cs) == s
    decreases |s|
  {
    if s == [] {
      cs := [];
    } else {
      hide HeadScalar, EncodeScalar, Utf8Head, EncodeText, Text;
      var n := Utf8Head(s);
      var rest := ValidIsText(s[n..]);
      cs := [HeadScalar(s)] + rest;
      HeadIsScalar(s);
      TextGrows(HeadScalar(s), rest);
      assert s == s[..n] + s[n..];
    }
  }

  /** A byte string is accepted as text if and only if it encodes some sequence of Unicode scalar values. */
  lemma Utf8Exactly(s: seq<byte>)
    ensures ValidUtf8(s) <==> exists cs :: Text(cs) && EncodeText(cs) == s
  {
    if ValidUtf8(s) { var cs := ValidIsText(s); }
    if cs :| Text(cs) && EncodeText(cs) == s { TextIsValid(cs); }
  }
}
