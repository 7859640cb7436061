/** Bytes, little-endian integers and UTF-8 (packages/codec/src/bytes.ts). A hex string of the source is taken as the
    bytes it spells. */
module Bytes {
  type byte = x: int | 0 <= x < 256
  type Hash32 = s: seq<byte> | |s| == 32 witness Zeros(32)

  function Zeros(n: nat): (r: seq<byte>)
    ensures |r| == n && forall i :: 0 <= i < n ==> r[i] == 0
  {
    if n == 0 then [] else Zeros(n - 1) + [0]
  }

  function Pow256(k: nat): (r: nat)
    ensures r >= 1
  {
    if k == 0 then 1 else 256 * Pow256(k - 1)
  }

  /** The k low bytes of n, lowest first. */
  function LE(n: nat, k: nat): (r: seq<byte>)
    ensures |r| == k
    decreases k
  {
    if k == 0 then [] else [n % 256] + LE(n / 256, k - 1)
  }

  function FromLE(s: seq<byte>): nat { if s == [] then 0 else s[0] + 256 * FromLE(s[1..]) }

  const U32_MAX: nat := 0xFFFF_FFFF
  const U64_MAX: nat := 0xFFFF_FFFF_FFFF_FFFF

  lemma Widths()
    ensures Pow256(4) == U32_MAX + 1 && Pow256(8) == U64_MAX + 1
  {
    assert Pow256(2) == 0x1_0000;
    assert Pow256(4) == 0x1_0000_0000;
    assert Pow256(6) == 0x1_0000_0000_0000;
  }

  lemma {:induction false} FromToLE(n: nat, k: nat)
    requires n < Pow256(k)
    ensures FromLE(LE(n, k)) == n
  {
    if k > 0 {
      FromToLE(n / 256, k - 1);
      assert LE(n, k)[1..] == LE(n / 256, k - 1);
    }
  }

  lemma {:induction false} ToFromLE(s: seq<byte>)
    ensures FromLE(s) < Pow256(|s|) && LE(FromLE(s), |s|) == s
  {
    if s != [] {
      ToFromLE(s[1..]);
      assert s == [s[0]] + s[1..];
    }
  }

  predicate Tail(s: seq<byte>, k: nat) { k < |s| && 0x80 <= s[k] <= 0xBF }

  /** How many bytes the well-formed UTF-8 sequence at the head of `s` takes, or 0 when it is ill-formed: the byte
      table of section 4 of RFC 3629. */
  function Utf8Head(s: seq<byte>): (r: nat)
    requires s != []
    ensures r <= |s|
  {
    if s[0] <= 0x7F then 1
    else if 0xC2 <= s[0] <= 0xDF && Tail(s, 1) then 2
    else if s[0] == 0xE0 && |s| > 1 && 0xA0 <= s[1] <= 0xBF && Tail(s, 2) then 3
    else if (0xE1 <= s[0] <= 0xEC || 0xEE <= s[0] <= 0xEF) && Tail(s, 1) && Tail(s, 2) then 3
    else if s[0] == 0xED && |s| > 1 && 0x80 <= s[1] <= 0x9F && Tail(s, 2) then 3
    else if s[0] == 0xF0 && |s| > 1 && 0x90 <= s[1] <= 0xBF && Tail(s, 2) && Tail(s, 3) then 4
    else if 0xF1 <= s[0] <= 0xF3 && Tail(s, 1) && Tail(s, 2) && Tail(s, 3) then 4
    else if s[0] == 0xF4 && |s| > 1 && 0x80 <= s[1] <= 0x8F && Tail(s, 2) && Tail(s, 3) then 4
    else 0
  }

  predicate ValidUtf8(s: seq<byte>)
    decreases |s|
  {
    s == [] || (Utf8Head(s) > 0 && ValidUtf8(s[Utf8Head(s)..]))
  }
}
