/** Block headers, compact difficulty bits and work (packages/codec/src/header.ts:1-146). */
module Headers {
  import opened Bytes
  import opened Merkle
  import Arith

  const POW_LIMIT_BITS: nat := 0x1e00ffff
  const INITIAL_BITS: nat := 0x1e00ffff
  const MAX_U128: nat := 0xFFFF_FFFF_FFFF_FFFF_FFFF_FFFF_FFFF_FFFF
  const HEADER_BYTES: nat := 84
  const TWO_256: nat := 0x1_00000000_00000000_00000000_00000000_00000000_00000000_00000000_00000000

  datatype BlockHeader = BlockHeader(version: nat, prev: seq<byte>, merkle: seq<byte>, time: nat, bits: nat, nonce: nat)

  predicate HeaderInRange(h: BlockHeader) {
    h.version <= U32_MAX && |h.prev| == 32 && |h.merkle| == 32 && h.time <= U64_MAX && h.bits <= U32_MAX && h.nonce <= U32_MAX
  }

  /** The fixed 84-byte little-endian record. */
  function EncodeHeader(h: BlockHeader): seq<byte> {
    LE(h.version, 4) + (h.prev + (h.merkle + (LE(h.time, 8) + (LE(h.bits, 4) + LE(h.nonce, 4)))))
  }

  function DecodeHeader(rec: seq<byte>): BlockHeader
    requires |rec| == HEADER_BYTES
  {
    BlockHeader(FromLE(rec[0..4]), rec[4..36], rec[36..68], FromLE(rec[68..76]), FromLE(rec[76..80]), FromLE(rec[80..84]))
  }

  lemma DecodeEncodeHeader(h: BlockHeader)
    requires HeaderInRange(h)
    ensures |EncodeHeader(h)| == HEADER_BYTES && DecodeHeader(EncodeHeader(h)) == h
  {
    hide LE, FromLE, Pow256;
    Widths();
    FromToLE(h.version, 4);
    FromToLE(h.time, 8);
    FromToLE(h.bits, 4);
    FromToLE(h.nonce, 4);
    var r := EncodeHeader(h);
    assert r[0..4] == LE(h.version, 4) && r[4..36] == h.prev && r[36..68] == h.merkle && r[68..76] == LE(h.time, 8);
    assert r[76..80] == LE(h.bits, 4) && r[80..84] == LE(h.nonce, 4);
  }

  lemma EncodeDecodeHeader(rec: seq<byte>)
    requires |rec| == HEADER_BYTES
    ensures HeaderInRange(DecodeHeader(rec)) && EncodeHeader(DecodeHeader(rec)) == rec
  {
    hide LE, FromLE, Pow256;
    Widths();
    ToFromLE(rec[0..4]);
    ToFromLE(rec[68..76]);
    ToFromLE(rec[76..80]);
    ToFromLE(rec[80..84]);
  }

  /** The four bytes from `i` on as a number, lowest first. */
  function Word(s: seq<byte>, i: nat): nat
    requires i + 4 <= |s|
  {
    var a: int, b: int, c: int, d: int := s[i], s[i + 1], s[i + 2], s[i + 3];
    a + 0x100 * b + 0x1_0000 * c + 0x100_0000 * d
  }

  /** Where each field lies in the record. */
  lemma HeaderLayout(h: BlockHeader)
    requires HeaderInRange(h)
    ensures var r := EncodeHeader(h);
      && |r| == 84 && r[4..36] == h.prev && r[36..68] == h.merkle && h.version == Word(r, 0)
      && h.time == Word(r, 68) + 0x1_0000_0000 * Word(r, 72) && h.bits == Word(r, 76) && h.nonce == Word(r, 80)
  {
    hide LE, FromLE, Pow256, EncodeHeader, Word;
    var r := EncodeHeader(h);
    DecodeEncodeHeader(h);
    WordAt(r, 0, r[0..4]);
    WordAt(r, 76, r[76..80]);
    WordAt(r, 80, r[80..84]);
    LongAt(r, 68);
  }

  lemma WordAt(r: seq<byte>, i: nat, s: seq<byte>)
    requires i + 4 <= |r| && s == r[i..i + 4]
    ensures FromLE(s) == Word(r, i)
  {
    assert s[1..][1..] == s[2..] && s[2..][1..] == s[3..] && s[3..][1..] == [];
    assert FromLE(s[3..]) == s[3];
    assert FromLE(s[2..]) == s[2] + 256 * FromLE(s[3..]);
    assert FromLE(s[1..]) == s[1] + 256 * FromLE(s[2..]);
  }

  lemma LongAt(r: seq<byte>, i: nat)
    requires i + 8 <= |r|
    ensures FromLE(r[i..i + 8]) == Word(r, i) + 0x1_0000_0000 * Word(r, i + 4)
  {
    var s := r[i..i + 8];
    WordAt(r, i + 4, s[4..]);
    assert s[1..][1..] == s[2..] && s[2..][1..] == s[3..] && s[3..][1..] == s[4..];
    assert FromLE(s[3..]) == s[3] + 256 * FromLE(s[4..]);
    assert FromLE(s[2..]) == s[2] + 256 * FromLE(s[3..]);
    assert FromLE(s[1..]) == s[1] + 256 * FromLE(s[2..]);
  }

  function HeaderHash(h: BlockHeader, H: Hasher): Hash32 { H(EncodeHeader(h)) }

  // ----- big-endian values -----

  function FromBE(s: seq<byte>): nat { if s == [] then 0 else FromBE(s[..|s| - 1]) * 256 + s[|s| - 1] }

  /** The k low bytes of x, highest first. */
  function BE(x: nat, k: nat): (r: seq<byte>)
    ensures |r| == k
    decreases k
  {
    if k == 0 then [] else BE(x / 256, k - 1) + [x % 256]
  }

  lemma {:induction false} FromToBE(x: nat, k: nat)
    requires x < Pow256(k)
    ensures FromBE(BE(x, k)) == x
  {
    if k > 0 {
      FromToBE(x / 256, k - 1);
      assert BE(x, k)[..k - 1] == BE(x / 256, k - 1);
    }
  }

  // ----- compact bits -----

  /** The target that `bits` encodes; 0 for every encoding that is refused. */
  function TargetOf(bits: nat): nat {
    var exp, mant := (bits / 0x100_0000) % 0x100, bits % 0x100_0000;
    if exp == 0 || mant == 0 || mant >= 0x80_0000 || exp > 32 then 0
    else if exp <= 3 then mant / Pow256(3 - exp)
    else mant * Pow256(exp - 3)
  }

  /** The value of POW_LIMIT_BITS, as `PowLimit` shows. */
  const POW_LIMIT_TARGET: nat := 0xffff_00000000_00000000_00000000_00000000_00000000_00000000_000000

  /** The number of bytes of x without leading zeros. */
  function ByteLen(x: nat): nat { if x == 0 then 0 else 1 + ByteLen(x / 256) }

  /** Exponent and mantissa packed; a mantissa that would read as negative moves one byte up. */
  function Packed(exp: nat, mant: nat): nat {
    if mant >= 0x80_0000 then (exp + 1) * 0x100_0000 + mant / 256 else exp * 0x100_0000 + mant
  }

  function Shl(x: nat, p: nat): nat { x * p }

  function Shr(x: nat, p: nat): nat
    requires p >= 1
  {
    x / p
  }

  /** The three leading bytes of a value, as if it had at least three. */
  function Leading(x: nat): nat {
    if ByteLen(x) <= 3 then Shl(x, Pow256(3 - ByteLen(x))) else Shr(x, Pow256(ByteLen(x) - 3))
  }

  /** The canonical compact form of a target. */
  function BitsOf(x: nat): nat { if x == 0 then 0 else Packed(ByteLen(x), Leading(x) % 0x100_0000) }

  lemma {:induction false} ByteLenBounds(x: nat)
    requires x > 0
    ensures ByteLen(x) >= 1 && Pow256(ByteLen(x) - 1) <= x < Pow256(ByteLen(x))
  {
    if x >= 256 { ByteLenBounds(x / 256); }
  }

  lemma {:induction false} Pow256Adds(a: nat, b: nat)
    ensures Pow256(a + b) == Pow256(a) * Pow256(b)
  {
    if a > 0 { Pow256Adds(a - 1, b); }
  }

  lemma Quotient(x: nat, p: nat, lo: nat, hi: nat)
    requires p >= 1 && lo * p <= x < hi * p
    ensures lo <= x / p < hi && (x / p) * p <= x < (x / p) * p + p
  {
    assert x == (x / p) * p + x % p;
    Arith.DivBelow(x, p, lo);
    Arith.DivBelow(x, p, hi);
  }

  /** The three leading bytes of a target of more than three. */
  lemma LeadingBytes(x: nat)
    requires ByteLen(x) > 3
    ensures var p := Pow256(ByteLen(x) - 3); var m := x / p;
      0x1_0000 <= m < 0x100_0000 && m * p <= x < m * p + p
  {
    var n := ByteLen(x);
    ByteLenBounds(x);
    Pow256Adds(2, n - 3);
    Pow256Adds(3, n - 3);
    assert Pow256(2) == 0x1_0000 && Pow256(3) == 0x100_0000;
    Quotient(x, Pow256(n - 3), 0x1_0000, 0x100_0000);
  }

  /** Encoding a target loses less than one part in 2^15, and never rounds it up or to nothing. */
  lemma CompactLoss(x: nat)
    requires 0 < x && 2 * x < Pow256(32)
    ensures var d := TargetOf(BitsOf(x)); 0 < d <= x && (x - d) * 0x8000 < x
  {
    var n := ByteLen(x);
    ByteLenBounds(x);
    ShortEnough(x);
    if n <= 3 { SmallTarget(x); } else { LargeTarget(x); }
  }

  lemma {:induction false} Pow256Grows(a: nat, b: nat)
    requires a <= b
    ensures Pow256(a) <= Pow256(b)
  {
    if a < b { Pow256Grows(a, b - 1); }
  }

  lemma ShortEnough(x: nat)
    requires 0 < x && 2 * x < Pow256(32)
    ensures ByteLen(x) <= 32
  {
    ByteLenBounds(x);
    if ByteLen(x) > 32 { Pow256Grows(32, ByteLen(x) - 1); }
  }

  lemma SmallParts(exp: nat, mant: nat)
    requires 0 < exp <= 3 && 0 < mant < 0x80_0000
    ensures TargetOf(exp * 0x100_0000 + mant) == mant / Pow256(3 - exp)
  {
    var bits := exp * 0x100_0000 + mant;
    assert bits / 0x100_0000 == exp && bits % 0x100_0000 == mant;
  }

  lemma SmallBits(x: nat, n: nat)
    requires 1 <= n <= 3 && Pow256(n - 1) <= x < Pow256(n)
    ensures ByteLen(x) == n
    ensures n == 1 ==> BitsOf(x) == if x >= 0x80 then 0x200_0000 + x * 256 else 0x100_0000 + x * 0x1_0000
    ensures n == 2 ==> BitsOf(x) == if x >= 0x8000 then 0x300_0000 + x else 0x200_0000 + x * 256
    ensures n == 3 ==> BitsOf(x) == if x >= 0x80_0000 then 0x400_0000 + x / 256 else 0x300_0000 + x
  {
    assert Pow256(0) == 1 && Pow256(1) == 256 && Pow256(2) == 0x1_0000 && Pow256(3) == 0x100_0000;
    if n == 1 {
      assert ByteLen(x / 256) == 0;
      assert x * Pow256(2) == x * 0x1_0000;
    } else if n == 2 {
      assert ByteLen(x / 256 / 256) == 0;
      assert ByteLen(x / 256) == 1;
      assert x * Pow256(1) == x * 256;
    } else {
      assert ByteLen(x / 256 / 256 / 256) == 0;
      assert ByteLen(x / 256 / 256) == 1;
      assert ByteLen(x / 256) == 2;
      assert x * Pow256(0) == x;
    }
  }

  lemma SmallTarget(x: nat)
    requires 0 < x && ByteLen(x) <= 3
    ensures var d := TargetOf(BitsOf(x)); 0 < d <= x && (x - d) * 0x8000 < x
  {
    hide TargetOf, BitsOf, ByteLen;
    ByteLenBounds(x);
    SmallBits(x, ByteLen(x));
    assert Pow256(0) == 1 && Pow256(1) == 256 && Pow256(2) == 0x1_0000 && Pow256(3) == 0x100_0000;
    hide Pow256;
    match ByteLen(x) {
      case 1 => OneByteTarget(x);
      case 2 => TwoByteTarget(x);
      case _ => ThreeByteTarget(x);
    }
  }

  lemma OneByteTarget(x: nat)
    requires 0 < x < 256
    ensures TargetOf(if x >= 0x80 then 0x200_0000 + x * 256 else 0x100_0000 + x * 0x1_0000) == x
  {
    hide TargetOf;
    assert Pow256(0) == 1 && Pow256(1) == 256 && Pow256(2) == 0x1_0000;
    if x >= 0x80 { SmallParts(2, x * 256); } else { SmallParts(1, x * 0x1_0000); }
  }

  lemma TwoByteTarget(x: nat)
    requires 256 <= x < 0x1_0000
    ensures TargetOf(if x >= 0x8000 then 0x300_0000 + x else 0x200_0000 + x * 256) == x
  {
    hide TargetOf;
    assert Pow256(0) == 1 && Pow256(1) == 256;
    if x >= 0x8000 { SmallParts(3, x); } else { SmallParts(2, x * 256); }
  }

  /** The only short target that loses anything drops its last byte. */
  lemma ThreeByteTarget(x: nat)
    requires 0x1_0000 <= x < 0x100_0000
    ensures TargetOf(if x >= 0x80_0000 then 0x400_0000 + x / 256 else 0x300_0000 + x) == if x >= 0x80_0000 then (x / 256) * 256 else x
  {
    hide TargetOf;
    assert Pow256(0) == 1 && Pow256(1) == 256;
    if x >= 0x80_0000 { BitsParts(4, x / 256); } else { SmallParts(3, x); }
  }

  lemma SmallLeading(x: nat)
    requires ByteLen(x) <= 3
    ensures Leading(x) == Shl(x, Pow256(3 - ByteLen(x)))
  {
  }

  lemma LargeLeading(x: nat)
    requires ByteLen(x) > 3
    ensures Leading(x) == Shr(x, Pow256(ByteLen(x) - 3)) < 0x100_0000
  {
    hide Pow256, ByteLen;
    LeadingBytes(x);
  }

  lemma LargeBits(x: nat)
    requires 0 < x && 3 < ByteLen(x)
    ensures BitsOf(x) == Packed(ByteLen(x), Leading(x))
  {
    hide Pow256, ByteLen, Packed, Leading;
    LargeLeading(x);
  }

  lemma Pow256Step(k: nat)
    ensures Pow256(k + 1) == 256 * Pow256(k)
  {
  }

  lemma LargeTarget(x: nat)
    requires 0 < x && 3 < ByteLen(x) <= 32 && 2 * x < Pow256(32)
    ensures var d := TargetOf(BitsOf(x)); 0 < d <= x && (x - d) * 0x8000 < x
  {
    hide Pow256, ByteLen, TargetOf, BitsOf, Leading;
    var n := ByteLen(x);
    var p := Pow256(n - 3);
    var m := x / p;
    LeadingBytes(x);
    LargeBits(x);
    LargeLeading(x);
    if m >= 0x80_0000 {
      TopBitShorter(x, m);
      Pow256Step(n - 3);
      BitsParts(n + 1, m / 256);
      Coarser(x, m, p);
      LossBound(x, m / 256, 256 * p);
    } else {
      BitsParts(n, m);
      LossBound(x, m, p);
    }
  }

  lemma Coarser(x: nat, m: nat, p: nat)
    requires m * p <= x < m * p + p
    ensures var q := m / 256; q * (256 * p) <= x < q * (256 * p) + 256 * p
  {
    var q := m / 256;
    assert q * (256 * p) == (256 * q) * p && q * (256 * p) + 256 * p == (256 * q + 256) * p && m * p + p == (m + 1) * p;
    MulLe(256 * q, m, p);
    MulLe(m + 1, 256 * q + 256, p);
  }

  lemma MulLe(a: nat, b: nat, p: nat)
    requires a <= b
    ensures a * p <= b * p
  {
  }

  /** A leading top bit leaves room for one more byte of exponent. */
  lemma TopBitShorter(x: nat, m: nat)
    requires 3 < ByteLen(x) <= 32 && m == x / Pow256(ByteLen(x) - 3) && m >= 0x80_0000 && m * Pow256(ByteLen(x) - 3) <= x
    requires 2 * x < Pow256(32)
    ensures ByteLen(x) <= 31
  {
    if ByteLen(x) == 32 {
      assert Pow256(3) == 0x100_0000;
      Pow256Adds(3, 29);
      MulLe(0x80_0000, m, Pow256(29));
    }
  }

  lemma BitsParts(exp: nat, mant: nat)
    requires 3 < exp <= 32 && 0 < mant < 0x80_0000
    ensures TargetOf(exp * 0x100_0000 + mant) == mant * Pow256(exp - 3)
  {
    var bits := exp * 0x100_0000 + mant;
    assert bits / 0x100_0000 == exp && bits % 0x100_0000 == mant;
  }

  lemma LossBound(x: nat, q: nat, p: nat)
    requires q >= 0x8000 && p >= 1 && q * p <= x < q * p + p
    ensures 0 < q * p && (x - q * p) * 0x8000 < x
  {
    MulLe(0x8000, q, p);
  }

  // ----- work -----

  /** The work of a target: floor(2^256 / (target + 1)) clamped to 128 bits, none beyond the limit. */
  function WorkOfTarget(target: nat): (w: nat)
    ensures w <= MAX_U128
  {
    if target == 0 || target > POW_LIMIT_TARGET then 0
    else if TWO_256 / (target + 1) > MAX_U128 then MAX_U128 else TWO_256 / (target + 1)
  }

  function WorkOf(bits: nat): nat { WorkOfTarget(TargetOf(bits)) }

  predicate PowOk(hash: Hash32, bits: nat) {
    0 < TargetOf(bits) <= POW_LIMIT_TARGET && FromBE(hash) <= TargetOf(bits)
  }

  lemma PowLimit()
    ensures TargetOf(POW_LIMIT_BITS) == POW_LIMIT_TARGET && Pow256(32) == TWO_256
  {
    Widths();
    assert Pow256(3) == 0x100_0000;
    Pow256Adds(8, 8);
    Pow256Adds(16, 16);
    Pow256Adds(16, 8);
    Pow256Adds(24, 3);
    BitsParts(30, 0xffff);
  }

  /** Easier targets never count for more work, and every header within the limit counts for some. */
  lemma WorkAntitone(a: nat, b: nat)
    requires 0 < a <= b <= POW_LIMIT_TARGET
    ensures 1 <= WorkOfTarget(b) <= WorkOfTarget(a)
  {
    Arith.DivAntitone(TWO_256, a + 1, b + 1);
    Arith.DivAntitone(TWO_256, b + 1, POW_LIMIT_TARGET + 1);
  }

  // ----- the loops -----

  /** Write a value big-endian, right-aligned, into 32 bytes. */
  method ToTargetBytes(value: nat) returns (out: array<byte>)
    ensures fresh(out) && out.Length == 32 && out[..] == BE(value, 32)
  {
    out := new byte[32](_ => 0);
    var x, i := value, 32;
    while i > 0 && x > 0
      invariant 0 <= i <= 32 && x >= 0
      invariant BE(value, 32) == BE(x, i) + out[i..]
      invariant forall k :: 0 <= k < i ==> out[k] == 0
    {
      i := i - 1;
      ghost var tail := out[i + 1..];
      out[i] := x % 256;
      assert out[i..] == [x % 256] + tail;
      assert BE(x, i + 1) + tail == BE(x / 256, i) + out[i..];
      x := x / 256;
    }
    if x == 0 { ZeroBE(i); }
    assert BE(x, i) == out[..i] && out[..] == out[..i] + out[i..];
  }

  lemma {:induction false} ZeroBE(k: nat)
    ensures BE(0, k) == Zeros(k)
  {
    if k > 0 { ZeroBE(k - 1); }
  }

  /** Decode compact bits to the 32 target bytes; all zero when refused. */
  method BitsToTarget(bits: nat) returns (out: array<byte>)
    requires bits <= U32_MAX
    ensures out.Length == 32 && FromBE(out[..]) == TargetOf(bits)
  {
    TargetFits(bits);
    out := ToTargetBytes(TargetOf(bits));
    FromToBE(TargetOf(bits), 32);
  }

  lemma TargetFits(bits: nat)
    ensures TargetOf(bits) < Pow256(32)
  {
    hide Pow256;
    var exp, mant := (bits / 0x100_0000) % 0x100, bits % 0x100_0000;
    Powers();
    if exp != 0 && mant != 0 && mant < 0x80_0000 && exp <= 32 {
      if exp <= 3 {
        assert mant / Pow256(3 - exp) <= mant;
        Pow256Grows(3, 32);
      } else {
        MulLt(mant, 0x100_0000, Pow256(exp - 3));
        Pow256Adds(3, exp - 3);
        Pow256Grows(exp, 32);
      }
    }
  }

  lemma Powers()
    ensures Pow256(0) == 1 && Pow256(1) == 256 && Pow256(2) == 0x1_0000 && Pow256(3) == 0x100_0000 && Pow256(32) >= 1
  {
  }

  lemma MulLt(a: nat, b: nat, p: nat)
    requires a < b && p >= 1
    ensures a * p < b * p
  {
  }

  method TargetToBigInt(target: seq<byte>) returns (v: nat)
    ensures v == FromBE(target)
  {
    v := 0;
    for k := 0 to |target|
      invariant v == FromBE(target[..k])
    {
      assert target[..k + 1][..k] == target[..k];
      v := v * 256 + target[k];
    }
    assert target[..|target|] == target;
  }

  /** Minimal big-endian bytes, pushed at the front. */
  method MinBE(value: nat) returns (b: seq<byte>)
    ensures |b| == ByteLen(value) && FromBE(b) == value
  {
    b := [];
    var x := value;
    while x > 0
      invariant x >= 0 && |b| + ByteLen(x) == ByteLen(value)
      invariant BE(value, ByteLen(value)) == BE(x, ByteLen(x)) + b
    {
      assert BE(x, ByteLen(x)) + b == BE(x / 256, ByteLen(x / 256)) + ([x % 256] + b);
      b := [x % 256] + b;
      x := x / 256;
    }
    assert BE(0, 0) + b == b;
    if value > 0 { ByteLenBounds(value); }
    FromToBE(value, ByteLen(value));
  }

  lemma {:induction false} FromBESplit(a: seq<byte>, b: seq<byte>)
    ensures FromBE(a + b) == FromBE(a) * Pow256(|b|) + FromBE(b) && FromBE(b) < Pow256(|b|)
  {
    if b == [] {
      assert a + b == a;
    } else {
      var b', z := b[..|b| - 1], b[|b| - 1];
      FromBESplit(a, b');
      assert (a + b)[..|a + b| - 1] == a + b';
      ShiftSum(FromBE(a), Pow256(|b'|), FromBE(b'), z);
    }
  }

  lemma ShiftSum(f: nat, p: nat, r: nat, z: nat)
    ensures (f * p + r) * 256 + z == f * (256 * p) + (r * 256 + z)
  {
    assert (f * p) * 256 == f * (256 * p);
  }

  function ThreeBytes(a: int, b: int, c: int): int { a * 0x1_0000 + b * 0x100 + c }

  lemma FromThree(b: seq<byte>)
    requires |b| == 3
    ensures FromBE(b) == ThreeBytes(b[0], b[1], b[2])
  {
    assert b[..2][..1][..0] == [] && b[..2][..1] == [b[0]] && b[..2] == [b[0], b[1]];
    assert FromBE(b[..2][..1]) == b[0];
    assert FromBE(b[..2]) == FromBE(b[..2][..1]) * 256 + b[1];
  }

  lemma LeadingThree(b: seq<byte>)
    requires |b| > 3
    ensures Shr(FromBE(b), Pow256(|b| - 3)) == ThreeBytes(b[0], b[1], b[2])
  {
    hide FromBE, Pow256, ThreeBytes;
    var top, rest := b[..3], b[3..];
    FromBESplit(top, rest);
    assert b == top + rest;
    FromThree(top);
    Arith.DivUnique(FromBE(b), Pow256(|rest|), FromBE(top), FromBE(rest));
  }

  /** Encode a target back to its canonical compact bits. */
  method TargetToBits(target: seq<byte>) returns (bits: nat)
    ensures bits == BitsOf(FromBE(target))
  {
    hide FromBE, Pow256, ByteLen, ThreeBytes, Leading, Shl, Shr;
    var x := TargetToBigInt(target);
    if x == 0 { return 0; }
    var bytes := MinBE(x);
    var exp := |bytes|;
    var mant: nat;
    if exp <= 3 {
      mant := Shl(x, Pow256(3 - exp)) % 0x100_0000;
      SmallLeading(x);
    } else {
      LeadingThree(bytes);
      LargeLeading(x);
      mant := ThreeBytes(bytes[0], bytes[1], bytes[2]);
    }
    if mant >= 0x80_0000 {
      mant := mant / 256;
      exp := exp + 1;
    }
    bits := exp * 0x100_0000 + mant;
  }
}
