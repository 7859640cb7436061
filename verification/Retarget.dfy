/** What the next difficulty depends on, in plain sums (packages/light/src/lwma.ts:71-123): every target of the window
    alike, and every gap between its times by its place. */
module Retarget {
  import opened Bytes
  import opened Headers
  import opened Lwma

  function Targets(w: seq<BlockHeader>): (r: seq<nat>)
    ensures |r| == |w| && forall k :: 0 <= k < |r| ==> r[k] == TargetOf(w[k].bits)
  {
    seq(|w|, k requires 0 <= k < |w| => TargetOf(w[k].bits))
  }

  function Sum(s: seq<nat>): nat { if s == [] then 0 else s[0] + Sum(s[1..]) }

  /** The gap before header `k` as it counts: at least a second, at most twelve spacings of two minutes. */
  function Gap(w: seq<BlockHeader>, k: nat): nat
    requires 0 < k < |w|
  {
    if w[k].time <= w[k - 1].time then 1 else if w[k].time - w[k - 1].time >= 1440 then 1440 else w[k].time - w[k - 1].time
  }

  /** The gaps from header `k` on, the gap before header i counted i times. */
  function WeightedGaps(w: seq<BlockHeader>, k: nat): nat
    requires 0 < k <= |w|
    decreases |w| - k
  {
    if k == |w| then 0 else k * Gap(w, k) + WeightedGaps(w, k + 1)
  }

  lemma {:induction false} SumPush(s: seq<nat>, x: nat)
    ensures Sum(s + [x]) == Sum(s) + x
  {
    if s == [] {
      assert s + [x] == [x];
    } else {
      SumPush(s[1..], x);
      assert (s + [x])[1..] == s[1..] + [x];
    }
  }

  lemma {:induction false} TargetSumIs(w: seq<BlockHeader>)
    ensures TargetSum(w) == Sum(Targets(w))
  {
    hide TargetOf;
    if w != [] {
      TargetSumIs(w[..|w| - 1]);
      SumPush(Targets(w[..|w| - 1]), TargetOf(w[|w| - 1].bits));
      assert Targets(w) == Targets(w[..|w| - 1]) + [TargetOf(w[|w| - 1].bits)];
    } else {
      assert Targets(w) == [];
    }
  }

  lemma {:induction false} GapsPush(w: seq<BlockHeader>, h: BlockHeader, k: nat)
    requires 0 < k <= |w|
    ensures WeightedGaps(w + [h], k) == WeightedGaps(w, k) + |w| * Gap(w + [h], |w|)
    decreases |w| - k
  {
    if k < |w| {
      GapsPush(w, h, k + 1);
      assert Gap(w + [h], k) == Gap(w, k);
    } else {
      assert WeightedGaps(w + [h], k + 1) == 0;
    }
  }

  lemma {:induction false} WeightedSumIs(w: seq<BlockHeader>)
    requires w != []
    ensures WeightedSum(w) == WeightedGaps(w, 1)
  {
    hide SolveTime, Gap;
    if |w| >= 2 {
      var a, h := w[..|w| - 1], w[|w| - 1];
      assert w == a + [h];
      WeightedSumIs(a);
      GapsPush(a, h, 1);
      LastGap(w);
    } else {
      assert WeightedGaps(w, 1) == 0;
    }
  }

  /** The newest header's gap enters with the greatest weight. */
  lemma LastGap(w: seq<BlockHeader>)
    requires |w| >= 2
    ensures WeightedSum(w) == WeightedSum(w[..|w| - 1]) + (|w| - 1) * Gap(w, |w| - 1)
  {
    var x := SolveTime(w[|w| - 2].time, w[|w| - 1].time);
    assert x == Gap(w, |w| - 1);
    Commutes(x, |w| - 1);
  }

  lemma Commutes(x: int, y: int)
    ensures x * y == y * x
  {
  }

  lemma {:induction false} DenomIs(m: nat)
    ensures 2 * Denom(m) == m * (m - 1) || m == 0
  {
    if m >= 2 { DenomIs(m - 1); }
  }

  /** The next target, before the cap: the plain average of the targets, times the average gap - the one before header i
      counted i times - over two minutes; each division rounds down. */
  lemma RawTargetIs(w: seq<BlockHeader>)
    requires |w| >= 2
    ensures |w| * (|w| - 1) / 2 >= 1
    ensures RawTarget(w) == ((Sum(Targets(w)) / |w|) * (WeightedGaps(w, 1) / (|w| * (|w| - 1) / 2))) / 120
  {
    TargetSumIs(w);
    WeightedSumIs(w);
    DenomIs(|w|);
    DenomPositive(|w|);
    assert Denom(|w|) == |w| * (|w| - 1) / 2;
  }

  // ----- which header carries a target does not matter -----

  lemma {:induction false} SumSplits(a: seq<nat>, b: seq<nat>)
    ensures Sum(a + b) == Sum(a) + Sum(b)
  {
    if a == [] {
      assert a + b == b;
    } else {
      SumSplits(a[1..], b);
      assert (a + b)[1..] == a[1..] + b;
    }
  }

  lemma Removed(s: seq<nat>, i: nat)
    requires i < |s|
    ensures multiset(s[..i] + s[i + 1..]) == multiset(s) - multiset{s[i]} && Sum(s) == Sum(s[..i] + s[i + 1..]) + s[i]
  {
    hide Sum;
    var low, rest := s[..i], s[i + 1..];
    assert s == low + ([s[i]] + rest);
    assert multiset(low + ([s[i]] + rest)) == multiset(low + rest) + multiset{s[i]} by {
      assert multiset(low + ([s[i]] + rest)) == multiset(low) + multiset([s[i]] + rest);
      assert multiset(low + rest) == multiset(low) + multiset(rest);
    }
    SumSplits(low, [s[i]] + rest);
    SumSplits(low, rest);
    SumOne([s[i]] + rest);
    assert ([s[i]] + rest)[1..] == rest;
  }

  lemma SomethingLeft(s: seq<nat>)
    requires s != []
    ensures multiset(s) != multiset([])
  {
    assert s[0] in multiset(s);
  }

  lemma PlaceOf(s: seq<nat>, x: nat) returns (i: nat)
    requires x in multiset(s)
    ensures i < |s| && s[i] == x
  {
    assert x in s;
    i :| 0 <= i < |s| && s[i] == x;
  }

  lemma {:induction false} SumPermuted(a: seq<nat>, b: seq<nat>)
    requires multiset(a) == multiset(b)
    ensures Sum(a) == Sum(b)
  {
    hide Sum;
    if a == [] {
      if b != [] { SomethingLeft(b); }
    } else {
      var i := PlaceOf(b, a[0]) by { assert a[0] in multiset(a); }
      var rest, more := a[1..], b[..i] + b[i + 1..];
      assert a[..0] + a[1..] == rest;
      Removed(a, 0);
      Removed(b, i);
      assert multiset(rest) == multiset(more);
      SumPermuted(rest, more);
    }
  }

  ghost predicate SameTimes(a: seq<BlockHeader>, b: seq<BlockHeader>) {
    |a| == |b| && forall k :: 0 <= k < |a| ==> a[k].time == b[k].time
  }

  lemma {:induction false} SameGaps(a: seq<BlockHeader>, b: seq<BlockHeader>, k: nat)
    requires SameTimes(a, b) && 0 < k <= |a|
    ensures WeightedGaps(a, k) == WeightedGaps(b, k)
    decreases |a| - k
  {
    if k < |a| { SameGaps(a, b, k + 1); }
  }

  /** Windows with the same times, whose targets are the same in any order, mandate the same. */
  lemma TargetsInAnyOrder(a: seq<BlockHeader>, b: seq<BlockHeader>)
    requires |a| >= 2 && SameTimes(a, b) && multiset(Targets(a)) == multiset(Targets(b))
    ensures RawTarget(a) == RawTarget(b) && (AllValid(a) <==> AllValid(b))
  {
    hide RawTarget, TargetOf, Sum, WeightedGaps, AllValid;
    RawTargetIs(a);
    RawTargetIs(b);
    SumPermuted(Targets(a), Targets(b));
    SameGaps(a, b, 1);
    if AllValid(a) { ValidPermuted(a, b); }
    if AllValid(b) { ValidPermuted(b, a); }
  }

  lemma ValidPermuted(a: seq<BlockHeader>, b: seq<BlockHeader>)
    requires multiset(Targets(a)) == multiset(Targets(b)) && AllValid(a)
    ensures AllValid(b)
  {
    hide TargetOf;
    forall k | 0 <= k < |b| ensures TargetOf(b[k].bits) != 0 {
      assert Targets(b)[k] in multiset(Targets(b));
      assert Targets(b)[k] in Targets(a);
    }
  }

  lemma BitsInAnyOrder(x: seq<BlockHeader>, y: seq<BlockHeader>, height: nat)
    requires height >= 2 && |x| == |y| && |x| >= (if height < 45 then height else 45)
    requires var n := if height < 45 then height else 45;
      SameTimes(x[|x| - n..], y[|y| - n..]) && multiset(Targets(x[|x| - n..])) == multiset(Targets(y[|y| - n..]))
    ensures ExpectedBits(x, height) == ExpectedBits(y, height)
  {
    hide RawTarget, TargetOf, AllValid, NextBits;
    var n := if height < 45 then height else 45;
    TargetsInAnyOrder(x[|x| - n..], y[|y| - n..]);
  }

  // ----- an even window -----

  /** Headers `s` seconds apart. */
  ghost predicate Even(w: seq<BlockHeader>, s: nat) { forall k :: 0 < k < |w| ==> w[k].time == w[k - 1].time + s }

  lemma {:induction false} EvenGaps(w: seq<BlockHeader>, s: nat)
    requires w != [] && Even(w, s) && 1 <= s <= 1440
    ensures WeightedSum(w) == s * Denom(|w|)
  {
    if |w| >= 2 {
      EvenGaps(w[..|w| - 1], s);
      assert SolveTime(w[|w| - 2].time, w[|w| - 1].time) == s;
      assert s * (Denom(|w| - 1) + (|w| - 1)) == s * Denom(|w| - 1) + s * (|w| - 1);
    }
  }

  lemma {:induction false} SumRepeats(s: seq<nat>, b: nat)
    requires forall k :: 0 <= k < |s| ==> s[k] == b
    ensures Sum(s) == |s| * b
  {
    if s != [] { SumRepeats(s[1..], b); }
  }

  /** One target `a`, wherever it stands, and the others `b`, evenly spaced: the average of all of them scaled by the
      spacing. */
  lemma EvenWindow(w: seq<BlockHeader>, j: nat, a: nat, b: nat, s: nat)
    requires |w| >= 2 && j < |w| && Even(w, s) && 1 <= s <= 1440
    requires forall k :: 0 <= k < |w| ==> TargetOf(w[k].bits) == if k == j then a else b
    ensures RawTarget(w) == (((a + (|w| - 1) * b) / |w|) * s) / 120
  {
    hide TargetOf, WeightedSum, Denom, Sum, TargetSum;
    var t := Targets(w);
    TargetSumIs(w);
    SumSplits(t[..j], t[j..]);
    SumOne(t[j..]);
    assert t[j..][1..] == t[j + 1..] && t == t[..j] + t[j..];
    SumRepeats(t[..j], b);
    SumRepeats(t[j + 1..], b);
    assert j * b + (|w| - 1 - j) * b == (|w| - 1) * b;
    EvenGaps(w, s);
    DenomPositive(|w|);
    Arith.MulDiv(s, Denom(|w|));
  }

  lemma SumOne(s: seq<nat>)
    requires s != []
    ensures Sum(s) == s[0] + Sum(s[1..])
  {
  }

  // ----- the mandated bits -----

  /** From two headers on, a full valid window mandates bits that decode to the raw target, capped at the limit, but for
      less than one part in 2^15; a raw target of zero stands for the limit. A short or invalid window mandates nothing. */
  lemma ExpectedIs(window: seq<BlockHeader>, height: nat)
    requires height >= 2
    ensures var n := if height < 45 then height else 45;
      (ExpectedBits(window, height).Some? <==> |window| >= n && AllValid(window[|window| - n..]))
    ensures ExpectedBits(window, height).Some? ==>
              var n := if height < 45 then height else 45;
              var raw, d := RawTarget(window[|window| - n..]), TargetOf(ExpectedBits(window, height).value);
              if raw == 0 || raw >= POW_LIMIT_TARGET then d == POW_LIMIT_TARGET else d <= raw && (raw - d) * 0x8000 < raw
  {
    hide RawTarget, TargetOf, NextBits, AllValid, BitsOf;
    var n := if height < 45 then height else 45;
    if |window| >= n && AllValid(window[|window| - n..]) {
      var raw := RawTarget(window[|window| - n..]);
      NextBitsDecode(if raw > POW_LIMIT_TARGET then POW_LIMIT_TARGET else raw);
      LimitBits();
    }
  }

  /** The limit's own compact form loses nothing. */
  lemma LimitBits()
    ensures TargetOf(NextBits(POW_LIMIT_TARGET)) == POW_LIMIT_TARGET
  {
    hide TargetOf, BitsOf;
    LimitCanonical();
    PowLimit();
  }

  lemma LimitCanonical()
    ensures BitsOf(POW_LIMIT_TARGET) == POW_LIMIT_BITS
  {
    hide Pow256, ByteLen;
    var x := POW_LIMIT_TARGET;
    LimitSize();
    LimitLeading();
  }

  lemma LimitSize()
    ensures ByteLen(POW_LIMIT_TARGET) == 29
  {
    hide ByteLen;
    ByteLenBounds(POW_LIMIT_TARGET);
    LimitPowers();
    var n := ByteLen(POW_LIMIT_TARGET);
    if n < 29 { Pow256Grows(n, 28); } else if n > 29 { Pow256Grows(29, n - 1); }
  }

  lemma LimitPowers()
    ensures Pow256(28) <= POW_LIMIT_TARGET < Pow256(29)
    ensures POW_LIMIT_TARGET == 0xffff00 * Pow256(26) && Pow256(26) >= 1
  {
    Widths();
    Pow256Adds(8, 8);
    Pow256Adds(16, 8);
    Pow256Adds(24, 2);
    Pow256Adds(24, 4);
    assert Pow256(2) == 0x1_0000;
    assert Pow256(29) == 256 * Pow256(28);
  }

  lemma LimitLeading()
    ensures Leading(POW_LIMIT_TARGET) == 0xffff00
  {
    hide ByteLen, Pow256;
    LimitSize();
    LimitPowers();
    Arith.MulDiv(0xffff00, Pow256(26));
  }
}
