/** The difficulty a header must carry, re-derived from the headers before it (packages/light/src/lwma.ts). */
module Lwma {
  import opened Rules
  import opened Bytes
  import opened Headers
  import Arith

  const LWMA_WINDOW: nat := 45
  const LWMA_SOLVETIME_MAX_FACTOR: nat := 12
  const TARGET_BLOCK_SECS: nat := 120
  const MIN_BLOCK_SPACING_SECS: nat := 60
  const MAX_SOLVE: nat := LWMA_SOLVETIME_MAX_FACTOR * TARGET_BLOCK_SECS

  /** The time one block took, clamped to [1, MAX_SOLVE]. */
  function SolveTime(prev: nat, time: nat): (st: nat)
    ensures 1 <= st <= MAX_SOLVE
  {
    if time < prev + 1 then 1 else if time - prev > MAX_SOLVE then MAX_SOLVE else time - prev
  }

  /** The linearly weighted sum of the solve times of a window: the latest counts most. */
  function WeightedSum(w: seq<BlockHeader>): nat {
    if |w| < 2 then 0 else WeightedSum(w[..|w| - 1]) + SolveTime(w[|w| - 2].time, w[|w| - 1].time) * (|w| - 1)
  }

  function Denom(m: nat): nat { if m < 2 then 0 else Denom(m - 1) + (m - 1) }

  function TargetSum(w: seq<BlockHeader>): nat { if w == [] then 0 else TargetSum(w[..|w| - 1]) + TargetOf(w[|w| - 1].bits) }

  predicate AllValid(w: seq<BlockHeader>) { forall k :: 0 <= k < |w| ==> TargetOf(w[k].bits) != 0 }

  lemma DenomPositive(m: nat)
    requires m >= 2
    ensures Denom(m) >= 1
  {
  }

  function AverageTarget(w: seq<BlockHeader>): nat
    requires w != []
  {
    TargetSum(w) / |w|
  }

  function AverageSolve(w: seq<BlockHeader>): nat
    requires |w| >= 2
  {
    DenomPositive(|w|);
    WeightedSum(w) / Denom(|w|)
  }

  /** The next target, before it is capped and encoded. */
  function RawTarget(w: seq<BlockHeader>): nat
    requires |w| >= 2
  {
    (AverageTarget(w) * AverageSolve(w)) / TARGET_BLOCK_SECS
  }

  function Capped(target: nat): nat { if target > POW_LIMIT_TARGET then POW_LIMIT_TARGET else target }

  /** The bits a capped target is encoded to. A zero target - an underflow - falls back to the limit. */
  function NextBits(target: nat): nat {
    if target == 0 then POW_LIMIT_BITS
    else
      var bits := BitsOf(target);
      if TargetOf(bits) > POW_LIMIT_TARGET then POW_LIMIT_BITS else bits
  }

  /** The last `n` headers of a window. */
  function LastOf(window: seq<BlockHeader>, n: nat): seq<BlockHeader>
    requires n <= |window|
  {
    window[|window| - n..]
  }

  /** The bits mandated at `height`, from the chronological window that ends at its parent; None where the source throws. */
  function ExpectedBits(window: seq<BlockHeader>, height: nat): Option<nat> {
    if height == 0 then Some(INITIAL_BITS)
    else if window == [] then None
    else if height < 2 then Some(window[|window| - 1].bits)
    else
      var n := if LWMA_WINDOW < height then LWMA_WINDOW else height;
      if |window| < n then None
      else
        var w := LastOf(window, n);
        if !AllValid(w) then None else Some(NextBits(Capped(RawTarget(w))))
  }

  method ExpectedBitsFromWindow(window: seq<BlockHeader>, height: nat) returns (r: Option<nat>)
    ensures r == ExpectedBits(window, height)
  {
    hide NextBits, TargetOf, WeightedSum, TargetSum, Denom;
    if height == 0 { return Some(INITIAL_BITS); }
    if window == [] { return None; }
    var parent := window[|window| - 1];
    if height < 2 { return Some(parent.bits); }
    var n := if LWMA_WINDOW < height then LWMA_WINDOW else height;
    if |window| < n { return None; }
    var w := window[|window| - n..];
    var targets := CollectTargets(w);
    if targets.None? { return None; }
    var weightedSum, denom := WeighTimes(w);
    DenomPositive(|w|);
    var avgSolvetime := weightedSum / denom;
    var sumTarget := SumTargets(w, targets.value);
    var avgTarget := sumTarget / |w|;
    var nextTarget := (avgTarget * avgSolvetime) / TARGET_BLOCK_SECS;
    assert nextTarget == RawTarget(w);
    if nextTarget > POW_LIMIT_TARGET { nextTarget := POW_LIMIT_TARGET; }
    r := Some(NextBits(nextTarget));
  }

  /** Decode every target of the window; an invalid one throws. */
  method CollectTargets(w: seq<BlockHeader>) returns (targets: Option<seq<nat>>)
    ensures targets.Some? == AllValid(w)
    ensures targets.Some? ==> |targets.value| == |w| && forall i :: 0 <= i < |w| ==> targets.value[i] == TargetOf(w[i].bits)
  {
    hide TargetOf;
    var out: seq<nat> := [];
    for k := 0 to |w|
      invariant |out| == k && forall i :: 0 <= i < k ==> out[i] == TargetOf(w[i].bits) != 0
    {
      var tg := TargetOf(w[k].bits);
      if tg == 0 { return None; }
      out := out + [tg];
    }
    targets := Some(out);
  }

  method WeighTimes(w: seq<BlockHeader>) returns (weightedSum: nat, denom: nat)
    requires |w| >= 2
    ensures weightedSum == WeightedSum(w) && denom == Denom(|w|)
  {
    weightedSum, denom := 0, 0;
    for i := 1 to |w|
      invariant weightedSum == WeightedSum(w[..i]) && denom == Denom(i)
    {
      var dt: int := w[i].time;
      dt := dt - w[i - 1].time;
      if dt < 0 { dt := 0; }
      var st := if dt < 1 then 1 else if dt > MAX_SOLVE then MAX_SOLVE else dt;
      assert w[..i + 1][..i] == w[..i];
      weightedSum := weightedSum + st * i;
      denom := denom + i;
    }
    assert w[..|w|] == w;
  }

  method SumTargets(ghost w: seq<BlockHeader>, targets: seq<nat>) returns (sum: nat)
    requires |targets| == |w| && forall i :: 0 <= i < |w| ==> targets[i] == TargetOf(w[i].bits)
    ensures sum == TargetSum(w)
  {
    sum := 0;
    for i := 0 to |targets|
      invariant sum == TargetSum(w[..i])
    {
      assert w[..i + 1][..i] == w[..i];
      sum := sum + targets[i];
    }
    assert w[..|w|] == w;
  }

  // ----- bounds -----

  /** Consecutive headers are at least `gap` seconds apart. */
  ghost predicate Spaced(w: seq<BlockHeader>, gap: nat) { forall k :: 0 < k < |w| ==> w[k].time >= w[k - 1].time + gap }

  lemma {:induction false} WeightedSpaced(w: seq<BlockHeader>)
    requires Spaced(w, MIN_BLOCK_SPACING_SECS)
    ensures MIN_BLOCK_SPACING_SECS * Denom(|w|) <= WeightedSum(w)
  {
    if |w| >= 2 {
      var k := |w| - 1;
      WeightedSpaced(w[..k]);
      Arith.MulMonotone(MIN_BLOCK_SPACING_SECS, SolveTime(w[k - 1].time, w[k].time), k);
    }
  }

  /** No window, however its times are ordered, leaves the clamp. */
  lemma {:induction false} WeightedAtLeastOne(w: seq<BlockHeader>)
    ensures Denom(|w|) <= WeightedSum(w) <= MAX_SOLVE * Denom(|w|)
  {
    if |w| >= 2 {
      var k := |w| - 1;
      WeightedAtLeastOne(w[..k]);
      var st := SolveTime(w[|w| - 2].time, w[|w| - 1].time);
      Arith.MulMonotone(1, st, k);
      Arith.MulMonotone(st, MAX_SOLVE, k);
    }
  }

  lemma SolveBounds(w: seq<BlockHeader>)
    requires |w| >= 2
    ensures 1 <= AverageSolve(w) <= MAX_SOLVE
    ensures Spaced(w, MIN_BLOCK_SPACING_SECS) ==> MIN_BLOCK_SPACING_SECS <= AverageSolve(w)
  {
    DenomPositive(|w|);
    var s, d := WeightedSum(w), Denom(|w|);
    WeightedAtLeastOne(w);
    Arith.DivBelow(s, d, 1);
    Arith.DivBelow(s, d, MAX_SOLVE + 1);
    if Spaced(w, MIN_BLOCK_SPACING_SECS) {
      WeightedSpaced(w);
      Arith.DivBelow(s, d, MIN_BLOCK_SPACING_SECS);
    }
  }

  /** The next target never exceeds twelve times the window's average, and - with blocks at least 60 seconds apart -
      never falls below half of it. */
  lemma TargetBounds(w: seq<BlockHeader>)
    requires |w| >= 2
    ensures RawTarget(w) <= LWMA_SOLVETIME_MAX_FACTOR * AverageTarget(w)
    ensures Spaced(w, MIN_BLOCK_SPACING_SECS) ==> AverageTarget(w) / 2 <= RawTarget(w)
  {
    SolveBounds(w);
    var a, s := AverageTarget(w), AverageSolve(w);
    Arith.MulMonotone(s, MAX_SOLVE, a);
    Arith.DivMonotone(a * s, a * MAX_SOLVE, TARGET_BLOCK_SECS);
    assert a * MAX_SOLVE == (a * LWMA_SOLVETIME_MAX_FACTOR) * TARGET_BLOCK_SECS;
    Arith.MulDiv(a * LWMA_SOLVETIME_MAX_FACTOR, TARGET_BLOCK_SECS);
    if Spaced(w, MIN_BLOCK_SPACING_SECS) {
      Arith.MulMonotone(MIN_BLOCK_SPACING_SECS, s, a);
      Arith.DivMonotone(a * MIN_BLOCK_SPACING_SECS, a * s, TARGET_BLOCK_SECS);
      assert (a * MIN_BLOCK_SPACING_SECS) / TARGET_BLOCK_SECS == a / 2;
    }
  }

  lemma LimitEncodable(t: nat)
    requires 0 < t <= POW_LIMIT_TARGET
    ensures 2 * t < Pow256(32)
  {
    PowLimit();
  }

  /** What a nonzero capped target is encoded to decodes to a target in (0, target], within one part in 2^15: the
      source's last guard never fires. An underflowed target decodes to the limit. */
  lemma NextBitsDecode(t: nat)
    requires t <= POW_LIMIT_TARGET
    ensures 0 < TargetOf(NextBits(t)) <= POW_LIMIT_TARGET
    ensures t > 0 ==> NextBits(t) == BitsOf(t) && TargetOf(BitsOf(t)) <= t && (t - TargetOf(BitsOf(t))) * 0x8000 < t
    ensures t == 0 ==> TargetOf(NextBits(t)) == POW_LIMIT_TARGET
  {
    hide TargetOf, BitsOf;
    PowLimit();
    if t > 0 {
      LimitEncodable(t);
      CompactLoss(t);
    }
  }

  /** From two headers on, the mandated bits always decode to a target within the limit. */
  lemma ExpectedDecodes(window: seq<BlockHeader>, height: nat)
    requires height >= 2 && ExpectedBits(window, height).Some?
    ensures 0 < TargetOf(ExpectedBits(window, height).value) <= POW_LIMIT_TARGET
  {
    hide TargetOf, NextBits;
    var n := if LWMA_WINDOW < height then LWMA_WINDOW else height;
    NextBitsDecode(Capped(RawTarget(LastOf(window, n))));
  }

  /** So a valid parent mandates valid bits at every height. */
  lemma ExpectedWithinLimit(window: seq<BlockHeader>, height: nat)
    requires ExpectedBits(window, height).Some?
    requires window != [] ==> 0 < TargetOf(window[|window| - 1].bits) <= POW_LIMIT_TARGET
    ensures 0 < TargetOf(ExpectedBits(window, height).value) <= POW_LIMIT_TARGET
  {
    hide TargetOf;
    PowLimit();
    if height >= 2 { ExpectedDecodes(window, height); }
  }
}
