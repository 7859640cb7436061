/** Sunrise order pricing (packages/cairnx/src/mm/sunrise.ts): an order costs the integral of a spot curve, in integer
    fixed point, times a margin; and its inverse. */
module Sunrise {
  import opened Rules
  import opened Arith

  const FIX: nat := 1_000_000_000_000_000_000
  const FIX30: nat := FIX * TIME_SCALE
  const TIME_SCALE: nat := 1_000_000_000_000
  const MAX_K_SCALED: nat := 2_200_000
  const MAX_EXPM1_ARG: nat := 20 * FIX

  function CeilDiv(a: nat, b: nat): nat
    requires b > 0
  {
    (a + b - 1) / b
  }

  // ----- e^z - 1 -----

  function NextTerm(z: nat, i: nat, term: nat): nat
    requires i >= 1
  {
    (term * z) / (i * FIX)
  }

  /** From the 21st term on, each term is smaller than the last. */
  lemma TermShrinks(z: nat, i: nat, term: nat)
    requires z <= MAX_EXPM1_ARG && i >= 21 && term > 0
    ensures NextTerm(z, i, term) < term
  {
    MulMonotone(20 * FIX + 1, i * FIX, term);
    MulMonotone(z, 20 * FIX, term);
    DivBelow(term * z, i * FIX, term);
  }

  /** The rest of the series after a term. */
  function Series(z: nat, i: nat, term: nat): nat
    requires i >= 1 && z <= MAX_EXPM1_ARG
    decreases if i <= 20 then 21 - i else 0, term
  {
    var next := NextTerm(z, i, term);
    if next == 0 then 0
    else
      assert i >= 21 ==> next < term by { if i >= 21 { TermPositive(z, i, term); TermShrinks(z, i, term); } }
      next + Series(z, i + 1, next)
  }

  lemma TermPositive(z: nat, i: nat, term: nat)
    requires i >= 1 && NextTerm(z, i, term) > 0
    ensures term > 0
  {
  }

  function Expm1(z: nat): nat
    requires z <= MAX_EXPM1_ARG
  {
    Series(z, 1, FIX)
  }

  /** The loop terminates: past the range check, the terms reach zero. */
  method Expm1Scaled(z: int) returns (r: Option<nat>)
    ensures r == if 0 <= z <= MAX_EXPM1_ARG then Some(Expm1(z)) else None
  {
    if z < 0 || z > MAX_EXPM1_ARG { return None; }
    var sum, term, i := 0, FIX, 1;
    while true
      invariant i >= 1 && term > 0 && sum >= 0 && sum + Series(z, i, term) == Expm1(z)
      decreases if i <= 20 then 21 - i else 0, term
    {
      var next := (term * z) / (i * FIX);
      assert next == NextTerm(z, i, term);
      if next == 0 { return Some(sum); }
      if i >= 21 { TermShrinks(z, i, term); }
      sum, term, i := sum + next, next, i + 1;
    }
  }

  lemma MulBoth(a: nat, b: nat, c: nat, d: nat)
    requires a <= b && c <= d
    ensures a * c <= b * d
  {
    MulMonotone(a, b, c);
    MulMonotone(c, d, b);
  }

  lemma {:induction false} SeriesMonotone(z: nat, y: nat, i: nat, t: nat, u: nat)
    requires i >= 1 && z <= y <= MAX_EXPM1_ARG && t <= u
    ensures Series(z, i, t) <= Series(y, i, u)
    decreases if i <= 20 then 21 - i else 0, t
  {
    MulBoth(t, u, z, y);
    DivMonotone(t * z, u * y, i * FIX);
    var next := NextTerm(z, i, t);
    if next > 0 {
      TermPositive(z, i, t);
      if i >= 21 { TermShrinks(z, i, t); }
      SeriesMonotone(z, y, i + 1, next, NextTerm(y, i, u));
    }
  }

  lemma Expm1Monotone(z: nat, y: nat)
    requires z <= y <= MAX_EXPM1_ARG
    ensures Expm1(z) <= Expm1(y)
  {
    SeriesMonotone(z, y, 1, FIX, FIX);
  }

  // ----- the curve -----

  datatype Params = Params(p0: int, rateBps: nat, kScaled: int, E: int, capMult: int, decimals: int)

  predicate ParamsOk(p: Params) {
    0 <= p.decimals <= 18 && p.p0 >= 0 && p.capMult >= 0 && p.E >= 0 && 0 <= p.kScaled <= MAX_K_SCALED
  }

  function Pow10(k: nat): (r: nat)
    ensures r >= 1
  {
    if k == 0 then 1 else 10 * Pow10(k - 1)
  }

  /** (1 + rate)^epochs at scale 1e12, flooring each step. */
  function TimeMult(rateBps: nat, n: nat): nat {
    if n == 0 then TIME_SCALE else (TimeMult(rateBps, n - 1) * (10000 + rateBps)) / 10000
  }

  function Epochs(epochsElapsed: int): nat { if epochsElapsed < 0 then 0 else if epochsElapsed > 20000 then 20000 else epochsElapsed }

  /** The curve an order is priced on: flat, or exponential up to `s` and flat at `flatNum` from there on. */
  datatype Curve =
    | Flat(flat: nat, U: nat)
    | Rising(aNum: nat, k: nat, E: nat, s: nat, flatNum: nat, U: nat)

  predicate CurveOk(c: Curve) {
    c.U >= 1 && (c.Rising? ==> 1 <= c.k <= MAX_K_SCALED && c.E >= 1 && c.s <= c.E)
  }

  /** The exponent at y never leaves the range of the series. */
  lemma ArgInRange(k: nat, E: nat, y: nat)
    requires k <= MAX_K_SCALED && E >= 1 && y <= E
    ensures (k * y * TIME_SCALE) / E <= MAX_EXPM1_ARG
  {
    var K := k * TIME_SCALE;
    MulMonotone(y, E, K);
    assert k * y * TIME_SCALE == K * y;
    DivMonotone(K * y, K * E, E);
    MulDiv(K, E);
  }

  function G(k: nat, E: nat, y: nat): nat
    requires k <= MAX_K_SCALED && E >= 1 && y <= E
  {
    ArgInRange(k, E, y);
    Expm1((k * y * TIME_SCALE) / E)
  }

  lemma GMonotone(k: nat, E: nat, x: nat, y: nat)
    requires k <= MAX_K_SCALED && E >= 1 && x <= y <= E
    ensures G(k, E, x) <= G(k, E, y)
  {
    ArgInRange(k, E, x);
    ArgInRange(k, E, y);
    MulMonotone(x, y, k * TIME_SCALE);
    assert k * x * TIME_SCALE == (k * TIME_SCALE) * x && k * y * TIME_SCALE == (k * TIME_SCALE) * y;
    DivMonotone(k * x * TIME_SCALE, k * y * TIME_SCALE, E);
    Expm1Monotone((k * x * TIME_SCALE) / E, (k * y * TIME_SCALE) / E);
  }

  /** The spot price at y, at scale 1e30 over p0. */
  function PriceNum(aNum: nat, k: nat, E: nat, y: nat): nat
    requires k <= MAX_K_SCALED && E >= 1 && y <= E
  {
    aNum * (FIX + G(k, E, y))
  }

  lemma PriceMonotone(aNum: nat, k: nat, E: nat, x: nat, y: nat)
    requires k <= MAX_K_SCALED && E >= 1 && x <= y <= E
    ensures PriceNum(aNum, k, E, x) <= PriceNum(aNum, k, E, y)
  {
    hide G;
    GMonotone(k, E, x, y);
    MulMonotone(FIX + G(k, E, x), FIX + G(k, E, y), aNum);
  }

  /** `s` is where the flat part starts - the first point at which the curve reaches the cap, else E - and `flatNum`
      the price there. */
  ghost predicate FlatFrom(aNum: nat, k: nat, E: nat, cap30: nat, s: nat, flatNum: nat)
    requires k <= MAX_K_SCALED && E >= 1
  {
    if PriceNum(aNum, k, E, E) >= cap30 then
      flatNum == cap30 && s <= E && PriceNum(aNum, k, E, s) >= cap30
      && forall y :: 0 <= y < s ==> PriceNum(aNum, k, E, y) < cap30
    else s == E && flatNum == PriceNum(aNum, k, E, E)
  }

  /** Is `c` the curve of these parameters at this age? */
  ghost predicate CurveOf(p: Params, epochsElapsed: int, c: Curve)
    requires ParamsOk(p)
  {
    var aNum := p.p0 * TimeMult(p.rateBps, Epochs(epochsElapsed));
    var capNum := p.p0 * p.capMult * TIME_SCALE;
    var U := Pow10(p.decimals);
    if p.kScaled == 0 || p.E == 0 then c == Flat(if aNum < capNum then aNum else capNum, U)
    else
      c.Rising? && c == Rising(aNum, p.kScaled, p.E, c.s, c.flatNum, U)
      && FlatFrom(aNum, p.kScaled, p.E, capNum * FIX, c.s, c.flatNum)
  }

  method BuildCurve(p: Params, epochsElapsed: int) returns (r: Option<Curve>)
    ensures r.Some? == ParamsOk(p)
    ensures r.Some? ==> CurveOk(r.value) && CurveOf(p, epochsElapsed, r.value)
  {
    hide PriceNum, TimeMult, Pow10;
    if !ParamsOk(p) { return None; }
    var aNum := p.p0 * TimeMult(p.rateBps, Epochs(epochsElapsed));
    var capNum := p.p0 * p.capMult * TIME_SCALE;
    var U := Pow10(p.decimals);
    if p.kScaled == 0 || p.E == 0 { return Some(Flat(if aNum < capNum then aNum else capNum, U)); }
    var s, flatNum := FindFlat(aNum, p.kScaled, p.E, capNum * FIX);
    r := Some(Rising(aNum, p.kScaled, p.E, s, flatNum, U));
  }

  /** Bisect for the first point at the cap. */
  method FindFlat(aNum: nat, k: nat, E: nat, cap30: nat) returns (s: nat, flatNum: nat)
    requires k <= MAX_K_SCALED && E >= 1
    ensures s <= E && FlatFrom(aNum, k, E, cap30, s, flatNum)
  {
    hide PriceNum;
    s, flatNum := E, PriceNum(aNum, k, E, E);
    if flatNum >= cap30 {
      flatNum := cap30;
      var a, b := 0, E;
      while a < b
        invariant 0 <= a <= b <= E && PriceNum(aNum, k, E, b) >= cap30
        invariant forall y :: 0 <= y < a ==> PriceNum(aNum, k, E, y) < cap30
      {
        var mid := (a + b) / 2;
        if PriceNum(aNum, k, E, mid) >= cap30 {
          b := mid;
        } else {
          forall y | 0 <= y < mid + 1 ensures PriceNum(aNum, k, E, y) < cap30 { PriceMonotone(aNum, k, E, y, mid); }
          a := mid + 1;
        }
      }
      s := a;
    }
  }

  lemma FlatUnique(aNum: nat, k: nat, E: nat, cap30: nat, s: nat, f: nat, t: nat, g: nat)
    requires k <= MAX_K_SCALED && E >= 1 && FlatFrom(aNum, k, E, cap30, s, f) && FlatFrom(aNum, k, E, cap30, t, g)
    ensures s == t && f == g
  {
    hide PriceNum;
  }

  /** One set of parameters has one curve. */
  lemma CurveUnique(p: Params, epochsElapsed: int, c: Curve, d: Curve)
    requires ParamsOk(p) && CurveOf(p, epochsElapsed, c) && CurveOf(p, epochsElapsed, d)
    ensures c == d
  {
    hide TimeMult, Pow10, FlatFrom;
    if c.Rising? { FlatUnique(c.aNum, c.k, c.E, p.p0 * p.capMult * TIME_SCALE * FIX, c.s, c.flatNum, d.s, d.flatNum); }
  }

  // ----- cost -----

  function Scaled(aNum: nat, E: nat, g: nat): nat { aNum * E * 1_000_000 * g }

  function Level(flatNum: nat, k: nat, length: nat): nat { flatNum * k * length }

  /** The antiderivative of the price: one integer-valued function for every order on the curve. */
  function V(c: Curve, x: nat): nat
    requires CurveOk(c)
  {
    match c
    case Flat(flat, _) => flat * x
    case Rising(aNum, k, E, s, flatNum, _) =>
      if x <= s then Scaled(aNum, E, G(k, E, x))
      else Scaled(aNum, E, G(k, E, s)) + Level(flatNum, k, x - s)
  }

  function D(c: Curve): (d: nat)
    requires CurveOk(c)
    ensures d >= 1
  {
    match c
    case Flat(_, U) => TIME_SCALE * U
    case Rising(_, k, _, _, _, U) => OneAtLeast(k, U); k * U * FIX30
  }

  lemma OneAtLeast(k: nat, U: nat)
    requires k >= 1 && U >= 1
    ensures k * U * FIX30 >= 1
  {
    MulBoth(1, k, 1, U);
    MulBoth(1, k * U, 1, FIX30);
  }

  lemma ScaledMonotone(aNum: nat, E: nat, g: nat, h: nat)
    requires g <= h
    ensures Scaled(aNum, E, g) <= Scaled(aNum, E, h)
  {
    MulMonotone(g, h, aNum * E * 1_000_000);
  }

  lemma LevelMonotone(flatNum: nat, k: nat, a: nat, b: nat)
    requires a <= b
    ensures Level(flatNum, k, a) <= Level(flatNum, k, b)
  {
    MulMonotone(a, b, flatNum * k);
  }

  lemma VMonotone(c: Curve, x: nat, y: nat)
    requires CurveOk(c) && x <= y
    ensures V(c, x) <= V(c, y)
  {
    hide G, Scaled, Level;
    match c
    case Flat(flat, _) => MulMonotone(x, y, flat);
    case Rising(aNum, k, E, s, flatNum, _) =>
      var x', y' := if x <= s then x else s, if y <= s then y else s;
      GMonotone(k, E, x', y');
      ScaledMonotone(aNum, E, G(k, E, x'), G(k, E, y'));
      LevelMonotone(flatNum, k, if x <= s then 0 else x - s, if y <= s then 0 else y - s);
  }

  function From(q: int): nat { if q < 0 then 0 else q }

  /** What n base units cost from q on, before the margin, rounded up. */
  function Cost(c: Curve, q: int, n: int): nat
    requires CurveOk(c)
  {
    if n <= 0 then 0
    else
      var lo := From(q);
      VMonotone(c, lo, lo + n);
      CeilDiv(V(c, lo + n) - V(c, lo), D(c))
  }

  lemma CeilAdds(x: nat, y: nat, d: nat)
    requires d > 0
    ensures 0 <= CeilDiv(x, d) + CeilDiv(y, d) - CeilDiv(x + y, d) <= 1
  {
    var a, b, s := CeilDiv(x, d), CeilDiv(y, d), CeilDiv(x + y, d);
    CeilBounds(x, d);
    CeilBounds(y, d);
    CeilBounds(x + y, d);
    assert (a + b - s) * d == a * d + b * d - s * d;
    MulSign(a + b - s - 1, d);
    MulSign(a + b - s, d);
    assert (a + b - s - 1) * d == (a + b - s) * d - d;
  }

  lemma CeilBounds(x: nat, d: nat)
    requires d > 0
    ensures x <= CeilDiv(x, d) * d < x + d
  {
    var n := x + d - 1;
    assert n == (n / d) * d + n % d;
  }

  lemma CeilMonotone(x: nat, y: nat, d: nat)
    requires d > 0 && x <= y
    ensures CeilDiv(x, d) <= CeilDiv(y, d)
  {
    DivMonotone(x + d - 1, y + d - 1, d);
  }

  /** Two orders cost what the one that spans them costs, or one base unit more. */
  lemma SplitCost(c: Curve, q: nat, a: nat, b: nat)
    requires CurveOk(c)
    ensures 0 <= Cost(c, q, a) + Cost(c, q + a, b) - Cost(c, q, a + b) <= 1
  {
    hide V, CeilDiv, D;
    VMonotone(c, q, q + a);
    VMonotone(c, q + a, q + a + b);
    if a == 0 || b == 0 {
      assert q + a + b == if a == 0 then q + b else q + a;
    } else {
      CeilAdds(V(c, q + a) - V(c, q), V(c, q + a + b) - V(c, q + a), D(c));
      assert q + (a + b) == q + a + b;
    }
  }

  lemma CostMonotone(c: Curve, q: int, m: nat, n: nat)
    requires CurveOk(c) && m <= n
    ensures Cost(c, q, m) <= Cost(c, q, n)
  {
    hide V, CeilDiv, D;
    var lo := From(q);
    VMonotone(c, lo, lo + m);
    VMonotone(c, lo + m, lo + n);
    if m > 0 { CeilMonotone(V(c, lo + m) - V(c, lo), V(c, lo + n) - V(c, lo), D(c)); }
  }

  // ----- the maker's price -----

  /** The terms of an answer: its curve, where it starts, its margin and its floor per whole token. */
  datatype Answer = Answer(c: Curve, q: int, margin: nat, floor: nat)

  function FromFloor(a: Answer, n: nat): nat
    requires CurveOk(a.c)
  {
    CeilDiv(a.floor * n * (10000 + a.margin), a.c.U * 10000)
  }

  /** The asked price: the curve cost or the floor, whichever is more, with the margin, rounded up. */
  function Price(a: Answer, n: int): nat
    requires CurveOk(a.c)
  {
    if n <= 0 then 0
    else
      var fromCurve := CeilDiv(Cost(a.c, a.q, n) * (10000 + a.margin), 10000);
      var fromFloor := FromFloor(a, n);
      if fromCurve > fromFloor then fromCurve else fromFloor
  }

  lemma FloorSplits(a: Answer, m: nat, n: nat)
    requires CurveOk(a.c)
    ensures FromFloor(a, m + n) <= FromFloor(a, m) + FromFloor(a, n)
  {
    var w := 10000 + a.margin;
    CeilAdds(a.floor * m * w, a.floor * n * w, a.c.U * 10000);
    assert a.floor * (m + n) * w == a.floor * m * w + a.floor * n * w by {
      assert a.floor * (m + n) == a.floor * m + a.floor * n;
      var x, y := a.floor * m, a.floor * n;
      assert (x + y) * w == x * w + y * w;
    }
  }

  /** Splitting an order never lowers its price. */
  lemma SplitNeverCheaper(a: Answer, m: nat, n: nat)
    requires CurveOk(a.c) && a.q >= 0
    ensures Price(a, m) + Price(a.(q := a.q + m), n) >= Price(a, m + n)
  {
    hide Cost, CeilDiv, FromFloor;
    var b, w := a.(q := a.q + m), 10000 + a.margin;
    var x, y, z := Cost(a.c, a.q, m), Cost(b.c, b.q, n), Cost(a.c, a.q, m + n);
    if m == 0 {
      assert b == a;
    } else if n > 0 {
      SplitCost(a.c, a.q, m, n);
      MulMonotone(z, x + y, w);
      assert (x + y) * w == x * w + y * w;
      CeilMonotone(z * w, x * w + y * w, 10000);
      CeilAdds(x * w, y * w, 10000);
      FloorSplits(a, m, n);
      FloorOf(a, b, n);
    }
  }

  lemma FloorOf(a: Answer, b: Answer, n: nat)
    requires CurveOk(a.c) && b.c == a.c && b.margin == a.margin && b.floor == a.floor
    ensures FromFloor(a, n) == FromFloor(b, n)
  {
  }

  lemma PriceGrows(a: Answer, m: nat, n: nat)
    requires CurveOk(a.c) && m <= n
    ensures Price(a, m) <= Price(a, n)
  {
    hide Cost, CeilDiv;
    if m > 0 {
      var w := 10000 + a.margin;
      CostMonotone(a.c, a.q, m, n);
      MulMonotone(Cost(a.c, a.q, m), Cost(a.c, a.q, n), w);
      CeilMonotone(Cost(a.c, a.q, m) * w, Cost(a.c, a.q, n) * w, 10000);
      MulMonotone(m, n, a.floor);
      MulMonotone(a.floor * m, a.floor * n, w);
      CeilMonotone(a.floor * m * w, a.floor * n * w, a.c.U * 10000);
    }
  }

  /** The largest order within the budget and the room: affordable, and one unit more is not. */
  method TokensFor(a: Answer, budget: int, room: int) returns (n: nat)
    requires CurveOk(a.c)
    ensures budget < 0 || room <= 0 ==> n == 0
    ensures budget >= 0 && room > 0 ==>
              n <= room && Price(a, n) <= budget && forall m :: n < m <= room ==> Price(a, m) > budget
  {
    hide Price;
    var lo, hi := 0, room;
    if budget < 0 || hi <= 0 { return 0; }
    NothingIsFree(a);
    while lo < hi
      invariant 0 <= lo <= hi <= room && Price(a, lo) <= budget
      invariant forall m :: hi < m <= room ==> Price(a, m) > budget
    {
      var mid := (lo + hi + 1) / 2;
      if Price(a, mid) <= budget {
        lo := mid;
      } else {
        forall m | mid - 1 < m <= room ensures Price(a, m) > budget { PriceGrows(a, mid, m); }
        hi := mid - 1;
      }
    }
    return lo;
  }

  lemma NothingIsFree(a: Answer)
    requires CurveOk(a.c)
    ensures Price(a, 0) == 0
  {
  }
}
