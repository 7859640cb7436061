/** What a Sunrise order's cost has to do with the spot price (packages/cairnx/src/mm/sunrise.ts): it lies between the
    order's size at the price where it starts and its size at the price where it ends, and is exact on a flat curve. */
module SunriseValue {
  import opened Arith
  import opened Sunrise

  /** `c` is x / d, rounded up. */
  predicate RoundsUp(c: int, x: int, d: int) { x <= c * d < x + d }

  // ----- e^z - 1 -----

  lemma {:induction false} SeriesBelow(z: nat, i: nat, term: nat)
    requires i >= 1 && z <= MAX_EXPM1_ARG
    ensures Series(z, i, term) * FIX <= z * (term + Series(z, i, term))
    decreases if i <= 20 then 21 - i else 0, term
  {
    var next := NextTerm(z, i, term);
    FloorTimes(term * z, i * FIX);
    assert next * (i * FIX) <= term * z;
    MulMonotone(1, i, next * FIX);
    assert next * (i * FIX) == i * (next * FIX);
    if next > 0 {
      TermPositive(z, i, term);
      if i >= 21 { TermShrinks(z, i, term); }
      SeriesBelow(z, i + 1, next);
      var s := Series(z, i + 1, next);
      assert (next + s) * FIX == next * FIX + s * FIX;
      assert z * (term + (next + s)) == z * term + z * (next + s);
    }
  }

  lemma FloorTimes(x: nat, d: nat)
    requires d > 0
    ensures (x / d) * d <= x < (x / d) * d + d
  {
    assert x == (x / d) * d + x % d;
  }

  /** e^z - 1 lies between z and z e^z. */
  lemma Expm1Between(z: nat)
    requires z <= MAX_EXPM1_ARG
    ensures z <= Expm1(z) && Expm1(z) * FIX <= z * (FIX + Expm1(z))
  {
    SeriesBelow(z, 1, FIX);
    MulDiv(z, FIX);
    assert NextTerm(z, 1, FIX) == z;
    if z == 0 { assert Expm1(0) == 0; }
  }

  // ----- an order from the start of the curve -----

  /** The antiderivative at n, between n at the starting price and n at the price there. */
  lemma ValueBetween(c: Curve, n: nat)
    requires CurveOk(c) && c.Rising? && n <= c.s
    ensures c.k * n * PriceNum(c.aNum, c.k, c.E, 0) <= V(c, n) + c.aNum * c.E * 1_000_000
    ensures V(c, n) <= c.k * n * PriceNum(c.aNum, c.k, c.E, n)
  {
    hide Expm1, PriceNum, V;
    var x, z, g := Exponent(c, n);
    StartPrice(c);
    Between(c.aNum, c.E, x, z, g, c.k, n, PriceNum(c.aNum, c.k, c.E, 0), PriceNum(c.aNum, c.k, c.E, n), V(c, n));
  }

  /** The exponent at n, its growth, and the price and the antiderivative there. */
  lemma Exponent(c: Curve, n: nat) returns (x: nat, z: nat, g: nat)
    requires CurveOk(c) && c.Rising? && n <= c.s
    ensures x == c.k * n * TIME_SCALE && z * c.E <= x < z * c.E + c.E
    ensures z <= g && g * FIX <= z * (FIX + g)
    ensures PriceNum(c.aNum, c.k, c.E, n) == c.aNum * (FIX + g) && V(c, n) == c.aNum * c.E * 1_000_000 * g
  {
    hide Expm1, PriceNum, V;
    ArgInRange(c.k, c.E, n);
    x := c.k * n * TIME_SCALE;
    z := x / c.E;
    g := Expm1(z);
    FloorTimes(x, c.E);
    Expm1Between(z);
    EndPrice(c.aNum, c.k, c.E, n, z);
    ValueIs(c, n, z);
  }

  lemma ValueIs(c: Curve, n: nat, z: nat)
    requires CurveOk(c) && c.Rising? && n <= c.s && z == (c.k * n * TIME_SCALE) / c.E && z <= MAX_EXPM1_ARG
    ensures V(c, n) == c.aNum * c.E * 1_000_000 * Expm1(z)
  {
    hide Expm1, G;
    EndGrowth(c.k, c.E, n, z);
  }

  lemma Between(a: nat, E: nat, x: nat, z: nat, g: nat, k: nat, n: nat, first: nat, last: nat, v: nat)
    requires x == k * n * TIME_SCALE && z <= g && g * FIX <= z * (FIX + g) && z * E <= x < z * E + E
    requires first == a * FIX && last == a * (FIX + g) && v == a * E * 1_000_000 * g
    ensures k * n * first <= v + a * E * 1_000_000 && v <= k * n * last
  {
    Lower(a, E, x, z, g, k, n);
    Upper(a, E, x, z, g, k, n);
  }

  lemma StartPrice(c: Curve)
    requires CurveOk(c) && c.Rising?
    ensures PriceNum(c.aNum, c.k, c.E, 0) == c.aNum * FIX
  {
    ArgInRange(c.k, c.E, 0);
    assert c.k * 0 * TIME_SCALE == 0;
    Expm1Between(0);
  }

  lemma EndPrice(aNum: nat, k: nat, E: nat, n: nat, z: nat)
    requires k <= MAX_K_SCALED && E >= 1 && n <= E && z == (k * n * TIME_SCALE) / E && z <= MAX_EXPM1_ARG
    ensures PriceNum(aNum, k, E, n) == aNum * (FIX + Expm1(z))
  {
    hide Expm1, G;
    EndGrowth(k, E, n, z);
  }

  lemma EndGrowth(k: nat, E: nat, n: nat, z: nat)
    requires k <= MAX_K_SCALED && E >= 1 && n <= E && z == (k * n * TIME_SCALE) / E && z <= MAX_EXPM1_ARG
    ensures G(k, E, n) == Expm1(z)
  {
    hide Expm1;
  }

  lemma Lower(a: nat, E: nat, x: nat, z: nat, g: nat, k: nat, n: nat)
    requires x == k * n * TIME_SCALE && z <= g && x < z * E + E
    ensures k * n * (a * FIX) <= a * E * 1_000_000 * g + a * E * 1_000_000
  {
    MulMonotone(z + 1, g + 1, E);
    MulMonotone(x, E * (g + 1), a * 1_000_000);
    assert x * (a * 1_000_000) == k * n * (a * FIX) by { Regroup(k * n, a); }
    assert E * (g + 1) * (a * 1_000_000) == a * E * 1_000_000 * g + a * E * 1_000_000 by { Spread(E, g, a); }
  }

  lemma Regroup(m: nat, a: nat)
    ensures m * TIME_SCALE * (a * 1_000_000) == m * (a * FIX)
  {
    assert TIME_SCALE * (a * 1_000_000) == a * FIX;
    assert m * TIME_SCALE * (a * 1_000_000) == m * (TIME_SCALE * (a * 1_000_000));
  }

  lemma Spread(E: nat, g: nat, a: nat)
    ensures E * (g + 1) * (a * 1_000_000) == a * E * 1_000_000 * g + a * E * 1_000_000
  {
    assert E * (g + 1) == E * g + E;
    var b := a * 1_000_000;
    assert (E * g + E) * b == E * g * b + E * b;
    assert E * b == a * E * 1_000_000;
    assert E * g * b == (E * b) * g;
  }

  lemma Upper(a: nat, E: nat, x: nat, z: nat, g: nat, k: nat, n: nat)
    requires x == k * n * TIME_SCALE && g * FIX <= z * (FIX + g) && z * E <= x
    ensures a * E * 1_000_000 * g <= k * n * (a * (FIX + g))
  {
    var e := FIX + g;
    MulMonotone(g * FIX, z * e, E);
    assert z * e * E == (z * E) * e;
    MulMonotone(z * E, x, e);
    var m := k * n;
    assert x * e == (m * e) * TIME_SCALE;
    assert g * FIX * E == (E * 1_000_000 * g) * TIME_SCALE;
    CancelScale(E * 1_000_000 * g, m * e);
    MulMonotone(E * 1_000_000 * g, m * e, a);
    assert a * E * 1_000_000 * g == (E * 1_000_000 * g) * a;
    assert m * (a * e) == (m * e) * a;
  }

  lemma CancelScale(p: nat, q: nat)
    requires p * TIME_SCALE <= q * TIME_SCALE
    ensures p <= q
  {
  }

  lemma CeilIs(x: nat, d: nat)
    requires d > 0
    ensures RoundsUp(CeilDiv(x, d), x, d)
  {
    CeilBounds(x, d);
  }

  lemma StartsAtNothing(c: Curve)
    requires CurveOk(c)
    ensures V(c, 0) == 0
  {
    if c.Rising? {
      ArgInRange(c.k, c.E, 0);
      assert c.k * 0 * TIME_SCALE == 0;
      Expm1Between(0);
      assert G(c.k, c.E, 0) == 0;
    }
  }

  lemma Cancel(k: nat, p: nat, q: nat)
    requires k >= 1
    ensures k * p < k * q ==> p < q
    ensures k * p <= k * q ==> p <= q
  {
    if p >= q { MulMonotone(q, p, k); }
    if p > q { MulMonotone(q + 1, p, k); }
  }

  /** On the rising part, the first n base units cost no less than n at the starting price - but for one rounding of the
      exponent - and, rounded up, no more than n at the price they reach. */
  lemma FirstOrder(c: Curve, n: nat)
    requires CurveOk(c) && c.Rising? && 0 < n <= c.s
    ensures var cost := Cost(c, 0, n);
      && c.k * n * PriceNum(c.aNum, c.k, c.E, 0) <= cost * (c.k * c.U * FIX30) + c.aNum * c.E * 1_000_000
      && cost * (c.U * FIX30) < n * PriceNum(c.aNum, c.k, c.E, n) + c.U * FIX30
  {
    hide V, PriceNum, CeilDiv;
    StartsAtNothing(c);
    ValueBetween(c, n);
    VMonotone(c, 0, n);
    var cost, d, p := Cost(c, 0, n), c.k * c.U * FIX30, PriceNum(c.aNum, c.k, c.E, n);
    CeilIs(V(c, n), D(c));
    assert cost * d < c.k * n * p + d;
    assert cost * d == c.k * (cost * (c.U * FIX30)) && c.k * n * p + d == c.k * (n * p + c.U * FIX30) by {
      Factor(c.k, c.U * FIX30, cost, n * p);
      assert d == c.k * (c.U * FIX30);
      assert c.k * n * p == c.k * (n * p);
    }
    Cancel(c.k, cost * (c.U * FIX30), n * p + c.U * FIX30);
  }

  lemma Factor(k: nat, u: nat, cost: nat, np: nat)
    ensures cost * (k * u) == k * (cost * u) && k * np + k * u == k * (np + u)
  {
  }

  /** Past the start of the flat part an order costs its size at the flat price, rounded up. */
  lemma FlatOrder(c: Curve, q: nat, n: nat)
    requires CurveOk(c) && n > 0 && (c.Rising? ==> q >= c.s)
    ensures match c
            case Flat(flat, U) => RoundsUp(Cost(c, q, n), n * flat, TIME_SCALE * U)
            case Rising(_, _, _, _, flatNum, U) => RoundsUp(Cost(c, q, n), n * flatNum, U * FIX30)
  {
    hide G, CeilDiv;
    VMonotone(c, q, q + n);
    var x := V(c, q + n) - V(c, q);
    CeilIs(x, D(c));
    match c
    case Flat(flat, U) =>
      assert x == n * flat by { assert flat * (q + n) == flat * q + flat * n; }
    case Rising(aNum, k, E, s, flatNum, U) =>
      var cost, u := Cost(c, q, n), U * FIX30;
      assert x == k * (n * flatNum) by { Widen(flatNum, k, q - s, n); JoinAt(c, q); JoinAt(c, q + n); }
      assert D(c) == k * u by { assert k * U * FIX30 == k * (U * FIX30); }
      Factor(k, u, cost, n * flatNum);
      Cancel(k, n * flatNum, cost * u);
      Cancel(k, cost * u, n * flatNum + u);
  }

  lemma JoinAt(c: Curve, x: nat)
    requires CurveOk(c) && c.Rising? && x >= c.s
    ensures V(c, x) == Scaled(c.aNum, c.E, G(c.k, c.E, c.s)) + Level(c.flatNum, c.k, x - c.s)
  {
    hide G, Scaled;
    if x == c.s { assert Level(c.flatNum, c.k, 0) == 0; }
  }

  lemma Widen(f: nat, k: nat, a: nat, n: nat)
    ensures Level(f, k, a + n) - Level(f, k, a) == k * (n * f)
  {
    assert f * k * (a + n) == f * k * a + f * k * n;
    assert f * k * n == k * (n * f);
  }

  /** The asked price is the larger of the curve's cost and the floor's, each with the margin and rounded up. */
  lemma PriceExact(a: Answer, n: nat, fromCurve: nat, fromFloor: nat)
    requires CurveOk(a.c) && n > 0
    requires RoundsUp(fromCurve, Cost(a.c, a.q, n) * (10_000 + a.margin), 10_000)
    requires RoundsUp(fromFloor, a.floor * n * (10_000 + a.margin), a.c.U * 10_000)
    ensures Price(a, n) == if fromCurve >= fromFloor then fromCurve else fromFloor
  {
    hide Cost, CeilDiv, RoundsUp;
    TheCeil(fromCurve, Cost(a.c, a.q, n) * (10_000 + a.margin), 10_000);
    TheCeil(fromFloor, a.floor * n * (10_000 + a.margin), a.c.U * 10_000);
  }

  lemma TheCeil(a: nat, x: nat, d: nat)
    requires d > 0 && RoundsUp(a, x, d)
    ensures a == CeilDiv(x, d)
  {
    CeilIs(x, d);
    SameCeil(a, CeilDiv(x, d), x, d);
  }

  lemma SameCeil(a: nat, b: nat, x: nat, d: nat)
    requires d > 0 && RoundsUp(a, x, d) && RoundsUp(b, x, d)
    ensures a == b
  {
    if a < b { MulMonotone(a + 1, b, d); }
    if b < a { MulMonotone(b + 1, a, d); }
  }

  // ----- the parameters -----

  ghost function Power(b: nat, n: nat): nat { if n == 0 then 1 else b * Power(b, n - 1) }

  /** `t` is 10^12 (1 + rate)^n at most, and short of it by no more than n units grown as much. */
  ghost predicate Compounds(t: nat, rateBps: nat, n: nat) {
    t * Power(10_000, n) <= 1_000_000_000_000 * Power(10_000 + rateBps, n) <= t * Power(10_000, n) + n * Power(10_000 + rateBps, n)
  }

  lemma Associate(a: int, b: int, c: int)
    ensures (a * b) * c == a * (b * c) == b * (a * c)
  {
  }

  lemma Distribute(a: int, b: int, c: int)
    ensures (a + b) * c == a * c + b * c
  {
  }

  lemma StepBelow(t: nat, u: nat, b: nat, p: nat, e: nat)
    requires u * 10_000 <= t * b && t * p <= e
    ensures u * (10_000 * p) <= b * e
  {
    Associate(u, 10_000, p);
    Associate(t, b, p);
    MulMonotone(u * 10_000, t * b, p);
    MulMonotone(t * p, e, b);
  }

  lemma StepAbove(t: nat, u: nat, b: nat, n: nat, p: nat, q: nat, e: nat)
    requires t * b < u * 10_000 + 10_000 && b >= 10_000 && p <= q && e <= t * p + n * q
    ensures b * e <= u * (10_000 * p) + (n + 1) * (b * q)
  {
    MulMonotone(e, t * p + n * q, b);
    Distribute(t * p, n * q, b);
    Associate(t, b, p);
    Associate(n, b, q);
    MulMonotone(t * b, u * 10_000 + 10_000, p);
    Distribute(u * 10_000, 10_000, p);
    Associate(u, 10_000, p);
    MulMonotone(10_000, b, q);
    Distribute(n, 1, b * q);
  }

  lemma CompoundStep(t: nat, u: nat, b: nat, n: nat, p: nat, q: nat)
    requires u * 10_000 <= t * b < u * 10_000 + 10_000 && b >= 10_000 && p <= q
    requires t * p <= 1_000_000_000_000 * q <= t * p + n * q
    ensures u * (10_000 * p) <= 1_000_000_000_000 * (b * q) <= u * (10_000 * p) + (n + 1) * (b * q)
  {
    var e := 1_000_000_000_000 * q;
    StepBelow(t, u, b, p, e);
    StepAbove(t, u, b, n, p, q, e);
    Associate(b, 1_000_000_000_000, q);
  }

  lemma {:induction false} PowerOrder(b: nat, n: nat)
    requires b >= 10_000
    ensures Power(10_000, n) <= Power(b, n)
  {
    if n > 0 {
      PowerOrder(b, n - 1);
      MulMonotone(Power(10_000, n - 1), Power(b, n - 1), 10_000);
      MulMonotone(10_000, b, Power(b, n - 1));
    }
  }

  /** The time multiplier is compound interest, to within one unit a step. */
  lemma {:induction false} TimeCompounds(rateBps: nat, n: nat)
    ensures Compounds(TimeMult(rateBps, n), rateBps, n)
  {
    if n > 0 {
      var t, b := TimeMult(rateBps, n - 1), 10_000 + rateBps;
      TimeCompounds(rateBps, n - 1);
      PowerOrder(b, n - 1);
      FloorTimes(t * b, 10_000);
      CompoundStep(t, TimeMult(rateBps, n), b, n - 1, Power(10_000, n - 1), Power(b, n - 1));
    }
  }

  lemma {:induction false} TenPower(k: nat)
    ensures Pow10(k) == Power(10, k)
  {
    if k > 0 { TenPower(k - 1); }
  }

  /** The age that counts: none below zero, and no more than twenty thousand epochs. */
  predicate AgeIs(n: nat, epochsElapsed: int) {
    n <= 20_000 && (0 <= epochsElapsed <= 20_000 ==> n == epochsElapsed)
    && (epochsElapsed < 0 ==> n == 0) && (epochsElapsed > 20_000 ==> n == 20_000)
  }

  /** Parameters are refused exactly when a number is negative, or there are over eighteen decimals, or the steepness is over
      2.2 million; accepted, they give a curve in 10^decimals units that starts at p0 compounded over its age, rises with the
      steepness, and never exceeds capMult times p0. */
  lemma CurveExact(p: Params, epochsElapsed: int, n: nat)
    requires AgeIs(n, epochsElapsed)
    ensures ParamsOk(p) <==> p.decimals in {0, 1, 2, 3, 4, 5, 6, 7, 8, 9, 10, 11, 12, 13, 14, 15, 16, 17, 18}
                             && p.kScaled <= 2_200_000 && p.p0 > -1 && p.capMult > -1 && p.E > -1 && p.kScaled > -1
    ensures ParamsOk(p) ==> forall c :: CurveOf(p, epochsElapsed, c) ==>
      c.U == Power(10, p.decimals) && StartsAt(c, p, n) && (c.Flat? <==> p.kScaled == 0 || p.E == 0)
  {
    TenPower(if p.decimals >= 0 then p.decimals else 0);
    TimeCompounds(p.rateBps, n);
    forall c | ParamsOk(p) && CurveOf(p, epochsElapsed, c) ensures StartsAt(c, p, n) {
      assert Epochs(epochsElapsed) == n;
      Capped(p, epochsElapsed, n, c);
    }
  }

  /** Where the curve starts and what caps it. */
  ghost predicate StartsAt(c: Curve, p: Params, n: nat)
    requires p.p0 >= 0 && p.capMult >= 0
  {
    exists t: nat :: Compounds(t, p.rateBps, n)
      && (match c
          case Flat(flat, _) =>
            var cap := p.p0 * p.capMult * 1_000_000_000_000;
            flat <= p.p0 * t && flat <= cap && (flat == p.p0 * t || flat == cap)
          case Rising(aNum, k, E, _, flatNum, _) =>
            aNum == p.p0 * t && k == p.kScaled && E == p.E && flatNum <= p.p0 * p.capMult * 1_000_000_000_000 * FIX)
  }

  lemma Capped(p: Params, epochsElapsed: int, n: nat, c: Curve)
    requires ParamsOk(p) && CurveOf(p, epochsElapsed, c) && Epochs(epochsElapsed) == n && Compounds(TimeMult(p.rateBps, n), p.rateBps, n)
    ensures StartsAt(c, p, n)
  {
    hide Compounds, TimeMult, PriceNum;
    var t := TimeMult(p.rateBps, n);
    assert Compounds(t, p.rateBps, n);
  }
}
