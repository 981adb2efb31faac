/**
Profit and loss of an option combination at expiry (`payoff.py`). The program samples the payoff
on a grid and reads "unbounded" off the slope at the edges; here that verdict is proved right for
every combination, and the sampled extremes are proved to miss the true ones by at most half a
grid step per lot.
*/
module Payoff {
  import opened Common

  datatype OptionType = CALL | PUT

  datatype Leg = Leg(kind: OptionType, strike: real, premium: real, quantity: Quantity, direction: Direction,
                     lotSize: nat)

  const STEPS := 2000

  // -------------------------------------------------------------------------- the payoff

  function Intrinsic(leg: Leg, price: real): real {
    if leg.kind.CALL? then Max(price - leg.strike, 0.0) else Max(leg.strike - price, 0.0)
  }

  function LegPayoff(leg: Leg, price: real): real {
    leg.direction.Sign() * (Intrinsic(leg, price) - leg.premium) * (leg.quantity as real) * (leg.lotSize as real)
  }

  /** The sum of an amount over the legs, first to last. */
  function SumOver(legs: seq<Leg>, amount: Leg -> real): real {
    if legs == [] then 0.0
    else SumOver(legs[..|legs| - 1], amount) + amount(legs[|legs| - 1])
  }

  function PayoffAt(price: real): Leg -> real {
    (leg: Leg) => LegPayoff(leg, price)
  }

  function TotalPayoff(legs: seq<Leg>, price: real): real {
    SumOver(legs, PayoffAt(price))
  }

  /** Contracts times lot size: how much of the underlying the leg controls. */
  function Lots(leg: Leg): (lots: real)
    ensures lots >= 0.0
  {
    Product(leg.quantity as real, leg.lotSize as real)
  }

  function Product(x: real, y: real): (p: real)
    ensures x >= 0.0 && y >= 0.0 ==> p >= 0.0
  {
    x * y
  }

  const LOTS: Leg -> real := (leg: Leg) => Lots(leg)

  function TotalLots(legs: seq<Leg>): real {
    SumOver(legs, LOTS)
  }

  function PremiumOf(leg: Leg): real {
    leg.direction.Sign() * leg.premium * (leg.quantity as real) * (leg.lotSize as real)
  }

  const PREMIUM: Leg -> real := (leg: Leg) => PremiumOf(leg)

  function Premiums(legs: seq<Leg>): real {
    SumOver(legs, PREMIUM)
  }

  /** `net_premium`. */
  method NetPremium(legs: seq<Leg>) returns (total: real)
    ensures total == Premiums(legs)
  {
    total := 0.0;
    for i := 0 to |legs|
      invariant total == Premiums(legs[..i])
    {
      assert legs[..i + 1][..i] == legs[..i];
      var sign := legs[i].direction.Sign();
      total := total + sign * legs[i].premium * (legs[i].quantity as real) * (legs[i].lotSize as real);
    }
    assert legs[..|legs|] == legs;
  }

  // ----------------------------------------------------------- what one leg contributes

  /** The slope of the leg's payoff from `price` up to the next strike. */
  function LegSlope(leg: Leg, price: real): real {
    if leg.kind.CALL? then (if leg.strike <= price then leg.direction.Sign() * Lots(leg) else 0.0)
    else if leg.strike > price then -leg.direction.Sign() * Lots(leg) else 0.0
  }

  function SlopeAt(price: real): Leg -> real {
    (leg: Leg) => LegSlope(leg, price)
  }

  function Slope(legs: seq<Leg>, price: real): real {
    SumOver(legs, SlopeAt(price))
  }

  predicate LegClose(f: Leg -> real, g: Leg -> real, w: Leg -> real, leg: Leg, x: real) {
    Abs(f(leg) - g(leg)) <= w(leg) * x
  }

  predicate SumClose(legs: seq<Leg>, f: Leg -> real, g: Leg -> real, w: Leg -> real, x: real) {
    Abs(SumOver(legs, f) - SumOver(legs, g)) <= SumOver(legs, w) * x
  }

  predicate LegStraight(f: Leg -> real, g: Leg -> real, s: Leg -> real, leg: Leg, x: real) {
    f(leg) == g(leg) + s(leg) * x
  }

  predicate SumStraight(legs: seq<Leg>, f: Leg -> real, g: Leg -> real, s: Leg -> real, x: real) {
    SumOver(legs, f) == SumOver(legs, g) + SumOver(legs, s) * x
  }

  lemma {:induction false} SumsClose(legs: seq<Leg>, f: Leg -> real, g: Leg -> real, w: Leg -> real, x: real)
    requires forall i :: 0 <= i < |legs| ==> LegClose(f, g, w, legs[i], x)
    ensures SumClose(legs, f, g, w, x)
  {
    if legs != [] {
      var n := |legs| - 1;
      SumsClose(legs[..n], f, g, w, x);
      assert SumOver(legs, w) * x == SumOver(legs[..n], w) * x + w(legs[n]) * x;
    }
  }

  lemma {:induction false} SumsLinear(legs: seq<Leg>, f: Leg -> real, g: Leg -> real, s: Leg -> real, x: real)
    requires forall i :: 0 <= i < |legs| ==> LegStraight(f, g, s, legs[i], x)
    ensures SumStraight(legs, f, g, s, x)
  {
    if legs != [] {
      var n := |legs| - 1;
      SumsLinear(legs[..n], f, g, s, x);
      assert SumOver(legs, s) * x == SumOver(legs[..n], s) * x + s(legs[n]) * x;
    }
  }

  /** Leg by leg, `b` pays `scale` times what `a` does, less `cost`. */
  lemma {:induction false} SumsPair(a: seq<Leg>, b: seq<Leg>, f: Leg -> real, g: Leg -> real, negate: bool,
                                    cost: Leg -> real)
    requires |a| == |b|
    requires forall i :: 0 <= i < |a| ==> g(b[i]) == (if negate then -f(a[i]) else f(a[i])) + cost(a[i])
    ensures SumOver(b, g) == (if negate then -SumOver(a, f) else SumOver(a, f)) + SumOver(a, cost)
  {
    if a != [] {
      SumsPair(a[..|a| - 1], b[..|b| - 1], f, g, negate, cost);
    }
  }

  const NONE: Leg -> real := (leg: Leg) => 0.0

  lemma {:induction false} SumOfNothing(legs: seq<Leg>)
    ensures SumOver(legs, NONE) == 0.0
  {
    if legs != [] {
      SumOfNothing(legs[..|legs| - 1]);
    }
  }

  lemma {:induction false} TotalLotsPositive(legs: seq<Leg>)
    ensures TotalLots(legs) >= 0.0
  {
    if legs != [] {
      TotalLotsPositive(legs[..|legs| - 1]);
    }
  }

  lemma LegPayoffDifference(leg: Leg, p: real, q: real)
    ensures LegPayoff(leg, p) - LegPayoff(leg, q)
              == leg.direction.Sign() * Product(Lots(leg), Intrinsic(leg, p) - Intrinsic(leg, q))
  {}

  lemma ScaledBound(w: real, x: real, y: real)
    requires w >= 0.0 && Abs(x) <= y
    ensures Abs(Product(w, x)) <= Product(w, y)
  {
    if x >= 0.0 {
      assert 0.0 <= w * x <= w * y;
    } else {
      assert 0.0 <= w * -x <= w * y;
      assert w * x == -(w * -x);
    }
  }

  lemma LegMoves(leg: Leg, p: real, q: real)
    ensures Abs(LegPayoff(leg, p) - LegPayoff(leg, q)) <= Product(Lots(leg), Abs(p - q))
  {
    LegPayoffDifference(leg, p, q);
    var moved := Product(Lots(leg), Intrinsic(leg, p) - Intrinsic(leg, q));
    ScaledBound(Lots(leg), Intrinsic(leg, p) - Intrinsic(leg, q), Abs(p - q));
    hide LegPayoff, Product;
    assert LegPayoff(leg, p) - LegPayoff(leg, q) == moved || LegPayoff(leg, p) - LegPayoff(leg, q) == -moved;
  }

  lemma LegLipschitz(leg: Leg, p: real, q: real)
    ensures LegClose(PayoffAt(p), PayoffAt(q), LOTS, leg, Abs(p - q))
  {
    LegMoves(leg, p, q);
    hide LegPayoff, Lots;
  }

  lemma PayoffLipschitz(legs: seq<Leg>, p: real, q: real)
    ensures SumClose(legs, PayoffAt(p), PayoffAt(q), LOTS, Abs(p - q))
  {
    forall i | 0 <= i < |legs| ensures LegClose(PayoffAt(p), PayoffAt(q), LOTS, legs[i], Abs(p - q)) {
      LegLipschitz(legs[i], p, q);
    }
    SumsClose(legs, PayoffAt(p), PayoffAt(q), LOTS, Abs(p - q));
  }

  predicate NoKinkBetween(legs: seq<Leg>, low: real, high: real) {
    forall i :: 0 <= i < |legs| ==> legs[i].strike <= low || legs[i].strike >= high
  }

  lemma LegLinear(leg: Leg, low: real, high: real, p: real)
    requires low <= p <= high && (leg.strike <= low || leg.strike >= high)
    ensures LegStraight(PayoffAt(p), PayoffAt(low), SlopeAt(low), leg, p - low)
  {
    LegPayoffDifference(leg, p, low);
  }

  /** Between strikes the payoff is a straight line. */
  lemma LinearBetweenStrikes(legs: seq<Leg>, low: real, high: real, p: real)
    requires low <= p <= high && NoKinkBetween(legs, low, high)
    ensures SumStraight(legs, PayoffAt(p), PayoffAt(low), SlopeAt(low), p - low)
  {
    forall i | 0 <= i < |legs| ensures LegStraight(PayoffAt(p), PayoffAt(low), SlopeAt(low), legs[i], p - low) {
      LegLinear(legs[i], low, high, p);
    }
    SumsLinear(legs, PayoffAt(p), PayoffAt(low), SlopeAt(low), p - low);
  }

  // ------------------------------------------------------------------------- the sampling

  function Strikes(legs: seq<Leg>): (strikes: seq<real>)
    ensures |strikes| == |legs| && forall i :: 0 <= i < |legs| ==> strikes[i] == legs[i].strike
  {
    seq(|legs|, i requires 0 <= i < |legs| => legs[i].strike)
  }

  /** The grid sampled when the caller gives none: 2001 points from 0 to half above the top strike. */
  function DefaultRange(legs: seq<Leg>): (range: seq<real>)
    requires legs != []
    ensures |range| == STEPS + 1
  {
    var span := MaxOf(Strikes(legs)) * 1.5;
    seq(STEPS + 1, i requires 0 <= i <= STEPS => span * i as real / STEPS as real)
  }

  function Payoffs(legs: seq<Leg>, range: seq<real>): (payoffs: seq<real>)
    ensures |payoffs| == |range| && forall i :: 0 <= i < |range| ==> payoffs[i] == TotalPayoff(legs, range[i])
  {
    seq(|range|, i requires 0 <= i < |range| => TotalPayoff(legs, range[i]))
  }

  /** The zero of the chord through two samples. */
  function Crossing(p1: real, v1: real, p2: real, v2: real): real
    requires v1 != v2
  {
    p1 + Share(p2 - p1, -v1, v2 - v1)
  }

  /** The part of `whole` that `gap` is of `rise`. */
  function Share(whole: real, gap: real, rise: real): real
    requires rise != 0.0
  {
    whole * gap / rise
  }

  lemma OppositeSignsDiffer(v1: real, v2: real)
    requires v1 * v2 < 0.0
    ensures v1 > 0.0 > v2 || v1 < 0.0 < v2
  {}

  function BreakevenAt(p1: real, v1: real, p2: real, v2: real): seq<real> {
    if v1 == 0.0 then [p1]
    else if v1 * v2 < 0.0 then
      OppositeSignsDiffer(v1, v2);
      [Crossing(p1, v1, p2, v2)]
    else []
  }

  /** The break-even prices between the first `n` samples. */
  function Breakevens(range: seq<real>, payoffs: seq<real>, n: nat): seq<real>
    requires |payoffs| == |range| && n <= |range|
  {
    if n <= 1 then []
    else Breakevens(range, payoffs, n - 1) + BreakevenAt(range[n - 2], payoffs[n - 2], range[n - 1], payoffs[n - 1])
  }

  datatype Summary = Summary(
    maxProfit: Option<real>,
    maxLoss: Option<real>,
    breakevens: seq<real>,
    netPremium: real,
    capitalRequirement: real,
    worstSampledLoss: real)

  datatype Error = NO_LEGS | RANGE_TOO_SHORT

  function Summarise(legs: seq<Leg>, range: seq<real>): Summary
    requires |range| >= 2
  {
    var payoffs := Payoffs(legs, range);
    var n := |range|;
    var floor := range[0] <= 0.0;
    var left, right := payoffs[1] - payoffs[0], payoffs[n - 1] - payoffs[n - 2];
    Summary(
      if right > 0.0 || (!floor && left < 0.0) then None else Some(MaxOf(payoffs)),
      if right < 0.0 || (!floor && left > 0.0) then None else Some(MinOf(payoffs)),
      Breakevens(range, payoffs, n),
      Premiums(legs),
      if Premiums(legs) > 0.0 then Premiums(legs) else Abs(MinOf(payoffs)),
      MinOf(payoffs))
  }

  /** `compute_payoff_summary`. A range of fewer than two prices makes the slopes fail on an index. */
  method ComputePayoffSummary(legs: seq<Leg>, given: Option<seq<real>>) returns (r: Result<Summary, Error>)
    ensures r == if legs == [] then Err(NO_LEGS)
                 else
                   var range := if given.Some? then given.value else DefaultRange(legs);
                   if |range| < 2 then Err(RANGE_TOO_SHORT) else Ok(Summarise(legs, range))
  {
    if legs == [] {
      return Err(NO_LEGS);
    }
    var range := if given.Some? then given.value else DefaultRange(legs);
    if |range| < 2 {
      return Err(RANGE_TOO_SHORT);
    }
    var n := |range|;
    var payoffs := Payoffs(legs, range);
    var highest, lowest := Extremes(payoffs);
    var floor := range[0] <= 0.0;
    var left, right := payoffs[1] - payoffs[0], payoffs[n - 1] - payoffs[n - 2];
    var maxProfit, maxLoss := Some(highest), Some(lowest);
    if right > 0.0 || (!floor && left < 0.0) {
      maxProfit := None;
    }
    if right < 0.0 || (!floor && left > 0.0) {
      maxLoss := None;
    }
    var breakevens := FindBreakevens(range, payoffs);
    var premium := NetPremium(legs);
    var capital := if premium > 0.0 then premium else Abs(lowest);
    r := Ok(Summary(maxProfit, maxLoss, breakevens, premium, capital, lowest));
  }

  method Extremes(payoffs: seq<real>) returns (highest: real, lowest: real)
    requires payoffs != []
    ensures highest == MaxOf(payoffs) && lowest == MinOf(payoffs)
  {
    highest, lowest := payoffs[0], payoffs[0];
    for i := 1 to |payoffs|
      invariant highest == MaxOf(payoffs[..i]) && lowest == MinOf(payoffs[..i])
    {
      assert payoffs[..i + 1][..i] == payoffs[..i];
      highest, lowest := Max(highest, payoffs[i]), Min(lowest, payoffs[i]);
    }
    assert payoffs[..|payoffs|] == payoffs;
  }

  method FindBreakevens(range: seq<real>, payoffs: seq<real>) returns (breakevens: seq<real>)
    requires |payoffs| == |range|
    ensures breakevens == Breakevens(range, payoffs, |range|)
  {
    breakevens := [];
    var i := 1;
    while i < |range|
      invariant i >= 1
      invariant breakevens == Breakevens(range, payoffs, if i <= |range| then i else |range|)
    {
      assert Breakevens(range, payoffs, i + 1)
             == Breakevens(range, payoffs, i) + BreakevenAt(range[i - 1], payoffs[i - 1], range[i], payoffs[i]);
      var p1, v1, p2, v2 := range[i - 1], payoffs[i - 1], range[i], payoffs[i];
      if v1 == 0.0 {
        breakevens := breakevens + [p1];
      } else if v1 * v2 < 0.0 {
        OppositeSignsDiffer(v1, v2);
        breakevens := breakevens + [Crossing(p1, v1, p2, v2)];
      }
      i := i + 1;
    }
  }

  // ------------------------------------------------- a curve that is straight from `top` on

  /** What the analysis below uses of a payoff: it moves by at most `lots` per unit of price, and is
      a straight line from `top` on. */
  ghost predicate Shape(f: real -> real, top: real, slope: real, lots: real) {
    && top > 0.0 && lots >= 0.0
    && (forall p, q :: CloseAt(f, lots, p, q))
    && (forall p :: p >= top ==> StraightAt(f, top, slope, p))
  }

  predicate CloseAt(f: real -> real, lots: real, p: real, q: real) {
    Abs(f(p) - f(q)) <= lots * Abs(p - q)
  }

  predicate StraightAt(f: real -> real, top: real, slope: real, p: real) {
    f(p) == f(top) + slope * (p - top)
  }

  ghost predicate GoesBelow(f: real -> real, bound: real) {
    exists p: real :: p >= 0.0 && f(p) < bound
  }

  /** On prices from 0 up the curve has no lower bound. */
  ghost predicate UnboundedBelow(f: real -> real) {
    forall bound: real :: GoesBelow(f, bound)
  }

  /** The greatest lower bound of the curve over prices from 0 up. */
  ghost predicate IsInfimum(f: real -> real, value: real) {
    && (forall p: real :: p >= 0.0 ==> f(p) >= value)
    && (forall above: real :: above > value ==> GoesBelow(f, above))
  }

  lemma FallingIsUnbounded(f: real -> real, top: real, slope: real, lots: real, bound: real)
    requires Shape(f, top, slope, lots) && slope < 0.0
    ensures GoesBelow(f, bound)
  {
    var excess := Max(f(top) - bound, 0.0) + 1.0;
    var step := excess / -slope;
    DivMul(excess, -slope);
    DivOrder(excess, -slope, 0.0);
    assert StraightAt(f, top, slope, top + step);
  }

  lemma ProductSign(x: real, y: real)
    requires y >= 0.0
    ensures x >= 0.0 ==> x * y >= 0.0
    ensures y > 0.0 ==> (x * y < 0.0 <==> x < 0.0)
  {}

  lemma ScaledLess(w: real, x: real, y: real)
    requires w >= 0.0 && x <= y
    ensures w * x <= w * y
  {}

  lemma RisingIsBounded(f: real -> real, top: real, slope: real, lots: real, p: real)
    requires Shape(f, top, slope, lots) && slope >= 0.0 && p >= 0.0
    ensures f(p) >= f(top) - lots * top
  {
    ProductSign(lots, top);
    if p >= top {
      assert StraightAt(f, top, slope, p);
      ProductSign(slope, p - top);
    } else {
      assert CloseAt(f, lots, p, top);
      ScaledLess(lots, top - p, top);
    }
  }

  /** The curve is unbounded below exactly when it falls from `top` on. */
  lemma UnboundedIffFalling(f: real -> real, top: real, slope: real, lots: real)
    requires Shape(f, top, slope, lots)
    ensures UnboundedBelow(f) <==> slope < 0.0
  {
    if slope < 0.0 {
      forall bound: real ensures GoesBelow(f, bound) {
        FallingIsUnbounded(f, top, slope, lots, bound);
      }
    } else {
      var bound := f(top) - lots * top;
      forall p: real ensures !(p >= 0.0 && f(p) < bound) {
        if p >= 0.0 {
          RisingIsBounded(f, top, slope, lots, p);
        }
      }
      assert !GoesBelow(f, bound);
    }
  }

  function Grid(h: real, i: nat): real {
    i as real * h
  }

  /** The curve sampled at 0, h, 2h, ... up to half above `top`. */
  ghost predicate Sampled(f: real -> real, top: real, h: real, v: seq<real>) {
    && |v| == STEPS + 1 && h == top * 1.5 / STEPS as real
    && forall i :: 0 <= i <= STEPS ==> v[i] == f(Grid(h, i))
  }

  /** The last two samples already lie beyond `top`, so the edge shows the final slope. */
  lemma EdgeShowsSlope(f: real -> real, top: real, slope: real, lots: real, h: real, v: seq<real>)
    requires Shape(f, top, slope, lots) && Sampled(f, top, h, v)
    ensures v[STEPS] - v[STEPS - 1] < 0.0 <==> slope < 0.0
  {
    assert Grid(h, STEPS) == 2000.0 * h && Grid(h, STEPS - 1) == 1999.0 * h;
    assert StraightAt(f, top, slope, 2000.0 * h) && StraightAt(f, top, slope, 1999.0 * h);
    assert v[STEPS] - v[STEPS - 1] == slope * h;
    ProductSign(slope, h);
  }

  /** Every price on the sampled span is within half a step of a sample. */
  lemma NearestSample(h: real, p: real) returns (i: nat)
    requires h > 0.0 && 0.0 <= p <= STEPS as real * h
    ensures i <= STEPS && Abs(p - Grid(h, i)) <= h / 2.0
  {
    var x := p / h;
    DivOrder(p, h, STEPS as real);
    DivOrder(p, h, 0.0);
    DivMul(p, h);
    i := (x + 0.5).Floor;
    var d := x - i as real;
    assert p - i as real * h == h * d;
    ScaledBound(h, d, 0.5);
  }

  /** What a curve moving by at most `lots` per unit of price can do within half a step. */
  function HalfStep(lots: real, h: real): real {
    lots * (h / 2.0)
  }

  lemma WithinHalfStep(f: real -> real, lots: real, h: real, p: real, q: real)
    requires lots >= 0.0 && CloseAt(f, lots, p, q) && Abs(p - q) <= h / 2.0
    ensures f(p) >= f(q) - HalfStep(lots, h)
  {
    ScaledLess(lots, Abs(p - q), h / 2.0);
  }

  lemma RisesFrom(f: real -> real, top: real, slope: real, lots: real, edge: real, p: real)
    requires Shape(f, top, slope, lots) && slope >= 0.0 && top <= edge <= p
    ensures f(edge) <= f(p)
  {
    assert StraightAt(f, top, slope, p) && StraightAt(f, top, slope, edge);
    ScaledLess(slope, edge - top, p - top);
  }

  lemma SampledMinimum(f: real -> real, top: real, slope: real, lots: real, h: real, v: seq<real>, p: real)
    requires Shape(f, top, slope, lots) && slope >= 0.0 && Sampled(f, top, h, v) && p >= 0.0
    ensures f(p) >= MinOf(v) - HalfStep(lots, h)
  {
    MinIsLower(v);
    ProductSign(lots, h / 2.0);
    if p <= STEPS as real * h {
      var i := NearestSample(h, p);
      var q := Grid(h, i);
      assert CloseAt(f, lots, p, q);
      WithinHalfStep(f, lots, h, p, q);
      assert v[i] == f(q);
    } else {
      var edge := 2000.0 * h;
      assert Grid(h, STEPS) == edge;
      RisesFrom(f, top, slope, lots, edge, p);
    }
  }

  /** The least sample is a value of the curve, and the infimum is below it by at most half a step
      times `lots`. */
  lemma SampledInfimum(f: real -> real, top: real, slope: real, lots: real, h: real, v: seq<real>, worst: real)
    requires Shape(f, top, slope, lots) && slope >= 0.0 && Sampled(f, top, h, v) && IsInfimum(f, worst)
    ensures worst <= MinOf(v) <= worst + HalfStep(lots, h)
  {
    MinIsLower(v);
    var j :| 0 <= j < |v| && v[j] == MinOf(v);
    ProductSign(j as real, h);
    assert v[j] == f(Grid(h, j));
    var floor := MinOf(v) - HalfStep(lots, h);
    if floor > worst {
      assert GoesBelow(f, floor);
      var p: real :| p >= 0.0 && f(p) < floor;
      SampledMinimum(f, top, slope, lots, h, v, p);
      assert false;
    }
  }

  // ------------------------------------------------------------------- bounded or unbounded

  predicate PositiveStrikes(legs: seq<Leg>) {
    forall i :: 0 <= i < |legs| ==> legs[i].strike > 0.0
  }

  function PayoffOf(legs: seq<Leg>): real -> real {
    price => TotalPayoff(legs, price)
  }

  function TopStrike(legs: seq<Leg>): real
    requires legs != []
  {
    MaxOf(Strikes(legs))
  }

  function Step(legs: seq<Leg>): real
    requires legs != []
  {
    TopStrike(legs) * 1.5 / STEPS as real
  }

  /** Half a grid step for each lot the combination holds. */
  function GridError(legs: seq<Leg>): real
    requires legs != []
  {
    HalfStep(TotalLots(legs), Step(legs))
  }

  lemma TopStrikeIsTop(legs: seq<Leg>)
    requires legs != []
    ensures forall i :: 0 <= i < |legs| ==> legs[i].strike <= TopStrike(legs)
    ensures PositiveStrikes(legs) ==> TopStrike(legs) > 0.0
  {
    var strikes := Strikes(legs);
    MaxIsUpper(strikes);
    var j :| 0 <= j < |strikes| && strikes[j] == MaxOf(strikes);
    assert legs[j].strike == TopStrike(legs);
    forall i | 0 <= i < |legs| ensures legs[i].strike <= TopStrike(legs) {
      assert strikes[i] == legs[i].strike;
    }
  }

  lemma PayoffCloseAt(legs: seq<Leg>, p: real, q: real)
    ensures CloseAt(PayoffOf(legs), TotalLots(legs), p, q)
  {
    PayoffLipschitz(legs, p, q);
  }

  lemma PayoffStraightAt(legs: seq<Leg>, top: real, p: real)
    requires p >= top && forall i :: 0 <= i < |legs| ==> legs[i].strike <= top
    ensures StraightAt(PayoffOf(legs), top, Slope(legs, top), p)
  {
    LinearBetweenStrikes(legs, top, p, p);
  }

  lemma PayoffHasShape(legs: seq<Leg>)
    requires legs != [] && PositiveStrikes(legs)
    ensures Shape(PayoffOf(legs), TopStrike(legs), Slope(legs, TopStrike(legs)), TotalLots(legs))
  {
    var f, top := PayoffOf(legs), TopStrike(legs);
    TopStrikeIsTop(legs);
    TotalLotsPositive(legs);
    forall p, q ensures CloseAt(f, TotalLots(legs), p, q) {
      PayoffCloseAt(legs, p, q);
    }
    forall p | p >= top ensures StraightAt(f, top, Slope(legs, top), p) {
      PayoffStraightAt(legs, top, p);
    }
  }

  lemma DefaultRangeSamples(legs: seq<Leg>)
    requires legs != []
    ensures Sampled(PayoffOf(legs), TopStrike(legs), Step(legs), Payoffs(legs, DefaultRange(legs)))
    ensures DefaultRange(legs)[0] == 0.0
  {
    GridPoint(legs, 0);
    StepOfTop(legs);
    hide Grid, Step, TopStrike, DefaultRange, Payoffs, TotalPayoff;
    forall i | 0 <= i <= STEPS ensures Payoffs(legs, DefaultRange(legs))[i] == PayoffOf(legs)(Grid(Step(legs), i)) {
      GridPoint(legs, i);
    }
  }

  lemma StepOfTop(legs: seq<Leg>)
    requires legs != []
    ensures Step(legs) == TopStrike(legs) * 1.5 / STEPS as real
  {}

  lemma GridPoint(legs: seq<Leg>, i: nat)
    requires legs != [] && i <= STEPS
    ensures DefaultRange(legs)[i] == Grid(Step(legs), i)
  {
    var span := TopStrike(legs) * 1.5;
    DivideGrid(span, i as real, STEPS as real);
  }

  lemma DivideGrid(span: real, i: real, n: real)
    requires n > 0.0
    ensures span * i / n == i * (span / n)
  {
    DivMul(span * i, n);
    DivMul(span, n);
  }

  /** `max_loss` is None exactly when the payoff has no lower bound on prices from 0 up; otherwise
      it is the least of the samples. */
  lemma LossVerdict(legs: seq<Leg>)
    requires legs != [] && PositiveStrikes(legs)
    ensures var maxLoss := Summarise(legs, DefaultRange(legs)).maxLoss;
            && (maxLoss.None? <==> UnboundedBelow(PayoffOf(legs)))
            && (maxLoss.None? <==> Slope(legs, TopStrike(legs)) < 0.0)
  {
    var f, top, slope, lots := PayoffOf(legs), TopStrike(legs), Slope(legs, TopStrike(legs)), TotalLots(legs);
    var v := Payoffs(legs, DefaultRange(legs));
    PayoffHasShape(legs);
    DefaultRangeSamples(legs);
    EdgeShowsSlope(f, top, slope, lots, Step(legs), v);
    UnboundedIffFalling(f, top, slope, lots);
  }

  /** A reported `max_loss` is the payoff at some price, and the true worst payoff is below it by
      at most half a grid step for each lot the combination holds. */
  lemma LossError(legs: seq<Leg>, worst: real)
    requires legs != [] && PositiveStrikes(legs) && IsInfimum(PayoffOf(legs), worst)
    requires Summarise(legs, DefaultRange(legs)).maxLoss.Some?
    ensures var reported := Summarise(legs, DefaultRange(legs)).maxLoss.value;
            worst <= reported <= worst + GridError(legs)
  {
    LossVerdict(legs);
    PayoffHasShape(legs);
    DefaultRangeSamples(legs);
    SampledInfimum(PayoffOf(legs), TopStrike(legs), Slope(legs, TopStrike(legs)), TotalLots(legs), Step(legs),
                   Payoffs(legs, DefaultRange(legs)), worst);
  }

  // ------------------------------------------------------ where the true extremes are

  /** The floor of the price domain and the strikes. */
  function Kinks(legs: seq<Leg>): (kinks: seq<real>)
    ensures |kinks| == |legs| + 1 && kinks[0] == 0.0
    ensures forall i :: 0 <= i < |legs| ==> kinks[i + 1] == legs[i].strike
  {
    [0.0] + Strikes(legs)
  }

  lemma {:induction false} LastAtMost(kinks: seq<real>, p: real) returns (j: nat)
    requires kinks != [] && kinks[0] <= p
    ensures j < |kinks| && kinks[j] <= p && forall i :: 0 <= i < |kinks| ==> kinks[i] <= kinks[j] || kinks[i] > p
  {
    if |kinks| == 1 {
      j := 0;
    } else {
      var n := |kinks| - 1;
      j := LastAtMost(kinks[..n], p);
      if kinks[j] < kinks[n] <= p {
        j := n;
      }
    }
  }

  lemma {:induction false} FirstAbove(kinks: seq<real>, p: real) returns (j: Option<nat>)
    ensures j.None? ==> forall i :: 0 <= i < |kinks| ==> kinks[i] <= p
    ensures j.Some? ==> j.value < |kinks| && kinks[j.value] > p
    ensures j.Some? ==> forall i :: 0 <= i < |kinks| ==> kinks[i] >= kinks[j.value] || kinks[i] <= p
  {
    if kinks == [] {
      j := None;
    } else {
      var n := |kinks| - 1;
      j := FirstAbove(kinks[..n], p);
      if kinks[n] > p && (j.None? || kinks[n] < kinks[j.value]) {
        j := Some(n);
      }
    }
  }

  /** Between two points of a straight stretch the curve is nowhere below both ends. */
  lemma StraightAboveAnEnd(f: real -> real, slope: real, a: real, p: real, b: real)
    requires a <= p <= b && StraightAt(f, a, slope, p) && StraightAt(f, a, slope, b)
    ensures f(a) <= f(p) || f(b) <= f(p)
  {
    if slope >= 0.0 {
      ProductSign(slope, p - a);
    } else {
      ScaledLess(-slope, p - a, b - a);
      assert -slope * (p - a) == -(slope * (p - a)) && -slope * (b - a) == -(slope * (b - a));
    }
  }

  lemma TopStrikeIndex(legs: seq<Leg>) returns (top: nat)
    requires legs != []
    ensures top < |legs| && legs[top].strike == TopStrike(legs)
  {
    var strikes := Strikes(legs);
    MaxIsUpper(strikes);
    top :| 0 <= top < |strikes| && strikes[top] == MaxOf(strikes);
  }

  lemma SampleValues(legs: seq<Leg>, range: seq<real>)
    ensures forall i :: 0 <= i < |range| ==> Payoffs(legs, range)[i] == PayoffOf(legs)(range[i])
  {}

  lemma SomeKinkIsNoHigher(legs: seq<Leg>, p: real) returns (j: nat)
    requires legs != [] && PositiveStrikes(legs) && p >= 0.0 && Slope(legs, TopStrike(legs)) >= 0.0
    ensures j < |Kinks(legs)| && PayoffOf(legs)(Kinks(legs)[j]) <= PayoffOf(legs)(p)
  {
    hide *;
    var f, kinks := PayoffOf(legs), Kinks(legs);
    var a := LastAtMost(kinks, p);
    var b := FirstAbove(kinks, p);
    if b.None? {
      var top := TopStrikeIndex(legs);
      TopIsNoHigher(legs, p);
      j := top + 1;
    } else {
      var low, high := kinks[a], kinks[b.value];
      forall i | 0 <= i < |legs| ensures legs[i].strike <= low || legs[i].strike >= high {
        assert kinks[i + 1] == legs[i].strike;
      }
      AnEndIsNoHigher(legs, low, p, high);
      j := if f(low) <= f(p) then a else b.value;
    }
  }

  lemma TopIsNoHigher(legs: seq<Leg>, p: real)
    requires legs != [] && PositiveStrikes(legs) && p >= TopStrike(legs) && Slope(legs, TopStrike(legs)) >= 0.0
    ensures PayoffOf(legs)(TopStrike(legs)) <= PayoffOf(legs)(p)
  {
    hide *;
    PayoffHasShape(legs);
    RisesFrom(PayoffOf(legs), TopStrike(legs), Slope(legs, TopStrike(legs)), TotalLots(legs), TopStrike(legs), p);
  }

  lemma AnEndIsNoHigher(legs: seq<Leg>, low: real, p: real, high: real)
    requires 0.0 <= low <= p < high
    requires forall i :: 0 <= i < |legs| ==> legs[i].strike <= low || legs[i].strike >= high
    ensures PayoffOf(legs)(low) <= PayoffOf(legs)(p) || PayoffOf(legs)(high) <= PayoffOf(legs)(p)
  {
    hide PayoffOf, TotalPayoff, Slope, StraightAt;
    PayoffStraightBetween(legs, low, high, p);
    PayoffStraightBetween(legs, low, high, high);
    StraightAboveAnEnd(PayoffOf(legs), Slope(legs, low), low, p, high);
  }

  /** When the payoff is bounded below, its true worst is reached, at price 0 or at a strike. */
  lemma WorstIsAtAKink(legs: seq<Leg>)
    requires legs != [] && PositiveStrikes(legs) && Slope(legs, TopStrike(legs)) >= 0.0
    ensures IsInfimum(PayoffOf(legs), MinOf(Payoffs(legs, Kinks(legs))))
  {
    hide PayoffOf, TotalPayoff, Slope, Payoffs, MinOf, Kinks;
    var f, kinks := PayoffOf(legs), Kinks(legs);
    var v := Payoffs(legs, kinks);
    SampleValues(legs, kinks);
    MinIsLower(v);
    forall p: real | p >= 0.0 ensures f(p) >= MinOf(v) {
      var j := SomeKinkIsNoHigher(legs, p);
      assert v[j] >= MinOf(v);
    }
    var j :| 0 <= j < |v| && v[j] == MinOf(v);
    assert kinks[j] >= 0.0 by {
      if j > 0 {
        assert legs[j - 1].strike > 0.0;
      }
    }
    forall above: real | above > MinOf(v) ensures GoesBelow(f, above) {
      assert f(kinks[j]) < above;
    }
  }

  /** So the reported loss is within the grid error of the payoff at the worst kink. */
  lemma LossNearWorstKink(legs: seq<Leg>)
    requires legs != [] && PositiveStrikes(legs) && Summarise(legs, DefaultRange(legs)).maxLoss.Some?
    ensures var reported, worst := Summarise(legs, DefaultRange(legs)).maxLoss.value, MinOf(Payoffs(legs, Kinks(legs)));
            worst <= reported <= worst + GridError(legs)
  {
    hide TotalPayoff, Summarise, MinOf;
    LossVerdict(legs);
    WorstIsAtAKink(legs);
    LossError(legs, MinOf(Payoffs(legs, Kinks(legs))));
  }

  // ----------------------------------------------------------------- the profit side

  ghost predicate GoesAbove(f: real -> real, bound: real) {
    exists p: real :: p >= 0.0 && f(p) > bound
  }

  ghost predicate UnboundedAbove(f: real -> real) {
    forall bound: real :: GoesAbove(f, bound)
  }

  ghost predicate IsSupremum(f: real -> real, value: real) {
    && (forall p: real :: p >= 0.0 ==> f(p) <= value)
    && (forall below: real :: below < value ==> GoesAbove(f, below))
  }

  function Mirrored(legs: seq<Leg>): (m: seq<Leg>)
    ensures |m| == |legs| && forall i :: 0 <= i < |legs| ==> m[i] == legs[i].(direction := legs[i].direction.Opposite())
  {
    seq(|legs|, i requires 0 <= i < |legs| => legs[i].(direction := legs[i].direction.Opposite()))
  }

  /** Selling what is bought and buying what is sold turns the payoff upside down. */
  lemma MirrorNegates(legs: seq<Leg>, p: real)
    ensures TotalPayoff(Mirrored(legs), p) == -TotalPayoff(legs, p)
  {
    var f, none := PayoffAt(p), NONE;
    forall i | 0 <= i < |legs| ensures f(Mirrored(legs)[i]) == -f(legs[i]) {
      LegMirrored(legs[i], p);
    }
    SumsPair(legs, Mirrored(legs), f, f, true, none);
    SumOfNothing(legs);
  }

  lemma LegMirrored(leg: Leg, p: real)
    ensures LegPayoff(leg.(direction := leg.direction.Opposite()), p) == -LegPayoff(leg, p)
  {}

  lemma MirrorKeepsLots(legs: seq<Leg>)
    ensures TotalLots(Mirrored(legs)) == TotalLots(legs)
  {
    var f, none := LOTS, NONE;
    SumsPair(legs, Mirrored(legs), f, f, false, none);
    SumOfNothing(legs);
  }

  lemma {:induction false} MaxMirrors(w: seq<real>, v: seq<real>)
    requires w != [] && |v| == |w| && forall i :: 0 <= i < |w| ==> v[i] == -w[i]
    ensures MinOf(v) == -MaxOf(w)
  {
    if |w| > 1 {
      MaxMirrors(w[..|w| - 1], v[..|v| - 1]);
    }
  }

  lemma MirrorSummary(legs: seq<Leg>)
    requires legs != []
    ensures DefaultRange(Mirrored(legs)) == DefaultRange(legs) && Step(Mirrored(legs)) == Step(legs)
    ensures var s, m := Summarise(legs, DefaultRange(legs)), Summarise(Mirrored(legs), DefaultRange(legs));
            m.maxLoss == if s.maxProfit.None? then None else Some(-s.maxProfit.value)
  {
    var range := DefaultRange(legs);
    assert Strikes(Mirrored(legs)) == Strikes(legs);
    var w, v := Payoffs(legs, range), Payoffs(Mirrored(legs), range);
    forall i | 0 <= i < |range| ensures v[i] == -w[i] {
      MirrorNegates(legs, range[i]);
    }
    MaxMirrors(w, v);
  }

  lemma MirrorBounds(f: real -> real, g: real -> real, value: real)
    requires forall p :: g(p) == -f(p)
    ensures GoesBelow(g, -value) <==> GoesAbove(f, value)
  {
    if GoesBelow(g, -value) {
      var p: real :| p >= 0.0 && g(p) < -value;
      assert f(p) > value;
    }
    if GoesAbove(f, value) {
      var p: real :| p >= 0.0 && f(p) > value;
      assert g(p) < -value;
    }
  }

  lemma MirrorUnbounded(f: real -> real, g: real -> real)
    requires forall p :: g(p) == -f(p)
    ensures UnboundedBelow(g) <==> UnboundedAbove(f)
  {
    if UnboundedBelow(g) {
      forall bound: real ensures GoesAbove(f, bound) {
        MirrorBounds(f, g, bound);
      }
    }
    if UnboundedAbove(f) {
      forall bound: real ensures GoesBelow(g, bound) {
        MirrorBounds(f, g, -bound);
      }
    }
  }

  lemma MirrorSupremum(f: real -> real, g: real -> real, best: real)
    requires (forall p :: g(p) == -f(p)) && IsSupremum(f, best)
    ensures IsInfimum(g, -best)
  {
    forall above: real | above > -best ensures GoesBelow(g, above) {
      MirrorBounds(f, g, -above);
    }
  }

  lemma MirrorPayoff(legs: seq<Leg>)
    ensures forall p :: PayoffOf(Mirrored(legs))(p) == -PayoffOf(legs)(p)
  {
    forall p ensures PayoffOf(Mirrored(legs))(p) == -PayoffOf(legs)(p) {
      MirrorNegates(legs, p);
    }
  }

  /** `max_profit` is None exactly when the payoff has no upper bound on prices from 0 up. */
  lemma ProfitVerdict(legs: seq<Leg>)
    requires legs != [] && PositiveStrikes(legs)
    ensures Summarise(legs, DefaultRange(legs)).maxProfit.None? <==> UnboundedAbove(PayoffOf(legs))
  {
    var m := Mirrored(legs);
    MirrorSummary(legs);
    LossVerdict(m);
    MirrorPayoff(legs);
    MirrorUnbounded(PayoffOf(legs), PayoffOf(m));
  }

  /** A reported `max_profit` misses the true best payoff by at most half a grid step per lot. */
  lemma ProfitError(legs: seq<Leg>, best: real)
    requires legs != [] && PositiveStrikes(legs) && IsSupremum(PayoffOf(legs), best)
    requires Summarise(legs, DefaultRange(legs)).maxProfit.Some?
    ensures var reported := Summarise(legs, DefaultRange(legs)).maxProfit.value;
            best - GridError(legs) <= reported <= best
  {
    var m := Mirrored(legs);
    MirrorSummary(legs);
    MirrorKeepsLots(legs);
    MirrorPayoff(legs);
    MirrorSupremum(PayoffOf(legs), PayoffOf(m), best);
    LossError(m, -best);
  }

  lemma MirrorKinks(legs: seq<Leg>)
    ensures Kinks(Mirrored(legs)) == Kinks(legs)
    ensures MinOf(Payoffs(Mirrored(legs), Kinks(legs))) == -MaxOf(Payoffs(legs, Kinks(legs)))
  {
    assert Strikes(Mirrored(legs)) == Strikes(legs);
    var kinks := Kinks(legs);
    forall i | 0 <= i < |kinks| ensures Payoffs(Mirrored(legs), kinks)[i] == -Payoffs(legs, kinks)[i] {
      MirrorNegates(legs, kinks[i]);
    }
    MaxMirrors(Payoffs(legs, kinks), Payoffs(Mirrored(legs), kinks));
  }

  /** When the payoff is bounded above, its true best is reached, at price 0 or at a strike. */
  lemma BestIsAtAKink(legs: seq<Leg>)
    requires legs != [] && PositiveStrikes(legs) && Summarise(legs, DefaultRange(legs)).maxProfit.Some?
    ensures IsSupremum(PayoffOf(legs), MaxOf(Payoffs(legs, Kinks(legs))))
  {
    var m := Mirrored(legs);
    assert m != [] && PositiveStrikes(m);
    MirrorSummary(legs);
    MirrorPayoff(legs);
    MirrorKinks(legs);
    hide *;
    LossVerdict(m);
    WorstIsAtAKink(m);
    MirrorInfimum(PayoffOf(legs), PayoffOf(m), MaxOf(Payoffs(legs, Kinks(legs))));
  }

  /** And the reported profit is within the grid error of it. */
  lemma ProfitNearBestKink(legs: seq<Leg>)
    requires legs != [] && PositiveStrikes(legs) && Summarise(legs, DefaultRange(legs)).maxProfit.Some?
    ensures var reported := Summarise(legs, DefaultRange(legs)).maxProfit.value;
            var best := MaxOf(Payoffs(legs, Kinks(legs)));
            && best - GridError(legs) <= reported <= best
            && IsSupremum(PayoffOf(legs), best)
  {
    hide *;
    BestIsAtAKink(legs);
    ProfitError(legs, MaxOf(Payoffs(legs, Kinks(legs))));
  }

  lemma MirrorInfimum(f: real -> real, g: real -> real, best: real)
    requires (forall p :: g(p) == -f(p)) && IsInfimum(g, -best)
    ensures IsSupremum(f, best)
  {
    forall p: real | p >= 0.0 ensures f(p) <= best {
      assert g(p) >= -best;
    }
    forall below: real | below < best ensures GoesAbove(f, below) {
      MirrorBounds(f, g, below);
    }
  }

  // ------------------------------------------------------------------------ break-evens

  lemma ShareIsProper(whole: real, gap: real, rise: real)
    requires whole > 0.0 && 0.0 < gap < rise
    ensures 0.0 < Share(whole, gap, rise) < whole
    ensures Share(whole, gap, rise) * rise == whole * gap
  {
    DivMul(whole * gap, rise);
    assert 0.0 < whole * gap < whole * rise;
    DivOrder(whole * gap, rise, 0.0);
    DivOrder(whole * gap, rise, whole);
  }

  lemma ShareNegated(whole: real, gap: real, rise: real)
    requires rise > 0.0
    ensures Share(whole, -gap, -rise) == Share(whole, gap, rise)
  {
    assert whole * -gap == -(whole * gap);
  }

  lemma CrossingIsBetween(p1: real, v1: real, p2: real, v2: real)
    requires p1 < p2 && v1 * v2 < 0.0
    ensures v1 != v2 && p1 < Crossing(p1, v1, p2, v2) < p2
    ensures (Crossing(p1, v1, p2, v2) - p1) * (v2 - v1) == (p2 - p1) * -v1
  {
    OppositeSignsDiffer(v1, v2);
    if v1 < 0.0 {
      ShareIsProper(p2 - p1, -v1, v2 - v1);
    } else {
      ShareIsProper(p2 - p1, v1, v1 - v2);
      ShareNegated(p2 - p1, v1, v1 - v2);
      assert -(v1 - v2) == v2 - v1;
    }
  }

  /** On a straight stretch the zero of the chord is a zero of the curve. */
  lemma CrossingIsZero(f: real -> real, slope: real, p1: real, p2: real, b: real)
    requires p1 < b < p2 && StraightAt(f, p1, slope, p2) && StraightAt(f, p1, slope, b)
    requires (b - p1) * (f(p2) - f(p1)) == (p2 - p1) * -f(p1)
    ensures f(b) == 0.0
  {
    ChordZero(slope, b - p1, p2 - p1, f(p1), f(p2));
  }

  lemma PayoffStraightBetween(legs: seq<Leg>, low: real, high: real, p: real)
    requires low <= p <= high && NoKinkBetween(legs, low, high)
    ensures StraightAt(PayoffOf(legs), low, Slope(legs, low), p)
  {
    LinearBetweenStrikes(legs, low, high, p);
  }

  /** A reported break-even strictly between two samples, exact when no strike is. */
  predicate BreakevenBetween(legs: seq<Leg>, p1: real, p2: real, b: real) {
    p1 < b < p2 && (NoKinkBetween(legs, p1, p2) ==> PayoffOf(legs)(b) == 0.0)
  }

  lemma ReportedBetween(legs: seq<Leg>, p1: real, v1: real, p2: real, v2: real, b: real)
    requires p1 < b < p2 && v1 == PayoffOf(legs)(p1) && v2 == PayoffOf(legs)(p2)
    requires (b - p1) * (v2 - v1) == (p2 - p1) * -v1
    ensures BreakevenBetween(legs, p1, p2, b)
  {
    hide TotalPayoff;
    if NoKinkBetween(legs, p1, p2) {
      PayoffStraightBetween(legs, p1, p2, p2);
      PayoffStraightBetween(legs, p1, p2, b);
      CrossingIsZero(PayoffOf(legs), Slope(legs, p1), p1, p2, b);
    }
  }

  /** The break-even reported between two neighbouring samples of opposite sign. */
  lemma ReportedAt(legs: seq<Leg>, p1: real, v1: real, p2: real, v2: real) returns (b: real)
    requires p1 < p2 && v1 == PayoffOf(legs)(p1) && v2 == PayoffOf(legs)(p2) && v1 * v2 < 0.0
    ensures b in BreakevenAt(p1, v1, p2, v2) && BreakevenBetween(legs, p1, p2, b)
  {
    b := CrossingOf(p1, v1, p2, v2);
    ReportedBetween(legs, p1, v1, p2, v2, b);
  }

  /** Where two neighbouring samples have opposite signs, the price reported lies strictly between
      them, and it is an exact break-even when no strike does. */
  lemma SignChangeGivesBreakeven(legs: seq<Leg>, range: seq<real>, v: seq<real>, i: nat)
    requires i + 1 < |range| && range[i] < range[i + 1]
    requires v == Payoffs(legs, range) && v[i] * v[i + 1] < 0.0
    ensures exists b :: b in Breakevens(range, v, |range|) && BreakevenBetween(legs, range[i], range[i + 1], b)
  {
    var b := ReportedAt(legs, range[i], v[i], range[i + 1], v[i + 1]);
    BreakevenListed(range, v, |range|, i, b);
  }

  lemma CrossingOf(p1: real, v1: real, p2: real, v2: real) returns (b: real)
    requires p1 < p2 && v1 * v2 < 0.0
    ensures p1 < b < p2 && b in BreakevenAt(p1, v1, p2, v2)
    ensures (b - p1) * (v2 - v1) == (p2 - p1) * -v1
  {
    CrossingIsBetween(p1, v1, p2, v2);
    OppositeSignsDiffer(v1, v2);
    b := Crossing(p1, v1, p2, v2);
  }

  lemma ChordZero(slope: real, part: real, whole: real, v1: real, v2: real)
    requires whole > 0.0 && v2 - v1 == slope * whole && part * (v2 - v1) == whole * -v1
    ensures v1 + slope * part == 0.0
  {
    assert whole * (v1 + slope * part) == whole * v1 + part * (slope * whole);
    assert whole * (v1 + slope * part) == 0.0;
  }

  lemma {:induction false} BreakevenListed(range: seq<real>, v: seq<real>, n: nat, i: nat, b: real)
    requires |v| == |range| && i + 1 < n <= |range| && b in BreakevenAt(range[i], v[i], range[i + 1], v[i + 1])
    ensures b in Breakevens(range, v, n)
  {
    hide BreakevenAt;
    if i + 2 < n {
      BreakevenListed(range, v, n - 1, i, b);
    }
  }

  /** Every break-even reported is the left sample of a pair, at zero, or a sign change of one: a
      zero at the last sample alone is in no such place. */
  lemma {:induction false} BreakevensComeFromPairs(range: seq<real>, v: seq<real>, n: nat, b: real)
    requires |v| == |range| && n <= |range| && b in Breakevens(range, v, n)
    ensures exists i :: 0 <= i < n - 1 && b in BreakevenAt(range[i], v[i], range[i + 1], v[i + 1])
  {
    hide BreakevenAt;
    if b in Breakevens(range, v, n - 1) {
      BreakevensComeFromPairs(range, v, n - 1, b);
    } else {
      assert b in BreakevenAt(range[n - 2], v[n - 2], range[n - 1], v[n - 1]);
    }
  }

  predicate Ascending(range: seq<real>) {
    forall i, j :: 0 <= i < j < |range| ==> range[i] < range[j]
  }

  /** Nothing reported reaches the last sample: a zero is reported at the left of its pair, and a
      crossing lies strictly before the right. */
  lemma BreakevensAreBeforeTheLast(range: seq<real>, v: seq<real>, b: real)
    requires |v| == |range| && Ascending(range) && b in Breakevens(range, v, |range|)
    ensures b < range[|range| - 1]
  {
    hide BreakevenAt, Breakevens;
    BreakevensComeFromPairs(range, v, |range|, b);
    var i :| 0 <= i < |range| - 1 && b in BreakevenAt(range[i], v[i], range[i + 1], v[i + 1]);
    PairReportsBeforeItsRight(range[i], v[i], range[i + 1], v[i + 1], b);
  }

  lemma PairReportsBeforeItsRight(p1: real, v1: real, p2: real, v2: real, b: real)
    requires p1 < p2 && b in BreakevenAt(p1, v1, p2, v2)
    ensures b < p2
  {
    if v1 != 0.0 {
      CrossingIsBetween(p1, v1, p2, v2);
    }
  }

  /** A sample at which the payoff is exactly zero is reported if and only if it is not the last. */
  lemma ZeroIsReportedIff(range: seq<real>, v: seq<real>, i: nat)
    requires |v| == |range| && Ascending(range) && i < |range| && v[i] == 0.0
    ensures range[i] in Breakevens(range, v, |range|) <==> i < |range| - 1
  {
    if i < |range| - 1 {
      BreakevenListed(range, v, |range|, i, range[i]);
    } else if range[i] in Breakevens(range, v, |range|) {
      BreakevensAreBeforeTheLast(range, v, range[i]);
      assert false;
    }
  }

  /** What is reported strictly between two neighbouring samples: something exactly when their signs
      are opposite. A zero of the payoff between two samples of one sign, or next to a zero sample, is
      missed. */
  lemma ReportedInsideIff(range: seq<real>, v: seq<real>, i: nat)
    requires |v| == |range| && Ascending(range) && i + 1 < |range|
    ensures (exists b :: b in Breakevens(range, v, |range|) && range[i] < b < range[i + 1]) <==> v[i] * v[i + 1] < 0.0
  {
    if v[i] * v[i + 1] < 0.0 {
      var b := CrossingOf(range[i], v[i], range[i + 1], v[i + 1]);
      BreakevenListed(range, v, |range|, i, b);
    } else {
      forall b | b in Breakevens(range, v, |range|) ensures !(range[i] < b < range[i + 1]) {
        NotInsideThisPair(range, v, i, b);
      }
    }
  }

  lemma NotInsideThisPair(range: seq<real>, v: seq<real>, i: nat, b: real)
    requires |v| == |range| && Ascending(range) && i + 1 < |range| && !(v[i] * v[i + 1] < 0.0)
    requires b in Breakevens(range, v, |range|)
    ensures !(range[i] < b < range[i + 1])
  {
    BreakevensComeFromPairs(range, v, |range|, b);
    hide Breakevens;
    var j :| 0 <= j < |range| - 1 && b in BreakevenAt(range[j], v[j], range[j + 1], v[j + 1]);
    PairReportsFromItsLeft(range[j], v[j], range[j + 1], v[j + 1], b);
    hide BreakevenAt;
    assert j < i ==> range[j + 1] <= range[i];
    assert j > i ==> range[i + 1] <= range[j];
  }

  lemma PairReportsFromItsLeft(p1: real, v1: real, p2: real, v2: real, b: real)
    requires p1 < p2 && b in BreakevenAt(p1, v1, p2, v2)
    ensures p1 <= b < p2 && (b == p1 || v1 * v2 < 0.0)
  {
    if v1 != 0.0 {
      CrossingIsBetween(p1, v1, p2, v2);
    }
  }

  /** Missing one takes a strike: on a straight stretch the samples around a zero have opposite signs,
      or are zero themselves. */
  lemma MissedZeroNeedsAStrike(legs: seq<Leg>, p1: real, p2: real, z: real)
    requires p1 < z < p2 && PayoffOf(legs)(z) == 0.0 && PayoffOf(legs)(p1) * PayoffOf(legs)(p2) > 0.0
    ensures !NoKinkBetween(legs, p1, p2)
  {
    hide PayoffOf, TotalPayoff, Slope, NoKinkBetween;
    if NoKinkBetween(legs, p1, p2) {
      PayoffStraightBetween(legs, p1, p2, z);
      PayoffStraightBetween(legs, p1, p2, p2);
      EndsOfALine(PayoffOf(legs)(p1), PayoffOf(legs)(p2), Slope(legs, p1), z - p1, p2 - p1);
      assert false;
    }
  }

  lemma EndsOfALine(v1: real, v2: real, slope: real, part: real, whole: real)
    requires 0.0 < part < whole && v1 + slope * part == 0.0 && v2 == v1 + slope * whole
    ensures v1 * v2 <= 0.0
  {
    assert v2 == slope * (whole - part);
    assert v1 == -(slope * part);
    assert slope * slope >= 0.0 by { SquareNotNegative(slope); }
    assert part * (whole - part) > 0.0;
    ProductNotNegative(slope * slope, part * (whole - part));
    assert v1 * v2 == -((slope * slope) * (part * (whole - part)));
  }

  lemma SquareNotNegative(x: real)
    ensures x * x >= 0.0
  {
    if x < 0.0 {
      assert x * x == -x * -x;
    }
  }

  lemma ProductNotNegative(x: real, y: real)
    requires x >= 0.0 && y >= 0.0
    ensures x * y >= 0.0
  {}

  /** The strikes strictly inside an interval. */
  ghost function KinksInside(legs: seq<Leg>, low: real, high: real): set<nat> {
    set i: nat | i < |legs| && low < legs[i].strike < high
  }

  lemma InsideShrinks(legs: seq<Leg>, low: real, high: real, i: nat)
    requires i in KinksInside(legs, low, high)
    ensures KinksInside(legs, low, legs[i].strike) < KinksInside(legs, low, high)
    ensures KinksInside(legs, legs[i].strike, high) < KinksInside(legs, low, high)
  {
    assert i !in KinksInside(legs, low, legs[i].strike) && i !in KinksInside(legs, legs[i].strike, high);
  }

  /** A payoff of opposite signs at two prices is zero somewhere strictly between them. */
  lemma {:induction false} ZeroBetween(legs: seq<Leg>, p1: real, p2: real) returns (z: real)
    requires p1 < p2 && PayoffOf(legs)(p1) * PayoffOf(legs)(p2) < 0.0
    ensures p1 < z < p2 && PayoffOf(legs)(z) == 0.0
    decreases KinksInside(legs, p1, p2)
  {
    hide PayoffOf, TotalPayoff, Slope;
    var f := PayoffOf(legs);
    if i: nat :| i in KinksInside(legs, p1, p2) {
      var k := legs[i].strike;
      InsideShrinks(legs, p1, p2, i);
      hide KinksInside;
      SignSplits(f(p1), f(k), f(p2));
      if f(k) == 0.0 {
        z := k;
      } else if f(p1) * f(k) < 0.0 {
        z := ZeroBetween(legs, p1, k);
      } else {
        z := ZeroBetween(legs, k, p2);
      }
    } else {
      NoneInside(legs, p1, p2);
      z := CrossingOf(p1, f(p1), p2, f(p2));
      ReportedBetween(legs, p1, f(p1), p2, f(p2), z);
    }
  }

  lemma NoneInside(legs: seq<Leg>, low: real, high: real)
    requires KinksInside(legs, low, high) == {}
    ensures NoKinkBetween(legs, low, high)
  {
    forall i: nat | i < |legs| ensures !(low < legs[i].strike < high) {
      assert i !in KinksInside(legs, low, high);
    }
  }

  lemma SignSplits(a: real, b: real, c: real)
    requires a * c < 0.0
    ensures b == 0.0 || a * b < 0.0 || b * c < 0.0
  {
    OppositeSignsDiffer(a, c);
    if b != 0.0 {
      if (a > 0.0) == (b > 0.0) {
        SignsMultiply(b, c);
      } else {
        SignsMultiply(a, b);
      }
    }
  }

  /** So a break-even reported between two samples has a true one within less than their distance,
      which on the default range is one grid step, whatever strikes lie between them. */
  lemma ReportedIsNearAZero(legs: seq<Leg>, range: seq<real>, v: seq<real>, i: nat)
    requires Ascending(range) && i + 1 < |range| && v == Payoffs(legs, range) && v[i] * v[i + 1] < 0.0
    ensures exists b, z :: b in Breakevens(range, v, |range|) && PayoffOf(legs)(z) == 0.0
                           && range[i] < b < range[i + 1] && Abs(b - z) < range[i + 1] - range[i]
  {
    hide TotalPayoff, Breakevens, BreakevenAt;
    SampleValues(legs, range);
    var b := CrossingOf(range[i], v[i], range[i + 1], v[i + 1]);
    BreakevenListed(range, v, |range|, i, b);
    var z := ZeroBetween(legs, range[i], range[i + 1]);
    assert b in Breakevens(range, v, |range|) && PayoffOf(legs)(z) == 0.0;
  }

  lemma SignsMultiply(x: real, y: real)
    requires (x > 0.0 && y < 0.0) || (x < 0.0 && y > 0.0)
    ensures x * y < 0.0
  {}

  lemma {:induction false} NothingReportedAboveZero(range: seq<real>, v: seq<real>, n: nat)
    requires |v| == |range| && n <= |range| && forall i :: 0 <= i < |v| ==> v[i] > 0.0
    ensures Breakevens(range, v, n) == []
  {
    if n > 1 {
      NothingReportedAboveZero(range, v, n - 1);
      ProductSign(v[n - 2], v[n - 1]);
    }
  }

  lemma DefaultRangeAscends(legs: seq<Leg>)
    requires legs != [] && PositiveStrikes(legs)
    ensures Ascending(DefaultRange(legs))
  {
    var range := DefaultRange(legs);
    TopStrikeIsTop(legs);
    var h := Step(legs);
    forall i, j | 0 <= i < j < |range| ensures range[i] < range[j] {
      GridAscends(TopStrike(legs) * 1.5, i, j);
    }
  }

  lemma GridAscends(span: real, i: nat, j: nat)
    requires span > 0.0 && i < j
    ensures span * i as real / STEPS as real < span * j as real / STEPS as real
  {
    assert span * (j - i) as real > 0.0;
    assert span * j as real == span * i as real + span * (j - i) as real;
  }

  lemma SumOfOne(leg: Leg, amount: Leg -> real)
    ensures SumOver([leg], amount) == amount(leg)
  {
    assert [leg][..0] == [] && SumOver([leg][..0], amount) == 0.0;
  }

  /** So a long call struck at 100 for a premium of 50 breaks even at 150, the last price of its
      default range, and no break-even at 150 is reported. */
  lemma BreakevenAtTheEdgeIsLost(leg: Leg)
    requires leg == Leg(CALL, 100.0, 50.0, 1.0, LONG, 1)
    ensures TotalPayoff([leg], 150.0) == 0.0 && DefaultRange([leg])[STEPS] == 150.0
    ensures 150.0 !in Summarise([leg], DefaultRange([leg])).breakevens
  {
    var legs, range := [leg], DefaultRange([leg]);
    assert Strikes(legs) == [100.0];
    assert range[STEPS] == 150.0;
    SumOfOne(leg, PayoffAt(150.0));
    assert LegPayoff(leg, 150.0) == 0.0;
    assert TotalPayoff(legs, 150.0) == 0.0;
    assert Payoffs(legs, range)[STEPS] == TotalPayoff(legs, range[STEPS]);
    DefaultRangeAscends(legs);
    ZeroIsReportedIff(range, Payoffs(legs, range), STEPS);
  }

  /** A call and a put bought at 100 for one hundredth each. */
  const CHEAP_STRADDLE := [Leg(CALL, 100.0, 0.01, 1.0, LONG, 1), Leg(PUT, 100.0, 0.01, 1.0, LONG, 1)]

  lemma StraddlePayoff(p: real)
    ensures TotalPayoff(CHEAP_STRADDLE, p) == Abs(p - 100.0) - 0.02
  {
    var f := PayoffAt(p);
    assert CHEAP_STRADDLE[..1] == [CHEAP_STRADDLE[0]] && CHEAP_STRADDLE[..1][..0] == [];
    assert SumOver(CHEAP_STRADDLE[..1], f) == LegPayoff(CHEAP_STRADDLE[0], p);
    assert LegPayoff(CHEAP_STRADDLE[0], p) == Max(p - 100.0, 0.0) - 0.01;
    assert LegPayoff(CHEAP_STRADDLE[1], p) == Max(100.0 - p, 0.0) - 0.01;
  }

  /** Zeros are missed around a strike off the grid: this straddle breaks even at 99.98 and at 100.02,
      the samples next to them are 99.975 and 100.05, and no break-even is reported at all. */
  lemma StraddleBreakevensAreMissed()
    ensures TotalPayoff(CHEAP_STRADDLE, 99.98) == 0.0 && TotalPayoff(CHEAP_STRADDLE, 100.02) == 0.0
    ensures Summarise(CHEAP_STRADDLE, DefaultRange(CHEAP_STRADDLE)).breakevens == []
  {
    StraddlePayoff(99.98);
    StraddlePayoff(100.02);
    var range := DefaultRange(CHEAP_STRADDLE);
    var v := Payoffs(CHEAP_STRADDLE, range);
    assert Strikes(CHEAP_STRADDLE) == [100.0, 100.0];
    forall i | 0 <= i < |v| ensures v[i] > 0.0 {
      StraddlePayoff(range[i]);
      assert range[i] == 0.075 * i as real;
      assert i <= 1333 || i >= 1334;
    }
    NothingReportedAboveZero(range, v, |range|);
  }

  /** The payoff is what the legs are worth at expiry less the net premium paid for them. */
  lemma PayoffIsWorthLessPremium(legs: seq<Leg>, p: real)
    ensures TotalPayoff(legs, p) == TotalPayoff(Free(legs), p) - Premiums(legs)
  {
    var f, cost := PayoffAt(p), PREMIUM;
    forall i | 0 <= i < |legs| ensures f(Free(legs)[i]) == f(legs[i]) + cost(legs[i]) {
      LegPaysPremium(legs[i], p);
    }
    SumsPair(legs, Free(legs), f, f, false, cost);
  }

  lemma LegPaysPremium(leg: Leg, p: real)
    ensures LegPayoff(leg.(premium := 0.0), p) == LegPayoff(leg, p) + PremiumOf(leg)
  {}

  /** The same legs at no premium. */
  function Free(legs: seq<Leg>): (f: seq<Leg>)
    ensures |f| == |legs| && forall i :: 0 <= i < |legs| ==> f[i] == legs[i].(premium := 0.0)
  {
    seq(|legs|, i requires 0 <= i < |legs| => legs[i].(premium := 0.0))
  }
}
