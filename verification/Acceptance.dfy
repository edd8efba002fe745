/**
 When does a route, paid the computed input plus the slippage buffer, yield the requested output? Every
 rounding loses less than one unit, so only routes that lose money on paper are rejected for good.
 */
module Acceptance {
  import opened Wrappers
  import opened Words
  import opened Pricing

  const BPS: int := 10000

  // amount * (10000 + slippage) / 10000
  function AddSlippageBuffer(amount: u256, slippage: nat): (r: int)
    ensures 0 <= r <= MAX_U256
  {
    SaturatingMul(amount, BPS + slippage) / BPS
  }

  // The amount and the slippage in parts of ten thousand, rounded down.
  lemma BufferIsFloor(amount: u256, slippage: nat)
    requires amount * (10_000 + slippage) <= MAX_U256
    ensures var r := AddSlippageBuffer(amount, slippage);
      r * 10_000 <= amount * (10_000 + slippage) < (r + 1) * 10_000
  {
  }

  // ----- chains of multiply-and-divide steps on unbounded integers -----

  datatype Step = Step(mul: nat, div: nat)

  ghost predicate ValidSteps(steps: seq<Step>) {
    forall s :: s in steps ==> s.div > 0
  }

  ghost function Run(steps: seq<Step>, x: nat): nat
    requires ValidSteps(steps)
  {
    if steps == [] then x
    else
      NonNegative(x, steps[0].mul, steps[0].div);
      Run(steps[1..], x * steps[0].mul / steps[0].div)
  }

  lemma NonNegative(x: nat, m: nat, d: nat)
    requires d > 0
    ensures x * m / d >= 0
  {
  }

  // No product on the way exceeds 256 bits.
  ghost predicate Fits(steps: seq<Step>, x: nat)
    requires ValidSteps(steps)
  {
    steps == [] ||
    (x * steps[0].mul <= MAX_U256 && (NonNegative(x, steps[0].mul, steps[0].div);
                                      Fits(steps[1..], x * steps[0].mul / steps[0].div)))
  }

  ghost function MulProduct(steps: seq<Step>): nat {
    if steps == [] then 1 else Product(steps[0].mul, MulProduct(steps[1..]))
  }

  ghost function DivProduct(steps: seq<Step>): nat {
    if steps == [] then 1 else Product(steps[0].div, DivProduct(steps[1..]))
  }

  ghost function Product(a: nat, b: nat): nat {
    Products(a, b);
    a * b
  }

  // What the roundings can cost in all, scaled by the product of the divisors.
  ghost function Loss(steps: seq<Step>): nat
    requires ValidSteps(steps)
  {
    if steps == [] then 0
    else Product(steps[0].div - 1, MulProduct(steps[1..])) + Product(steps[0].div, Loss(steps[1..]))
  }

  lemma {:induction false} RunUpperBound(steps: seq<Step>, x: nat)
    requires ValidSteps(steps)
    ensures Run(steps, x) * DivProduct(steps) <= x * MulProduct(steps)
  {
    if steps != [] {
      var m, d := steps[0].mul, steps[0].div;
      NonNegative(x, m, d);
      var y := x * m / d;
      RunUpperBound(steps[1..], y);
      Products(x, m);
      RoundingLoss(x * m, d);
      UpperStep(x, m, d, y, Run(steps[1..], y), DivProduct(steps[1..]), MulProduct(steps[1..]));
    }
  }

  lemma UpperStep(x: nat, m: nat, d: nat, y: nat, res: nat, D: nat, M: nat)
    requires y * d <= x * m && res * D <= y * M
    ensures res * (d * D) <= x * (m * M)
  {
    calc {
      res * (d * D);
    ==
      (res * D) * d;
    <= { MulMonotone(res * D, y * M, d, d); }
      (y * M) * d;
    ==
      (y * d) * M;
    <= { MulMonotone(y * d, x * m, M, M); }
      (x * m) * M;
    ==
      x * (m * M);
    }
  }

  lemma {:induction false} RunLowerBound(steps: seq<Step>, x: nat)
    requires ValidSteps(steps)
    ensures x * MulProduct(steps) <= Run(steps, x) * DivProduct(steps) + Loss(steps)
  {
    if steps != [] {
      var m, d := steps[0].mul, steps[0].div;
      NonNegative(x, m, d);
      var y := x * m / d;
      RunLowerBound(steps[1..], y);
      Products(x, m);
      RoundingLoss(x * m, d);
      LowerStep(x, m, d, y, Run(steps[1..], y), DivProduct(steps[1..]), MulProduct(steps[1..]), Loss(steps[1..]));
    }
  }

  lemma LowerStep(x: nat, m: nat, d: nat, y: nat, res: nat, D: nat, M: nat, L: nat)
    requires x * m <= y * d + (d - 1) && y * M <= res * D + L && d > 0
    ensures x * (m * M) <= res * (d * D) + ((d - 1) * M + d * L)
  {
    calc {
      x * (m * M);
    ==
      (x * m) * M;
    <= { MulMonotone(x * m, y * d + (d - 1), M, M); }
      (y * d + (d - 1)) * M;
    ==
      (y * M) * d + (d - 1) * M;
    <= { MulMonotone(y * M, res * D + L, d, d); }
      (res * D + L) * d + (d - 1) * M;
    ==
      res * (d * D) + ((d - 1) * M + d * L);
    }
  }

  lemma RoundingLoss(p: nat, d: nat)
    requires d > 0
    ensures (p / d) * d <= p <= (p / d) * d + (d - 1)
  {
  }

  lemma {:induction false} RunConcat(a: seq<Step>, b: seq<Step>, x: nat)
    requires ValidSteps(a) && ValidSteps(b)
    ensures ValidSteps(a + b)
    ensures Run(a + b, x) == Run(b, Run(a, x))
    ensures Fits(a + b, x) <==> Fits(a, x) && Fits(b, Run(a, x))
  {
    if a == [] {
      assert a + b == b;
    } else {
      assert (a + b)[1..] == a[1..] + b;
      NonNegative(x, a[0].mul, a[0].div);
      RunConcat(a[1..], b, x * a[0].mul / a[0].div);
    }
  }

  lemma {:induction false} ProductsConcat(a: seq<Step>, b: seq<Step>)
    ensures MulProduct(a + b) == MulProduct(a) * MulProduct(b)
    ensures DivProduct(a + b) == DivProduct(a) * DivProduct(b)
  {
    if a == [] {
      assert a + b == b;
    } else {
      assert (a + b)[1..] == a[1..] + b;
      ProductsConcat(a[1..], b);
      Associate(a[0].mul, MulProduct(a[1..]), MulProduct(b));
      Associate(a[0].div, DivProduct(a[1..]), DivProduct(b));
    }
  }

  lemma Associate(a: int, b: int, c: int)
    ensures a * (b * c) == (a * b) * c
  {
  }

  // Staying within 256 bits is inherited by smaller amounts.
  lemma {:induction false} FitsDownward(steps: seq<Step>, x: nat, y: nat)
    requires ValidSteps(steps) && Fits(steps, x) && y <= x
    ensures Fits(steps, y)
  {
    if steps != [] {
      MulMonotone(y, x, steps[0].mul, steps[0].mul);
      Products(y, steps[0].mul);
      DivMonotone(y * steps[0].mul, x * steps[0].mul, steps[0].div);
      FitsDownward(steps[1..], x * steps[0].mul / steps[0].div, y * steps[0].mul / steps[0].div);
    }
  }

  // ----- a route as such a chain -----

  function ForwardSteps(pools: seq<Pool>, route: seq<Token>): (steps: seq<Step>)
    requires ValidPools(pools) && Priced(pools, route)
    ensures ValidSteps(steps)
  {
    if |route| == 1 then []
    else [Step(HopRates(pools, route[0], route[1]).value.forward, SCALE)] + ForwardSteps(pools, route[1..])
  }

  function InverseSteps(pools: seq<Pool>, route: seq<Token>): (steps: seq<Step>)
    requires ValidPools(pools) && Priced(pools, route)
    ensures ValidSteps(steps)
  {
    if |route| == 1 then []
    else InverseSteps(pools, route[1..]) + [Step(HopRates(pools, route[0], route[1]).value.inverse, SCALE)]
  }

  // Every hop of the route has a pool.
  predicate Priced(pools: seq<Pool>, route: seq<Token>)
    requires ValidPools(pools)
  {
    route != [] && (|route| == 1 || (HopRates(pools, route[0], route[1]).Ok? && Priced(pools, route[1..])))
  }

  // Price back, add the buffer, price forward.
  function RouteSteps(pools: seq<Pool>, route: seq<Token>, slippage: nat): (steps: seq<Step>)
    requires ValidPools(pools) && Priced(pools, route)
    ensures ValidSteps(steps)
  {
    InverseSteps(pools, route) + [Step(BPS + slippage, BPS)] + ForwardSteps(pools, route)
  }

  // The product over the hops of forward times inverse rate.
  ghost function Gain(pools: seq<Pool>, route: seq<Token>): nat
    requires ValidPools(pools) && Priced(pools, route)
  {
    if |route| == 1 then 1
    else
      var r := HopRates(pools, route[0], route[1]).value;
      Product(Product(r.inverse, r.forward), Gain(pools, route[1..]))
  }

  // The same product at the ideal rates: the square of the scale per hop.
  ghost function Par(hops: nat): nat {
    if hops == 0 then 1 else Product(SCALE * SCALE, Par(hops - 1))
  }

  lemma {:induction false} RouteProducts(pools: seq<Pool>, route: seq<Token>)
    requires ValidPools(pools) && Priced(pools, route)
    ensures MulProduct(InverseSteps(pools, route)) * MulProduct(ForwardSteps(pools, route)) == Gain(pools, route)
    ensures DivProduct(InverseSteps(pools, route)) * DivProduct(ForwardSteps(pools, route)) == Par(|route| - 1)
  {
    if |route| > 1 {
      var r := HopRates(pools, route[0], route[1]).value;
      var rest := route[1..];
      RouteProducts(pools, rest);
      var back, forth := InverseSteps(pools, rest), ForwardSteps(pools, rest);
      ProductsConcat(back, [Step(r.inverse, SCALE)]);
      Single(Step(r.inverse, SCALE));
      assert ForwardSteps(pools, route)[1..] == forth;
      Regroup(MulProduct(back), r.inverse, r.forward, MulProduct(forth));
      Regroup(DivProduct(back), SCALE, SCALE, DivProduct(forth));
    }
  }

  lemma Single(s: Step)
    ensures MulProduct([s]) == s.mul && DivProduct([s]) == s.div
  {
  }

  lemma Regroup(a: int, b: int, c: int, d: int)
    ensures (a * b) * (c * d) == (b * c) * (a * d)
  {
  }

  lemma StepProducts(pools: seq<Pool>, route: seq<Token>, slippage: nat)
    requires ValidPools(pools) && Priced(pools, route)
    ensures MulProduct(RouteSteps(pools, route, slippage)) == (BPS + slippage) * Gain(pools, route)
    ensures DivProduct(RouteSteps(pools, route, slippage)) == BPS * Par(|route| - 1)
  {
    var back, mid, forth := InverseSteps(pools, route), [Step(BPS + slippage, BPS)], ForwardSteps(pools, route);
    RouteProducts(pools, route);
    ProductsConcat(back, mid);
    ProductsConcat(back + mid, forth);
    Single(mid[0]);
    Swap(MulProduct(back), BPS + slippage, MulProduct(forth));
    Swap(DivProduct(back), BPS, DivProduct(forth));
  }

  lemma Swap(a: int, b: int, c: int)
    ensures (a * b) * c == b * (a * c)
  {
  }

  // What find_best_route pays into a route, and what it expects to get out of it.
  function BufferedInput(pools: seq<Pool>, route: seq<Token>, slippage: nat, x: u256): Result<u256, DexError>
    requires ValidPools(pools) && route != []
  {
    var needed := InputNeeded(pools, route, x);
    if needed.Err? then Err(needed.error) else Ok(AddSlippageBuffer(needed.value, slippage))
  }

  function RouteOutput(pools: seq<Pool>, route: seq<Token>, slippage: nat, x: u256): Result<u256, DexError>
    requires ValidPools(pools) && route != []
  {
    var input := BufferedInput(pools, route, slippage, x);
    if input.Err? then Err(input.error) else Quote(pools, route, input.value)
  }

  // Within 256 bits the code computes the chain exactly; beyond, saturation only lowers amounts.
  lemma {:induction false} QuoteIsRun(pools: seq<Pool>, route: seq<Token>, a: u256, b: nat)
    requires ValidPools(pools) && Priced(pools, route) && a <= b
    ensures Quote(pools, route, a).Ok? && Quote(pools, route, a).value <= Run(ForwardSteps(pools, route), b)
    ensures Fits(ForwardSteps(pools, route), a) ==> Quote(pools, route, a).value == Run(ForwardSteps(pools, route), a)
  {
    if |route| > 1 {
      var rate := HopRates(pools, route[0], route[1]).value.forward;
      assert ForwardSteps(pools, route)[1..] == ForwardSteps(pools, route[1..]);
      HopBelow(a, b, rate);
      QuoteIsRun(pools, route[1..], Hop(a, rate), b * rate / SCALE);
    }
  }

  lemma HopBelow(a: u256, b: nat, rate: nat)
    requires a <= b
    ensures 0 <= Hop(a, rate) <= b * rate / SCALE
    ensures a * rate <= MAX_U256 ==> Hop(a, rate) == a * rate / SCALE
  {
    MulMonotone(a, b, rate, rate);
    Products(a, rate);
    DivMonotone(SaturatingMul(a, rate), b * rate, SCALE);
  }

  lemma {:induction false} InputNeededIsRun(pools: seq<Pool>, route: seq<Token>, x: u256)
    requires ValidPools(pools) && Priced(pools, route)
    ensures InputNeeded(pools, route, x).Ok?
    ensures InputNeeded(pools, route, x).value <= Run(InverseSteps(pools, route), x)
    ensures Fits(InverseSteps(pools, route), x) ==>
      InputNeeded(pools, route, x).value == Run(InverseSteps(pools, route), x)
  {
    if |route| > 1 {
      var rate := HopRates(pools, route[0], route[1]).value.inverse;
      var back, last := InverseSteps(pools, route[1..]), [Step(rate, SCALE)];
      InputNeededIsRun(pools, route[1..], x);
      RunConcat(back, last, x);
      HopBelow(InputNeeded(pools, route[1..], x).value, Run(back, x), rate);
      OneStep(last[0], Run(back, x));
    }
  }

  lemma OneStep(s: Step, x: nat)
    requires s.div > 0
    ensures ValidSteps([s]) && Run([s], x) == x * s.mul / s.div
    ensures Fits([s], x) <==> x * s.mul <= MAX_U256
  {
    NonNegative(x, s.mul, s.div);
  }

  lemma OutputIsRun(pools: seq<Pool>, route: seq<Token>, slippage: nat, x: u256)
    requires ValidPools(pools) && Priced(pools, route)
    ensures RouteOutput(pools, route, slippage, x).Ok?
    ensures RouteOutput(pools, route, slippage, x).value <= Run(RouteSteps(pools, route, slippage), x)
    ensures Fits(RouteSteps(pools, route, slippage), x) ==>
      RouteOutput(pools, route, slippage, x).value == Run(RouteSteps(pools, route, slippage), x)
  {
    var back, mid, forth := InverseSteps(pools, route), Step(BPS + slippage, BPS), ForwardSteps(pools, route);
    RunConcat(back, [mid], x);
    RunConcat(back + [mid], forth, x);
    InputNeededIsRun(pools, route, x);
    var needed := InputNeeded(pools, route, x).value;
    OneStep(mid, Run(back, x));
    BufferBelow(needed, Run(back, x), slippage);
    QuoteIsRun(pools, route, AddSlippageBuffer(needed, slippage), Run([mid], Run(back, x)));
  }

  lemma BufferBelow(a: u256, b: nat, slippage: nat)
    requires a <= b
    ensures AddSlippageBuffer(a, slippage) <= b * (BPS + slippage) / BPS
    ensures a * (BPS + slippage) <= MAX_U256 ==> AddSlippageBuffer(a, slippage) == a * (BPS + slippage) / BPS
  {
    MulMonotone(a, b, BPS + slippage, BPS + slippage);
    Products(a, BPS + slippage);
    DivMonotone(SaturatingMul(a, BPS + slippage), b * (BPS + slippage), BPS);
  }

  // ----- the threshold -----

  // On paper the buffered route pays back more than was asked for.
  ghost predicate Profitable(pools: seq<Pool>, route: seq<Token>, slippage: nat)
    requires ValidPools(pools) && Priced(pools, route)
  {
    (BPS + slippage) * Gain(pools, route) > BPS * Par(|route| - 1)
  }

  // On paper it pays back less.
  ghost predicate Loses(pools: seq<Pool>, route: seq<Token>, slippage: nat)
    requires ValidPools(pools) && Priced(pools, route)
  {
    (BPS + slippage) * Gain(pools, route) < BPS * Par(|route| - 1)
  }

  // From this amount on the margin outweighs all roundings: the loss over the margin, rounded up.
  ghost function Threshold(pools: seq<Pool>, route: seq<Token>, slippage: nat): nat
    requires ValidPools(pools) && Priced(pools, route) && Profitable(pools, route, slippage)
  {
    var margin := (BPS + slippage) * Gain(pools, route) - BPS * Par(|route| - 1);
    NonNegative(1, Loss(RouteSteps(pools, route, slippage)) + (margin - 1), margin);
    (Loss(RouteSteps(pools, route, slippage)) + (margin - 1)) / margin
  }

  // A profitable route pays at least the requested amount, from the threshold on and within 256 bits.
  lemma AcceptedFromThreshold(pools: seq<Pool>, route: seq<Token>, slippage: nat, x: u256)
    requires ValidPools(pools) && Priced(pools, route) && Profitable(pools, route, slippage)
    requires x >= Threshold(pools, route, slippage)
    requires Fits(RouteSteps(pools, route, slippage), x)
    ensures RouteOutput(pools, route, slippage, x).Ok? && RouteOutput(pools, route, slippage, x).value >= x
  {
    var steps := RouteSteps(pools, route, slippage);
    OutputIsRun(pools, route, slippage, x);
    RunLowerBound(steps, x);
    StepProducts(pools, route, slippage);
    DivPositive(steps);
    MarginCovers(x, MulProduct(steps), DivProduct(steps), Loss(steps), Run(steps, x));
  }

  lemma MarginCovers(x: nat, M: nat, D: nat, L: nat, res: nat)
    requires M > D && x * M <= res * D + L
    requires x >= (L + (M - D - 1)) / (M - D)
    requires D > 0
    ensures res >= x
  {
    var margin := M - D;
    RoundingLoss(L + (margin - 1), margin);
    var q := (L + (margin - 1)) / margin;
    MulMonotone(q, x, margin, margin);
    assert L <= q * margin <= x * margin;
    assert x * margin == x * M - x * D;
    assert x * D <= res * D;
    CancelFactor(x, res, D);
  }

  // A route that loses on paper pays less than any positive amount, saturated or not; one that breaks even
  // pays at most the exact amount.
  lemma RejectedBelowPar(pools: seq<Pool>, route: seq<Token>, slippage: nat, x: u256)
    requires ValidPools(pools) && Priced(pools, route) && !Profitable(pools, route, slippage)
    ensures RouteOutput(pools, route, slippage, x).Ok? && RouteOutput(pools, route, slippage, x).value <= x
    ensures x > 0 && Loses(pools, route, slippage) ==>
      RouteOutput(pools, route, slippage, x).value < x
  {
    var steps := RouteSteps(pools, route, slippage);
    OutputIsRun(pools, route, slippage, x);
    RunUpperBound(steps, x);
    StepProducts(pools, route, slippage);
    DivPositive(steps);
    BelowPar(x, MulProduct(steps), DivProduct(steps), Run(steps, x));
  }

  lemma BelowPar(x: nat, M: nat, D: nat, res: nat)
    requires res * D <= x * M && M <= D && D > 0
    ensures res <= x
    ensures x > 0 && M < D ==> res < x
  {
    MulMonotone(x, x, M, D);
    CancelFactor(res, x, D);
    if x > 0 && M < D {
      assert x * M < x * D;
      CancelStrict(res, x, D);
    }
  }

  lemma {:induction false} DivPositive(steps: seq<Step>)
    requires ValidSteps(steps)
    ensures DivProduct(steps) > 0
  {
    if steps != [] {
      DivPositive(steps[1..]);
      assert steps[0].div * DivProduct(steps[1..]) > 0;
    }
  }
}
