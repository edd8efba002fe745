/** What a quote, and the input for a given output, are worth at the prices of the pools. */
module PriceBounds {
  import opened Words
  import opened Pricing
  import opened Acceptance

  // One token a is worth PriceNum / PriceDen of token b, at the first pool that trades the pair (see
  // FoundPoolIsFirst).
  ghost function PriceNum(pools: seq<Pool>, a: Token, b: Token): nat
    requires HasEdge(pools, a, b)
  {
    var p := FindPool(pools, a, b).value;
    if p.token0 == a && p.token1 == b then p.num else p.den
  }

  ghost function PriceDen(pools: seq<Pool>, a: Token, b: Token): nat
    requires HasEdge(pools, a, b)
  {
    var p := FindPool(pools, a, b).value;
    if p.token0 == a && p.token1 == b then p.den else p.num
  }

  ghost predicate Tradable(pools: seq<Pool>, route: seq<Token>) {
    route != [] && forall i :: 0 <= i < |route| - 1 ==> HasEdge(pools, route[i], route[i + 1])
  }

  // The products of the prices along a route.
  ghost function WorthNum(pools: seq<Pool>, route: seq<Token>): nat
    requires Tradable(pools, route)
  {
    if |route| == 1 then 1
    else
      assert HasEdge(pools, route[0], route[1]);
      Product(PriceNum(pools, route[0], route[1]), WorthNum(pools, Rest(pools, route)))
  }

  ghost function WorthDen(pools: seq<Pool>, route: seq<Token>): nat
    requires Tradable(pools, route)
  {
    if |route| == 1 then 1
    else
      assert HasEdge(pools, route[0], route[1]);
      Product(PriceDen(pools, route[0], route[1]), WorthDen(pools, Rest(pools, route)))
  }

  ghost function Rest(pools: seq<Pool>, route: seq<Token>): (r: seq<Token>)
    requires Tradable(pools, route) && |route| > 1
    ensures r == route[1..] && Tradable(pools, r)
  {
    RestIsTradable(pools, route);
    route[1..]
  }

  lemma RestIsTradable(pools: seq<Pool>, route: seq<Token>)
    requires Tradable(pools, route) && |route| > 1
    ensures Tradable(pools, route[1..])
  {
    forall i | 0 <= i < |route[1..]| - 1
      ensures HasEdge(pools, route[1..][i], route[1..][i + 1])
    {
      assert HasEdge(pools, route[i + 1], route[i + 2]);
    }
  }

  // The scale to the power of the number of hops.
  ghost function Scales(hops: nat): nat {
    if hops == 0 then 1 else Product(1_000_000_000_000_000_000, Scales(hops - 1))
  }

  // ----- one hop -----

  // The rate stays below 2^128 and the amount times the rate within 256 bits.
  ghost predicate Exact(x: nat, num: nat, den: nat) {
    && num * 1_000_000_000_000_000_000 < 0x1_0000_0000_0000_0000_0000_0000_0000_0000 * den
    && x * num * 1_000_000_000_000_000_000 <= MAX_U256 * den
  }

  // A hop pays x * num / den, rounded down; twice, once for the rate and once for the amount.
  ghost predicate PaysAtPrice(x: nat, y: nat, num: nat, den: nat) {
    && y * den <= x * num
    && (Exact(x, num, den) ==>
          x * num * 1_000_000_000_000_000_000 < (y + 1) * 1_000_000_000_000_000_000 * den + x * den)
  }

  lemma HopIsFloor(x: u256, rate: nat)
    ensures Hop(x, rate) * SCALE <= x * rate
    ensures x * rate <= MAX_U256 ==> x * rate < (Hop(x, rate) + 1) * SCALE
  {
  }

  lemma ScaledIsFloor(num: nat, den: nat)
    requires den > 0
    ensures Scaled(num, den) * den <= num * SCALE
    ensures num * SCALE < (MAX_U128 + 1) * den ==> num * SCALE < (Scaled(num, den) + 1) * den
  {
    ScaledBelow(num, den);
    if num * SCALE < (MAX_U128 + 1) * den {
      var q := num * SCALE / den;
      assert q * den <= num * SCALE < (q + 1) * den;
      CancelStrict(q, MAX_U128 + 1, den);
    }
  }

  // Two floors, of the rate and of the amount, with the limits of both as parameters.
  lemma TwoFloors(x: nat, y: nat, rate: nat, num: nat, den: nat, s: nat, cap: nat, max: nat)
    requires s > 0 && den > 0
    requires y * s <= x * rate && (x * rate <= max ==> x * rate < (y + 1) * s)
    requires rate * den <= num * s && (num * s < cap * den ==> num * s < (rate + 1) * den)
    ensures y * den <= x * num
    ensures num * s < cap * den && x * num * s <= max * den ==> x * num * s < (y + 1) * s * den + x * den
  {
    AtMostPrice(x, y, rate, num, den, s);
    if num * s < cap * den && x * num * s <= max * den {
      RateFits(x, rate, num, den, s, max);
      AtLeastPrice(x, y, rate, num, den, s);
    }
  }

  lemma AtMostPrice(x: nat, y: nat, rate: nat, num: nat, den: nat, s: nat)
    requires s > 0 && y * s <= x * rate && rate * den <= num * s
    ensures y * den <= x * num
  {
    Products(y, s);
    MulMonotone(y * s, x * rate, den, den);
    MulMonotone(x, x, rate * den, num * s);
    assert (y * s) * den == (y * den) * s;
    assert (x * rate) * den == x * (rate * den);
    assert x * (num * s) == (x * num) * s;
    CancelFactor(y * den, x * num, s);
  }

  lemma RateFits(x: nat, rate: nat, num: nat, den: nat, s: nat, max: nat)
    requires den > 0 && rate * den <= num * s && x * num * s <= max * den
    ensures x * rate <= max
  {
    Products(rate, den);
    MulMonotone(x, x, rate * den, num * s);
    assert x * (rate * den) == (x * rate) * den;
    assert x * (num * s) == x * num * s;
    CancelFactor(x * rate, max, den);
  }

  lemma AtLeastPrice(x: nat, y: nat, rate: nat, num: nat, den: nat, s: nat)
    requires den > 0 && x * rate < (y + 1) * s && num * s < (rate + 1) * den
    ensures x * num * s < (y + 1) * s * den + x * den
  {
    Products(num, s);
    MulMonotone(x, x, num * s, (rate + 1) * den);
    assert x * (num * s) == x * num * s;
    assert x * ((rate + 1) * den) == (x * rate) * den + x * den;
    StrictTimes(x * rate, (y + 1) * s, den);
  }

  lemma StrictTimes(a: int, b: int, k: int)
    requires a < b && k > 0
    ensures a * k < b * k
  {
  }

  // Which of the two rates a hop uses: along the pool the price itself, against it the inverse.
  lemma OneHopPaysAtPrice(pools: seq<Pool>, a: Token, b: Token, x: u256)
    requires ValidPools(pools) && HasEdge(pools, a, b)
    ensures Quote(pools, [a, b], x).Ok? && InputNeeded(pools, [a, b], x).Ok?
    ensures PaysAtPrice(x, Quote(pools, [a, b], x).value, PriceNum(pools, a, b), PriceDen(pools, a, b))
    ensures PaysAtPrice(x, InputNeeded(pools, [a, b], x).value, PriceDen(pools, a, b), PriceNum(pools, a, b))
  {
    var num, den := PriceNum(pools, a, b), PriceDen(pools, a, b);
    var r := HopRates(pools, a, b).value;
    assert r == Rates(Scaled(num, den), Scaled(den, num));
    assert [a, b][1..] == [b];
    ScaledIsFloor(num, den);
    ScaledIsFloor(den, num);
    HopIsFloor(x, r.forward);
    HopIsFloor(x, r.inverse);
    TwoFloors(x, Hop(x, r.forward), r.forward, num, den, SCALE, MAX_U128 + 1, MAX_U256);
    TwoFloors(x, Hop(x, r.inverse), r.inverse, den, num, SCALE, MAX_U128 + 1, MAX_U256);
  }

  // The first hop of a longer route.
  lemma QuoteSplits(pools: seq<Pool>, route: seq<Token>, x: u256)
    requires ValidPools(pools) && Tradable(pools, route) && |route| > 1
    ensures HasEdge(pools, route[0], route[1])
    ensures Quote(pools, [route[0], route[1]], x).Ok?
    ensures Quote(pools, route, x) == Quote(pools, route[1..], Quote(pools, [route[0], route[1]], x).value)
  {
    assert [route[0], route[1]][1..] == [route[1]];
  }

  lemma InputSplits(pools: seq<Pool>, route: seq<Token>, x: u256)
    requires ValidPools(pools) && Tradable(pools, route) && |route| > 1
    requires InputNeeded(pools, route[1..], x).Ok?
    ensures HasEdge(pools, route[0], route[1])
    ensures InputNeeded(pools, route, x)
      == InputNeeded(pools, [route[0], route[1]], InputNeeded(pools, route[1..], x).value)
  {
    assert [route[0], route[1]][1..] == [route[1]];
  }

  // ----- routes -----

  // Nothing saturates on the way.
  ghost predicate QuoteIsExact(pools: seq<Pool>, route: seq<Token>, x: u256)
    requires ValidPools(pools) && Tradable(pools, route)
  {
    |route| == 1 ||
    (QuoteSplits(pools, route, x);
     var y := Quote(pools, [route[0], route[1]], x).value;
     Exact(x, PriceNum(pools, route[0], route[1]), PriceDen(pools, route[0], route[1]))
     && QuoteIsExact(pools, Rest(pools, route), y))
  }

  // What rounding costs, times the scales: one unit of each amount and one part in 10^18 of what comes in.
  ghost function QuoteLoss(pools: seq<Pool>, route: seq<Token>, x: u256): int
    requires ValidPools(pools) && Tradable(pools, route)
  {
    if |route| == 1 then 0
    else
      QuoteSplits(pools, route, x);
      var y := Quote(pools, [route[0], route[1]], x).value;
      var den := PriceDen(pools, route[0], route[1]);
      var rest := Rest(pools, route);
      1_000_000_000_000_000_000 * den * QuoteLoss(pools, rest, y)
      + (1_000_000_000_000_000_000 + x) * den * WorthNum(pools, rest) * Scales(|rest| - 1)
  }

  // A quote is the amount times the prices along the route: never more, and less only by the roundings.
  lemma {:induction false} QuoteIsWorth(pools: seq<Pool>, route: seq<Token>, x: u256)
    requires ValidPools(pools) && Tradable(pools, route)
    ensures Quote(pools, route, x).Ok?
    ensures Quote(pools, route, x).value * WorthDen(pools, route) <= x * WorthNum(pools, route)
    ensures QuoteIsExact(pools, route, x) ==>
      x * WorthNum(pools, route) * Scales(|route| - 1)
        <= Quote(pools, route, x).value * WorthDen(pools, route) * Scales(|route| - 1) + QuoteLoss(pools, route, x)
  {
    if |route| > 1 {
      QuoteSplits(pools, route, x);
      OneHopPaysAtPrice(pools, route[0], route[1], x);
      var y := Quote(pools, [route[0], route[1]], x).value;
      var num, den := PriceNum(pools, route[0], route[1]), PriceDen(pools, route[0], route[1]);
      var rest, q := Rest(pools, route), Quote(pools, route, x);
      QuoteIsWorth(pools, rest, y);
      ChainUpper(x, y, q.value, num, den, WorthNum(pools, rest), WorthDen(pools, rest));
      if QuoteIsExact(pools, route, x) {
        ChainLower(x, y, q.value, num, den, WorthNum(pools, rest), WorthDen(pools, rest),
                   1_000_000_000_000_000_000, Scales(|rest| - 1), QuoteLoss(pools, rest, y));
      }
    }
  }

  lemma ChainUpper(x: nat, y: nat, q: nat, num: nat, den: nat, N: nat, D: nat)
    requires y * den <= x * num && q * D <= y * N
    ensures q * Product(den, D) <= x * Product(num, N)
  {
    Products(q, D);
    Products(y, den);
    MulMonotone(q * D, y * N, den, den);
    MulMonotone(y * den, x * num, N, N);
    assert (q * D) * den == q * (den * D);
    assert (y * N) * den == (y * den) * N;
    assert (x * num) * N == x * (num * N);
  }

  lemma ChainLower(x: nat, y: nat, q: nat, num: nat, den: nat, N: nat, D: nat, s: nat, P: nat, L: int)
    requires x * num * s < (y + 1) * s * den + x * den
    requires y * N * P <= q * D * P + L
    ensures x * Product(num, N) * Product(s, P)
      <= q * Product(den, D) * Product(s, P) + (s * den * L + (s + x) * den * N * P)
  {
    Products(N, P);
    Products(s, den);
    FirstHop(x, y, num, den, s);
    TimesSum(x * num * s, y * s * den, (s + x) * den, N * P);
    TimesSum(y * N * P, q * D * P, L, s * den);
    Reorder(x, num, s, N, P);
    Reorder(y, s, den, N, P);
    Reorder(q, D, P, den, s);
    Gather(s + x, den, N, P);
    LastStep(x * num * s * (N * P), y * s * den * (N * P), (s + x) * den * (N * P), y * N * P * (s * den),
             q * D * P * (s * den), L * (s * den));
    assert den * s == s * den && D * den == den * D && P * s == s * P && L * (s * den) == s * den * L;
  }

  lemma FirstHop(x: nat, y: nat, num: nat, den: nat, s: nat)
    requires x * num * s < (y + 1) * s * den + x * den
    ensures x * num * s <= y * s * den + (s + x) * den
  {
    assert (y + 1) * s == y * s + s;
    assert (y * s + s) * den == y * s * den + s * den;
    assert (s + x) * den == s * den + x * den;
  }

  lemma TimesSum(a: int, b: int, c: int, k: nat)
    requires a <= b + c
    ensures a * k <= b * k + c * k
  {
    assert (b + c) * k == b * k + c * k;
  }

  lemma LastStep(a: int, b: int, c: int, d: int, e: int, f: int)
    requires a <= b + c && b == d && d <= e + f
    ensures a <= e + f + c
  {
  }

  lemma Gather(a: int, b: int, c: int, d: int)
    ensures a * b * (c * d) == a * b * c * d
  {
  }

  lemma Reorder(a: int, b: int, c: int, d: int, e: int)
    ensures a * b * c * (d * e) == a * (b * d) * (c * e)
    ensures a * b * c * (d * e) == a * d * e * (b * c)
  {
  }

  // ----- the input for an output -----

  // The hops are priced from the last one back.
  ghost predicate InputIsExact(pools: seq<Pool>, route: seq<Token>, x: u256)
    requires ValidPools(pools) && Tradable(pools, route)
    decreases |route|
  {
    |route| == 1 ||
    (InputIsFound(pools, Rest(pools, route), x);
     assert HasEdge(pools, route[0], route[1]);
     && Exact(InputNeeded(pools, Rest(pools, route), x).value,
              PriceDen(pools, route[0], route[1]), PriceNum(pools, route[0], route[1]))
     && InputIsExact(pools, Rest(pools, route), x))
  }

  lemma {:induction false} InputIsFound(pools: seq<Pool>, route: seq<Token>, x: u256)
    requires ValidPools(pools) && Tradable(pools, route)
    ensures InputNeeded(pools, route, x).Ok?
    decreases |route|
  {
    if |route| > 1 {
      InputIsFound(pools, Rest(pools, route), x);
      InputSplits(pools, route, x);
      OneHopPaysAtPrice(pools, route[0], route[1], InputNeeded(pools, route[1..], x).value);
    }
  }

  ghost function InputLoss(pools: seq<Pool>, route: seq<Token>, x: u256): int
    requires ValidPools(pools) && Tradable(pools, route)
    decreases |route|
  {
    if |route| == 1 then 0
    else
      var rest := Rest(pools, route);
      InputIsFound(pools, rest, x);
      assert HasEdge(pools, route[0], route[1]);
      1_000_000_000_000_000_000 * PriceDen(pools, route[0], route[1]) * InputLoss(pools, rest, x)
      + (1_000_000_000_000_000_000 + InputNeeded(pools, rest, x).value) * PriceNum(pools, route[0], route[1])
        * WorthNum(pools, rest) * Scales(|rest| - 1)
  }

  lemma {:induction false} InputIsAtMostWorth(pools: seq<Pool>, route: seq<Token>, x: u256)
    requires ValidPools(pools) && Tradable(pools, route)
    ensures InputNeeded(pools, route, x).Ok?
    ensures InputNeeded(pools, route, x).value * WorthNum(pools, route) <= x * WorthDen(pools, route)
    decreases |route|
  {
    if |route| > 1 {
      var rest := Rest(pools, route);
      InputIsAtMostWorth(pools, rest, x);
      var y := InputNeeded(pools, rest, x).value;
      InputSplits(pools, route, x);
      OneHopPaysAtPrice(pools, route[0], route[1], y);
      BackUpper(x, y, InputNeeded(pools, route, x).value, PriceNum(pools, route[0], route[1]),
                PriceDen(pools, route[0], route[1]), WorthNum(pools, rest), WorthDen(pools, rest));
    }
  }

  lemma {:induction false} InputIsAtLeastWorth(pools: seq<Pool>, route: seq<Token>, x: u256)
    requires ValidPools(pools) && Tradable(pools, route) && InputIsExact(pools, route, x)
    ensures InputNeeded(pools, route, x).Ok?
    ensures x * WorthDen(pools, route) * Scales(|route| - 1)
      <= InputNeeded(pools, route, x).value * WorthNum(pools, route) * Scales(|route| - 1) + InputLoss(pools, route, x)
    decreases |route|
  {
    if |route| > 1 {
      var rest := Rest(pools, route);
      InputIsAtLeastWorth(pools, rest, x);
      var y := InputNeeded(pools, rest, x).value;
      InputSplits(pools, route, x);
      OneHopPaysAtPrice(pools, route[0], route[1], y);
      BackLower(x, y, InputNeeded(pools, route, x).value, PriceNum(pools, route[0], route[1]),
                PriceDen(pools, route[0], route[1]), WorthNum(pools, rest), WorthDen(pools, rest),
                1_000_000_000_000_000_000, Scales(|rest| - 1), InputLoss(pools, rest, x));
    }
  }

  // The input is the output over the prices along the route: never more, and less only by the roundings.
  lemma InputIsWorth(pools: seq<Pool>, route: seq<Token>, x: u256)
    requires ValidPools(pools) && Tradable(pools, route)
    ensures InputNeeded(pools, route, x).Ok?
    ensures InputNeeded(pools, route, x).value * WorthNum(pools, route) <= x * WorthDen(pools, route)
    ensures InputIsExact(pools, route, x) ==>
      x * WorthDen(pools, route) * Scales(|route| - 1)
        <= InputNeeded(pools, route, x).value * WorthNum(pools, route) * Scales(|route| - 1)
           + InputLoss(pools, route, x)
  {
    InputIsAtMostWorth(pools, route, x);
    if InputIsExact(pools, route, x) {
      InputIsAtLeastWorth(pools, route, x);
    }
  }

  lemma BackUpper(x: nat, y: nat, input: nat, num: nat, den: nat, N: nat, D: nat)
    requires y * N <= x * D && input * num <= y * den
    ensures input * Product(num, N) <= x * Product(den, D)
  {
    ChainUpper(x, y, input, D, N, den, num);
    assert num * N == N * num && den * D == D * den;
  }

  lemma BackLower(x: nat, y: nat, input: nat, num: nat, den: nat, N: nat, D: nat, s: nat, P: nat, L: int)
    requires y * den * s < (input + 1) * s * num + y * num
    requires x * D * P <= y * N * P + L
    ensures x * Product(den, D) * Product(s, P)
      <= input * Product(num, N) * Product(s, P) + (s * den * L + (s + y) * num * N * P)
  {
    Products(N, P);
    Products(s, den);
    FirstHop(y, input, den, num, s);
    TimesSum(y * den * s, input * s * num, (s + y) * num, N * P);
    TimesSum(x * D * P, y * N * P, L, den * s);
    Reorder(x, D, P, den, s);
    Reorder(y, N, P, den, s);
    Reorder(y, den, s, N, P);
    Reorder(input, s, num, N, P);
    Reorder(input, num, s, N, P);
    Gather(s + y, num, N, P);
    SwapMiddle(input, s, num, N * P);
    assert y * N * P * (den * s) == y * den * s * (N * P);
    assert D * den == den * D && P * s == s * P && L * (den * s) == s * den * L;
  }

  lemma SwapMiddle(a: int, b: int, c: int, d: int)
    ensures a * b * c * d == a * c * b * d
  {
  }

  // ----- missing pools -----

  // Hop i has no pool.
  ghost predicate Missing(pools: seq<Pool>, route: seq<Token>, i: int) {
    0 <= i < |route| - 1 && !HasEdge(pools, route[i], route[i + 1])
  }

  ghost predicate FirstMissing(pools: seq<Pool>, route: seq<Token>, i: int) {
    Missing(pools, route, i) && forall j :: 0 <= j < i ==> !Missing(pools, route, j)
  }

  ghost predicate LastMissing(pools: seq<Pool>, route: seq<Token>, i: int) {
    Missing(pools, route, i) && forall j :: i < j ==> !Missing(pools, route, j)
  }

  lemma MissingShift(pools: seq<Pool>, route: seq<Token>, i: int)
    requires |route| > 1
    ensures 0 < i ==> (Missing(pools, route, i) <==> Missing(pools, route[1..], i - 1))
  {
  }

  lemma FirstShift(pools: seq<Pool>, route: seq<Token>, i: int)
    requires |route| > 1 && HasEdge(pools, route[0], route[1]) && FirstMissing(pools, route[1..], i)
    ensures FirstMissing(pools, route, i + 1)
  {
    MissingShift(pools, route, i + 1);
    forall j | 0 <= j < i + 1
      ensures !Missing(pools, route, j)
    {
      MissingShift(pools, route, j);
    }
  }

  lemma LastShift(pools: seq<Pool>, route: seq<Token>, i: int)
    requires |route| > 1 && LastMissing(pools, route[1..], i)
    ensures LastMissing(pools, route, i + 1)
  {
    MissingShift(pools, route, i + 1);
    forall j | i + 1 < j
      ensures !Missing(pools, route, j)
    {
      MissingShift(pools, route, j);
    }
  }

  lemma OnlyFirstMissing(pools: seq<Pool>, route: seq<Token>)
    requires |route| > 1 && !HasEdge(pools, route[0], route[1]) && Tradable(pools, route[1..])
    ensures LastMissing(pools, route, 0)
  {
    forall j | 0 < j
      ensures !Missing(pools, route, j)
    {
      MissingShift(pools, route, j);
    }
  }

  lemma TradableLonger(pools: seq<Pool>, route: seq<Token>)
    requires |route| > 1 && HasEdge(pools, route[0], route[1]) && Tradable(pools, route[1..])
    ensures Tradable(pools, route)
  {
    forall i | 0 <= i < |route| - 1
      ensures HasEdge(pools, route[i], route[i + 1])
    {
      if i > 0 {
        assert HasEdge(pools, route[1..][i - 1], route[1..][i]);
      }
    }
  }

  // A quote fails exactly if some hop has no pool, and names the first such hop.
  lemma {:induction false} QuoteFailsAtFirst(pools: seq<Pool>, route: seq<Token>, x: u256)
    requires ValidPools(pools) && route != []
    ensures Quote(pools, route, x).Ok? ==> Tradable(pools, route)
    ensures Quote(pools, route, x).Err? ==>
      exists i :: FirstMissing(pools, route, i) && Quote(pools, route, x).error == NoRouteFound(route[i], route[i + 1])
  {
    if |route| > 1 {
      var r := HopRates(pools, route[0], route[1]);
      if r.Err? {
        assert FirstMissing(pools, route, 0);
      } else {
        var rest, y := route[1..], Hop(x, r.value.forward);
        QuoteFailsAtFirst(pools, rest, y);
        if Quote(pools, rest, y).Err? {
          var i :| FirstMissing(pools, rest, i) && Quote(pools, rest, y).error == NoRouteFound(rest[i], rest[i + 1]);
          FirstShift(pools, route, i);
        } else {
          TradableLonger(pools, route);
        }
      }
    }
  }

  // The computation of an input fails on the same routes, and names the last such hop.
  lemma {:induction false} InputFailsAtLast(pools: seq<Pool>, route: seq<Token>, x: u256)
    requires ValidPools(pools) && route != []
    ensures InputNeeded(pools, route, x).Ok? ==> Tradable(pools, route)
    ensures InputNeeded(pools, route, x).Err? ==>
      exists i :: LastMissing(pools, route, i)
                  && InputNeeded(pools, route, x).error == NoRouteFound(route[i], route[i + 1])
  {
    if |route| > 1 {
      var rest := route[1..];
      InputFailsAtLast(pools, rest, x);
      if InputNeeded(pools, rest, x).Err? {
        var i :| LastMissing(pools, rest, i) && InputNeeded(pools, rest, x).error == NoRouteFound(rest[i], rest[i + 1]);
        LastShift(pools, route, i);
      } else if HasEdge(pools, route[0], route[1]) {
        TradableLonger(pools, route);
      } else {
        OnlyFirstMissing(pools, route);
      }
    }
  }
}
