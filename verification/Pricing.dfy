/**
 Prices along a swap route in saturating 256-bit integers. A pool price is a positive fraction; the code
 scales it, and its inverse, to whole multiples of one over 10^18.
 */
module Pricing {
  import opened Wrappers
  import opened Words

  // A token address; only its identity matters.
  type Token = nat

  const SCALE: int := 1_000_000_000_000_000_000

  datatype Pool = Pool(token0: Token, token1: Token, num: nat, den: nat)

  // One token0 is worth num / den of token1.
  ghost predicate ValidPools(pools: seq<Pool>) {
    forall p :: p in pools ==> p.num > 0 && p.den > 0
  }

  datatype DexError = NoRouteFound(tokenIn: Token, tokenOut: Token) | InsufficientLiquidity

  function Min(a: int, b: int): int {
    if a <= b then a else b
  }

  function SaturatingMul(a: u256, b: nat): (r: u256)
    ensures r <= a * b
  {
    Products(a, b);
    Min(a * b, MAX_U256)
  }

  lemma Products(a: int, b: int)
    requires a >= 0 && b >= 0
    ensures a * b >= 0
  {
  }

  // (ratio * 1e18) as u128, a cast that truncates and saturates.
  function Scaled(num: nat, den: nat): nat
    requires den > 0
  {
    Min(num * SCALE / den, MAX_U128)
  }

  // amount * rate / 1e18
  function Hop(amount: u256, rate: nat): (r: u256)
    ensures r * SCALE <= amount * rate
  {
    SaturatingMul(amount, rate) / SCALE
  }

  predicate Edge(p: Pool, a: Token, b: Token) {
    (p.token0 == a && p.token1 == b) || (p.token0 == b && p.token1 == a)
  }

  ghost predicate HasEdge(pools: seq<Pool>, a: Token, b: Token) {
    exists p :: p in pools && Edge(p, a, b)
  }

  // The first pool of the list that trades the pair, in either direction.
  function FindPool(pools: seq<Pool>, a: Token, b: Token): (r: Option<Pool>)
    ensures r.Some? <==> HasEdge(pools, a, b)
    ensures r.Some? ==> r.value in pools && Edge(r.value, a, b)
  {
    if pools == [] then None
    else if Edge(pools[0], a, b) then
      assert pools[0] in pools;
      Some(pools[0])
    else
      assert forall p :: p in pools ==> p == pools[0] || p in pools[1..];
      FindPool(pools[1..], a, b)
  }

  ghost predicate IsFirst(pools: seq<Pool>, a: Token, b: Token, p: Pool, k: int) {
    0 <= k < |pools| && pools[k] == p && Edge(p, a, b) && forall j :: 0 <= j < k ==> !Edge(pools[j], a, b)
  }

  lemma {:induction false} FoundPoolIsFirst(pools: seq<Pool>, a: Token, b: Token)
    requires HasEdge(pools, a, b)
    ensures exists k :: IsFirst(pools, a, b, FindPool(pools, a, b).value, k)
  {
    var p := FindPool(pools, a, b).value;
    if Edge(pools[0], a, b) {
      assert IsFirst(pools, a, b, p, 0);
    } else {
      FoundPoolIsFirst(pools[1..], a, b);
      var k :| IsFirst(pools[1..], a, b, p, k);
      forall j | 0 <= j < k + 1
        ensures !Edge(pools[j], a, b)
      {
        assert j > 0 ==> pools[j] == pools[1..][j - 1];
      }
      assert IsFirst(pools, a, b, p, k + 1);
    }
  }

  // The rate of one hop from a to b, and the rate of its inverse.
  datatype Rates = Rates(forward: nat, inverse: nat)

  function PoolRates(p: Pool, a: Token, b: Token): Rates
    requires p.num > 0 && p.den > 0
  {
    if p.token0 == a && p.token1 == b then Rates(Scaled(p.num, p.den), Scaled(p.den, p.num))
    else Rates(Scaled(p.den, p.num), Scaled(p.num, p.den))
  }

  function HopRates(pools: seq<Pool>, a: Token, b: Token): Result<Rates, DexError>
    requires ValidPools(pools)
  {
    var p := FindPool(pools, a, b);
    if p.None? then Err(NoRouteFound(a, b)) else Ok(PoolRates(p.value, a, b))
  }

  // What a route pays out: each hop multiplies by its forward rate.
  function Quote(pools: seq<Pool>, route: seq<Token>, amount: u256): Result<u256, DexError>
    requires ValidPools(pools) && route != []
  {
    if |route| == 1 then Ok(amount)
    else
      var r := HopRates(pools, route[0], route[1]);
      if r.Err? then Err(r.error) else Quote(pools, route[1..], Hop(amount, r.value.forward))
  }

  // What a route must be paid for a given output: from the last hop back, each multiplies by its inverse.
  function InputNeeded(pools: seq<Pool>, route: seq<Token>, amount: u256): Result<u256, DexError>
    requires ValidPools(pools) && route != []
  {
    if |route| == 1 then Ok(amount)
    else
      var rest := InputNeeded(pools, route[1..], amount);
      if rest.Err? then Err(rest.error)
      else
        var r := HopRates(pools, route[0], route[1]);
        if r.Err? then Err(r.error) else Ok(Hop(rest.value, r.value.inverse))
  }

  method CalculateQuote(pools: seq<Pool>, route: seq<Token>, amount: u256) returns (r: Result<u256, DexError>)
    requires ValidPools(pools) && route != []
    ensures r == Quote(pools, route, amount)
  {
    var current: u256 := amount;
    for i := 0 to |route| - 1
      invariant Quote(pools, route[i..], current) == Quote(pools, route, amount)
    {
      assert route[i..][0] == route[i] && route[i..][1] == route[i + 1] && route[i..][1..] == route[i + 1..];
      var pool := FindPool(pools, route[i], route[i + 1]);
      if pool.None? {
        return Err(NoRouteFound(route[i], route[i + 1]));
      }
      current := SaturatingMul(current, PoolRates(pool.value, route[i], route[i + 1]).forward) / SCALE;
    }
    r := Ok(current);
  }

  method CalculateInputNeeded(pools: seq<Pool>, route: seq<Token>, amount: u256)
    returns (r: Result<u256, DexError>)
    requires ValidPools(pools) && route != []
    ensures r == InputNeeded(pools, route, amount)
  {
    var current: u256 := amount;
    var i := |route| - 1;
    while i > 0
      invariant 0 <= i < |route|
      invariant InputNeeded(pools, route[i..], amount) == Ok(current)
    {
      i := i - 1;
      assert route[i..][0] == route[i] && route[i..][1] == route[i + 1] && route[i..][1..] == route[i + 1..];
      var pool := FindPool(pools, route[i], route[i + 1]);
      if pool.None? {
        ErrorsPropagate(pools, route, amount, i);
        return Err(NoRouteFound(route[i], route[i + 1]));
      }
      current := SaturatingMul(current, PoolRates(pool.value, route[i], route[i + 1]).inverse) / SCALE;
    }
    assert route[0..] == route;
    r := Ok(current);
  }

  lemma {:induction false} ErrorsPropagate(pools: seq<Pool>, route: seq<Token>, amount: u256, i: nat)
    requires ValidPools(pools) && i < |route| && InputNeeded(pools, route[i..], amount).Err?
    ensures InputNeeded(pools, route, amount) == Err(InputNeeded(pools, route[i..], amount).error)
    decreases i
  {
    if i == 0 {
      assert route[0..] == route;
    } else {
      assert route[i - 1..][1..] == route[i..];
      ErrorsPropagate(pools, route, amount, i - 1);
    }
  }

  // ----- monotonicity -----

  lemma HopMonotone(a: u256, b: u256, rate: nat)
    requires a <= b
    ensures Hop(a, rate) <= Hop(b, rate)
  {
    assert a * rate <= b * rate;
    DivMonotone(SaturatingMul(a, rate), SaturatingMul(b, rate), SCALE);
  }

  lemma DivMonotone(a: nat, b: nat, d: nat)
    requires a <= b && d > 0
    ensures a / d <= b / d
  {
    assert (a / d) * d <= a && b < (b / d + 1) * d;
    CancelStrict(a / d, b / d + 1, d);
  }

  lemma CancelStrict(a: int, b: int, k: int)
    requires k > 0 && a * k < b * k
    ensures a < b
  {
  }

  lemma {:induction false} QuoteMonotone(pools: seq<Pool>, route: seq<Token>, a: u256, b: u256)
    requires ValidPools(pools) && route != [] && a <= b
    ensures Quote(pools, route, a).Ok? == Quote(pools, route, b).Ok?
    ensures Quote(pools, route, a).Ok? ==> Quote(pools, route, a).value <= Quote(pools, route, b).value
  {
    if |route| > 1 {
      var r := HopRates(pools, route[0], route[1]);
      if r.Ok? {
        HopMonotone(a, b, r.value.forward);
        QuoteMonotone(pools, route[1..], Hop(a, r.value.forward), Hop(b, r.value.forward));
      }
    }
  }

  lemma {:induction false} InputNeededMonotone(pools: seq<Pool>, route: seq<Token>, a: u256, b: u256)
    requires ValidPools(pools) && route != [] && a <= b
    ensures InputNeeded(pools, route, a).Ok? == InputNeeded(pools, route, b).Ok?
    ensures InputNeeded(pools, route, a).Ok? ==>
      InputNeeded(pools, route, a).value <= InputNeeded(pools, route, b).value
  {
    if |route| > 1 {
      InputNeededMonotone(pools, route[1..], a, b);
      var rest := InputNeeded(pools, route[1..], a);
      var r := HopRates(pools, route[0], route[1]);
      if rest.Ok? && r.Ok? {
        HopMonotone(rest.value, InputNeeded(pools, route[1..], b).value, r.value.inverse);
      }
    }
  }

  // ----- going back and forth never gains -----

  lemma ScaledBelow(num: nat, den: nat)
    requires den > 0
    ensures Scaled(num, den) * den <= num * SCALE
  {
    var q := num * SCALE / den;
    assert q * den <= num * SCALE;
    assert Scaled(num, den) <= q;
    assert Scaled(num, den) * den <= q * den;
  }

  lemma MulMonotone(a: int, b: int, c: int, d: int)
    requires 0 <= a <= b && 0 <= c <= d
    ensures a * c <= b * d
  {
    assert a * c <= b * c;
    assert b * c <= b * d;
  }

  lemma CancelFactor(a: int, b: int, k: int)
    requires k > 0 && a * k <= b * k
    ensures a <= b
  {
  }

  // Both rates are rounded down, so their product stays below the square of the scale.
  lemma RatesBelowOne(num: nat, den: nat)
    requires num > 0 && den > 0
    ensures Scaled(num, den) * Scaled(den, num) <= SCALE * SCALE
  {
    var a, b := Scaled(num, den), Scaled(den, num);
    ScaledBelow(num, den);
    ScaledBelow(den, num);
    ProductBelow(a, b, num, den, SCALE);
  }

  lemma ProductBelow(a: nat, b: nat, n: nat, d: nat, s: nat)
    requires n > 0 && d > 0 && a * d <= n * s && b * n <= d * s
    ensures a * b <= s * s
  {
    Products(a, d);
    Products(b, n);
    MulMonotone(a * d, n * s, b * n, d * s);
    Pairs(a, d, b, n);
    Pairs(s, n, s, d);
    CancelFactor(a * b, s * s, d * n);
  }

  lemma Pairs(a: int, b: int, c: int, d: int)
    ensures (a * b) * (c * d) == (a * c) * (b * d)
  {
    assert (a * b) * (c * d) == a * (b * (c * d));
    assert b * (c * d) == c * (b * d);
    assert a * (c * (b * d)) == (a * c) * (b * d);
  }

  lemma HopRatesBelowOne(pools: seq<Pool>, a: Token, b: Token)
    requires ValidPools(pools) && HopRates(pools, a, b).Ok?
    ensures var r := HopRates(pools, a, b).value; r.forward * r.inverse <= SCALE * SCALE
  {
    var p := FindPool(pools, a, b).value;
    RatesBelowOne(p.num, p.den);
    RatesBelowOne(p.den, p.num);
  }

  lemma BackAndForth(y: u256, inverse: nat, forward: nat)
    requires forward * inverse <= SCALE * SCALE
    ensures Hop(Hop(y, inverse), forward) <= y
  {
    var x := Hop(y, inverse);
    var z := Hop(x, forward);
    ReturnBelow(z, x, y, inverse, forward, SCALE);
  }

  lemma ReturnBelow(z: nat, x: nat, y: nat, inverse: nat, forward: nat, s: nat)
    requires s > 0 && z * s <= x * forward && x * s <= y * inverse && forward * inverse <= s * s
    ensures z <= y
  {
    Products(z, s);
    Products(x, s);
    MulMonotone(z * s, x * forward, s, s);
    MulMonotone(x * s, y * inverse, forward, forward);
    MulMonotone(y, y, forward * inverse, s * s);
    assert (z * s) * s == z * (s * s);
    assert (x * forward) * s == (x * s) * forward;
    assert (y * inverse) * forward == y * (forward * inverse);
    CancelFactor(z, y, s * s);
  }

  // Without the slippage buffer, the quote of the computed input never exceeds the requested output, on
  // routes of any length and with or without saturation.
  lemma {:induction false} QuoteOfInputNeverExceeds(pools: seq<Pool>, route: seq<Token>, x: u256)
    requires ValidPools(pools) && route != [] && InputNeeded(pools, route, x).Ok?
    ensures Quote(pools, route, InputNeeded(pools, route, x).value).Ok?
    ensures Quote(pools, route, InputNeeded(pools, route, x).value).value <= x
  {
    if |route| > 1 {
      var rest := route[1..];
      var y := InputNeeded(pools, rest, x).value;
      var r := HopRates(pools, route[0], route[1]).value;
      QuoteOfInputNeverExceeds(pools, rest, x);
      HopRatesBelowOne(pools, route[0], route[1]);
      BackAndForth(y, r.inverse, r.forward);
      QuoteMonotone(pools, rest, Hop(Hop(y, r.inverse), r.forward), y);
    }
  }
}
