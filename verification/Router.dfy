/** Route search over the pools, breadth first, and the choice of the cheapest route that pays enough. */
module Router {
  import opened Wrappers
  import opened Words
  import opened Pricing
  import opened Acceptance

  const BASE_GAS: nat := 100_000
  const GAS_PER_HOP: nat := 50_000

  type Path = seq<Token>

  // ----- which paths are routes -----

  ghost predicate NoRepeat(p: Path) {
    forall i, j :: 0 <= i < j < |p| ==> p[i] != p[j]
  }

  ghost predicate Walk(pools: seq<Pool>, p: Path) {
    forall i :: 0 <= i < |p| - 1 ==> HasEdge(pools, p[i], p[i + 1])
  }

  // A simple path along pools that starts at tokenIn and has at most maxHops hops.
  ghost predicate Prefix(pools: seq<Pool>, tokenIn: Token, maxHops: nat, p: Path) {
    1 <= |p| <= maxHops + 1 && p[0] == tokenIn && NoRepeat(p) && Walk(pools, p)
  }

  ghost predicate IsRoute(pools: seq<Pool>, tokenIn: Token, tokenOut: Token, maxHops: nat, p: Path) {
    Prefix(pools, tokenIn, maxHops, p) && p[|p| - 1] == tokenOut
  }

  // ----- one round of the search -----

  // The token that a pool leads to from the current one.
  function NextToken(pool: Pool, current: Token): Option<Token> {
    if pool.token0 == current then Some(pool.token1)
    else if pool.token1 == current then Some(pool.token0)
    else None
  }

  // The paths that one pass over the pools appends to the queue, in pool order.
  function Extensions(pools: seq<Pool>, p: Path): seq<Path>
    requires p != []
  {
    if pools == [] then []
    else
      var before := Extensions(pools[..|pools| - 1], p);
      var next := NextToken(pools[|pools| - 1], p[|p| - 1]);
      if next.Some? && next.value !in p then before + [p + [next.value]] else before
  }

  lemma {:induction false} ExtensionsAre(pools: seq<Pool>, p: Path, q: Path)
    requires p != []
    ensures q in Extensions(pools, p) <==>
      |q| == |p| + 1 && q[..|p|] == p && q[|p|] !in p && HasEdge(pools, p[|p| - 1], q[|p|])
    ensures |Extensions(pools, p)| <= |pools|
  {
    if pools != [] {
      var rest, last := pools[..|pools| - 1], pools[|pools| - 1];
      assert pools == rest + [last];
      ExtensionsAre(rest, p, q);
      if |q| == |p| + 1 && q[..|p|] == p {
        assert q == p + [q[|p|]];
        assert HasEdge(pools, p[|p| - 1], q[|p|]) <==>
          HasEdge(rest, p[|p| - 1], q[|p|]) || Edge(last, p[|p| - 1], q[|p|]);
      }
    }
  }

  lemma ExtensionsLonger(pools: seq<Pool>, p: Path)
    requires p != []
    ensures |Extensions(pools, p)| <= |pools|
    ensures forall q :: q in Extensions(pools, p) ==> |q| == |p| + 1
  {
    ExtensionsAre(pools, p, p);
    forall q | q in Extensions(pools, p)
      ensures |q| == |p| + 1
    {
      ExtensionsAre(pools, p, q);
    }
  }

  // ----- termination -----

  ghost function Power(b: nat, e: nat): nat {
    if e == 0 then 1 else Product(b, Power(b, e - 1))
  }

  // A queued path counts for every path that the search may still grow from it.
  ghost function Weight(n: nat, maxHops: nat, p: Path): nat {
    if |p| <= maxHops + 1 then Power(n + 1, maxHops + 1 - |p|) else 0
  }

  ghost function Measure(n: nat, maxHops: nat, queue: seq<Path>): nat {
    if queue == [] then 0 else Weight(n, maxHops, queue[0]) + Measure(n, maxHops, queue[1..])
  }

  lemma {:induction false} MeasureConcat(n: nat, maxHops: nat, a: seq<Path>, b: seq<Path>)
    ensures Measure(n, maxHops, a + b) == Measure(n, maxHops, a) + Measure(n, maxHops, b)
  {
    if a == [] {
      assert a + b == b;
    } else {
      assert (a + b)[1..] == a[1..] + b;
      MeasureConcat(n, maxHops, a[1..], b);
    }
  }

  lemma {:induction false} MeasureUniform(n: nat, maxHops: nat, queue: seq<Path>, length: nat)
    requires forall q :: q in queue ==> |q| == length
    requires length <= maxHops + 1
    ensures Measure(n, maxHops, queue) == |queue| * Power(n + 1, maxHops + 1 - length)
  {
    if queue != [] {
      MeasureUniform(n, maxHops, queue[1..], length);
      OneMore(|queue[1..]|, Power(n + 1, maxHops + 1 - length));
    }
  }

  lemma OneMore(k: nat, w: nat)
    ensures k * w + w == (k + 1) * w
  {
  }

  lemma {:induction false} PowerPositive(b: nat, e: nat)
    requires b > 0
    ensures Power(b, e) > 0
  {
    if e > 0 {
      PowerPositive(b, e - 1);
      assert b * Power(b, e - 1) > 0;
    }
  }

  // Replacing a path by its extensions makes the measure smaller: at most n of them, each worth 1/(n+1).
  lemma ExpansionShrinks(pools: seq<Pool>, maxHops: nat, p: Path, rest: seq<Path>)
    requires 1 <= |p| <= maxHops
    ensures Measure(|pools|, maxHops, rest + Extensions(pools, p)) < Measure(|pools|, maxHops, [p] + rest)
  {
    var n, ext := |pools|, Extensions(pools, p);
    var w := Power(n + 1, maxHops - |p|);
    MeasureConcat(n, maxHops, rest, ext);
    ExtensionsLonger(pools, p);
    MeasureUniform(n, maxHops, ext, |p| + 1);
    PowerPositive(n + 1, maxHops - |p|);
    FewerThanWhole(|ext|, n, w);
    assert ([p] + rest)[0] == p && ([p] + rest)[1..] == rest;
  }

  lemma FewerThanWhole(m: nat, n: nat, w: nat)
    requires m <= n && w > 0
    ensures m * w < Product(n + 1, w)
  {
    MulMonotone(m, n, w, w);
    assert (n + 1) * w == n * w + w;
  }

  lemma RemovalShrinks(n: nat, maxHops: nat, queue: seq<Path>)
    requires queue != [] && |queue[0]| <= maxHops + 1
    ensures Measure(n, maxHops, queue[1..]) < Measure(n, maxHops, queue)
  {
    PowerPositive(n + 1, maxHops + 1 - |queue[0]|);
  }

  // ----- completeness -----

  // The route is already found, or the queue still holds a path that leads to it.
  ghost predicate Covered(r: Path, routes: seq<Path>, queue: seq<Path>) {
    r in routes || exists q :: q in queue && q <= r
  }

  // Taking a path that leads to r off the queue keeps r covered, by the route itself or by an extension.
  lemma StillCovered(pools: seq<Pool>, tokenIn: Token, tokenOut: Token, maxHops: nat,
                     r: Path, routes: seq<Path>, p: Path, rest: seq<Path>)
    requires IsRoute(pools, tokenIn, tokenOut, maxHops, r)
    requires p != [] && Covered(r, routes, [p] + rest)
    ensures p[|p| - 1] == tokenOut ==> Covered(r, routes + [p], rest)
    ensures p[|p| - 1] != tokenOut ==>
      Covered(r, routes, if |p| > maxHops then rest else rest + Extensions(pools, p))
  {
    if r !in routes {
      var q :| q in [p] + rest && q <= r;
      if q in rest {
        assert q in rest + Extensions(pools, p);
      } else {
        assert q == p && r[..|p|] == p && r[|p| - 1] == p[|p| - 1];
        if p[|p| - 1] == tokenOut {
          assert r == p;
        } else {
          var longer := r[..|p| + 1];
          assert longer[..|p|] == p;
          assert longer[|p|] !in p;
          ExtensionsAre(pools, p, longer);
          assert longer in rest + Extensions(pools, p) && longer <= r;
        }
      }
    }
  }

  lemma ExtensionIsPrefix(pools: seq<Pool>, tokenIn: Token, maxHops: nat, p: Path, q: Path)
    requires Prefix(pools, tokenIn, maxHops, p) && |p| <= maxHops && q in Extensions(pools, p)
    ensures Prefix(pools, tokenIn, maxHops, q)
  {
    ExtensionsAre(pools, p, q);
    assert forall i :: 0 <= i < |p| ==> q[i] == p[i];
    forall i | 0 <= i < |q| - 1
      ensures HasEdge(pools, q[i], q[i + 1])
    {
      if i < |p| - 1 {
        assert HasEdge(pools, p[i], p[i + 1]);
      }
    }
  }

  // ----- the search -----

  ghost predicate Sorted(paths: seq<Path>) {
    forall i, j :: 0 <= i < j < |paths| ==> |paths[i]| <= |paths[j]|
  }

  // The queue is sorted by length and never spans more than two lengths; found routes are no longer.
  ghost predicate Layered(routes: seq<Path>, queue: seq<Path>) {
    && Sorted(routes) && Sorted(queue)
    && (queue != [] ==> forall q :: q in queue ==> |q| <= |queue[0]| + 1)
    && (queue != [] ==> forall r :: r in routes ==> |r| <= |queue[0]|)
  }

  lemma LayeredAfter(pools: seq<Pool>, routes: seq<Path>, p: Path, rest: seq<Path>)
    requires p != [] && Layered(routes, [p] + rest)
    ensures Layered(routes + [p], rest) && Layered(routes, rest) && Layered(routes, rest + Extensions(pools, p))
  {
    TailLayered(routes, p, rest);
    ExtensionsLonger(pools, p);
    var ext := Extensions(pools, p);
    assert forall q :: q in rest + ext ==> q in rest || q in ext;
    assert rest != [] ==> (rest + ext)[0] == rest[0] && rest[0] in rest;
  }

  lemma TailLayered(routes: seq<Path>, p: Path, rest: seq<Path>)
    requires p != [] && Layered(routes, [p] + rest)
    ensures Layered(routes + [p], rest) && Layered(routes, rest)
    ensures forall q :: q in rest ==> |p| <= |q| <= |p| + 1
    ensures forall r :: r in routes ==> |r| <= |p|
  {
    var queue := [p] + rest;
    assert queue[0] == p;
    forall i | 0 <= i < |rest|
      ensures |p| <= |rest[i]| <= |p| + 1
    {
      assert queue[i + 1] == rest[i] && queue[i + 1] in queue;
    }
    forall i, j | 0 <= i < j < |rest|
      ensures |rest[i]| <= |rest[j]|
    {
      assert queue[i + 1] == rest[i] && queue[j + 1] == rest[j];
    }
  }

  // What every round of the search keeps.
  ghost predicate Searching(pools: seq<Pool>, tokenIn: Token, tokenOut: Token, maxHops: nat,
                            routes: seq<Path>, queue: seq<Path>) {
    && (forall q :: q in queue ==> Prefix(pools, tokenIn, maxHops, q))
    && (forall r :: r in routes ==> IsRoute(pools, tokenIn, tokenOut, maxHops, r))
    && (forall r :: IsRoute(pools, tokenIn, tokenOut, maxHops, r) ==> Covered(r, routes, queue))
    && Layered(routes, queue)
  }

  lemma SearchStarts(pools: seq<Pool>, tokenIn: Token, tokenOut: Token, maxHops: nat)
    ensures Searching(pools, tokenIn, tokenOut, maxHops, [], [[tokenIn]])
  {
    var queue := [[tokenIn]];
    forall r | IsRoute(pools, tokenIn, tokenOut, maxHops, r)
      ensures Covered(r, [], queue)
    {
      assert queue[0] in queue && queue[0] <= r;
    }
  }

  lemma SearchFinds(pools: seq<Pool>, tokenIn: Token, tokenOut: Token, maxHops: nat,
                    routes: seq<Path>, p: Path, rest: seq<Path>)
    requires Searching(pools, tokenIn, tokenOut, maxHops, routes, [p] + rest)
    requires p != [] && p[|p| - 1] == tokenOut
    ensures Searching(pools, tokenIn, tokenOut, maxHops, routes + [p], rest)
  {
    LayeredAfter(pools, routes, p, rest);
    assert p in [p] + rest;
    assert forall q :: q in rest ==> q in [p] + rest;
    forall r | IsRoute(pools, tokenIn, tokenOut, maxHops, r)
      ensures Covered(r, routes + [p], rest)
    {
      StillCovered(pools, tokenIn, tokenOut, maxHops, r, routes, p, rest);
    }
  }

  lemma SearchExpands(pools: seq<Pool>, tokenIn: Token, tokenOut: Token, maxHops: nat,
                      routes: seq<Path>, p: Path, rest: seq<Path>, queue: seq<Path>)
    requires Searching(pools, tokenIn, tokenOut, maxHops, routes, [p] + rest)
    requires p != [] && p[|p| - 1] != tokenOut
    requires queue == if |p| > maxHops then rest else rest + Extensions(pools, p)
    ensures Searching(pools, tokenIn, tokenOut, maxHops, routes, queue)
  {
    LayeredAfter(pools, routes, p, rest);
    assert p in [p] + rest;
    assert forall q :: q in rest ==> q in [p] + rest;
    forall r | IsRoute(pools, tokenIn, tokenOut, maxHops, r)
      ensures Covered(r, routes, queue)
    {
      StillCovered(pools, tokenIn, tokenOut, maxHops, r, routes, p, rest);
    }
    forall q | q in queue
      ensures Prefix(pools, tokenIn, maxHops, q)
    {
      if q !in rest {
        ExtensionIsPrefix(pools, tokenIn, maxHops, p, q);
      }
    }
  }

  // The order in which the search finds the routes: it takes the first path off the queue and appends the
  // extensions of it in the order of the pools.
  ghost function SearchOrder(pools: seq<Pool>, tokenOut: Token, maxHops: nat, queue: seq<Path>): seq<Path>
    requires forall q :: q in queue ==> 1 <= |q| <= maxHops + 1
    decreases Measure(|pools|, maxHops, queue)
  {
    if queue == [] then []
    else
      var p, rest := queue[0], queue[1..];
      assert queue == [p] + rest && p in queue;
      RemovalShrinks(|pools|, maxHops, queue);
      if p[|p| - 1] == tokenOut then [p] + SearchOrder(pools, tokenOut, maxHops, rest)
      else if |p| > maxHops then SearchOrder(pools, tokenOut, maxHops, rest)
      else
        ExpansionShrinks(pools, maxHops, p, rest);
        ExtensionsLonger(pools, p);
        SearchOrder(pools, tokenOut, maxHops, rest + Extensions(pools, p))
  }

  ghost function AllRoutes(pools: seq<Pool>, tokenIn: Token, tokenOut: Token, maxHops: nat): seq<Path> {
    SearchOrder(pools, tokenOut, maxHops, [[tokenIn]])
  }

  // The routes found so far are the first of all routes; the queue holds what leads to the others.
  ghost predicate FoundSoFar(pools: seq<Pool>, tokenIn: Token, tokenOut: Token, maxHops: nat,
                             routes: seq<Path>, queue: seq<Path>)
  {
    && (forall q :: q in queue ==> 1 <= |q| <= maxHops + 1)
    && AllRoutes(pools, tokenIn, tokenOut, maxHops) == routes + SearchOrder(pools, tokenOut, maxHops, queue)
  }

  // One round takes the first path off the queue: a route, or too long, or replaced by its extensions.
  ghost predicate Round(pools: seq<Pool>, tokenOut: Token, maxHops: nat,
                        found: seq<Path>, p: Path, rest: seq<Path>, routes: seq<Path>, queue: seq<Path>)
  {
    && p != []
    && if p[|p| - 1] == tokenOut then routes == found + [p] && queue == rest
       else routes == found && queue == if |p| > maxHops then rest else rest + Extensions(pools, p)
  }

  lemma SearchGoesOn(pools: seq<Pool>, tokenIn: Token, tokenOut: Token, maxHops: nat,
                     found: seq<Path>, p: Path, rest: seq<Path>, routes: seq<Path>, queue: seq<Path>)
    requires Searching(pools, tokenIn, tokenOut, maxHops, found, [p] + rest)
    requires Round(pools, tokenOut, maxHops, found, p, rest, routes, queue)
    ensures Searching(pools, tokenIn, tokenOut, maxHops, routes, queue)
  {
    if p[|p| - 1] == tokenOut {
      SearchFinds(pools, tokenIn, tokenOut, maxHops, found, p, rest);
    } else {
      SearchExpands(pools, tokenIn, tokenOut, maxHops, found, p, rest, queue);
    }
  }

  lemma OrderIsKept(pools: seq<Pool>, tokenIn: Token, tokenOut: Token, maxHops: nat,
                    found: seq<Path>, p: Path, rest: seq<Path>, routes: seq<Path>, queue: seq<Path>)
    requires FoundSoFar(pools, tokenIn, tokenOut, maxHops, found, [p] + rest)
    requires Round(pools, tokenOut, maxHops, found, p, rest, routes, queue)
    ensures FoundSoFar(pools, tokenIn, tokenOut, maxHops, routes, queue)
    ensures Measure(|pools|, maxHops, queue) < Measure(|pools|, maxHops, [p] + rest)
  {
    QueueGoesOn(pools, maxHops, p, rest);
    OrderGoesOn(pools, tokenOut, maxHops, p, rest);
    if p[|p| - 1] == tokenOut {
      var later := SearchOrder(pools, tokenOut, maxHops, rest);
      assert found + ([p] + later) == (found + [p]) + later;
    }
  }

  lemma QueueGoesOn(pools: seq<Pool>, maxHops: nat, p: Path, rest: seq<Path>)
    requires forall q :: q in [p] + rest ==> 1 <= |q| <= maxHops + 1
    ensures 1 <= |p| <= maxHops + 1 && forall q :: q in rest ==> 1 <= |q| <= maxHops + 1
    ensures Measure(|pools|, maxHops, rest) < Measure(|pools|, maxHops, [p] + rest)
    ensures |p| <= maxHops ==>
      && (forall q :: q in rest + Extensions(pools, p) ==> 1 <= |q| <= maxHops + 1)
      && Measure(|pools|, maxHops, rest + Extensions(pools, p)) < Measure(|pools|, maxHops, [p] + rest)
  {
    var queue := [p] + rest;
    assert queue[0] == p && queue[1..] == rest && p in queue;
    assert forall q :: q in rest ==> q in queue;
    RemovalShrinks(|pools|, maxHops, queue);
    if |p| <= maxHops {
      ExtensionsLonger(pools, p);
      ExpansionShrinks(pools, maxHops, p, rest);
    }
  }

  lemma OrderGoesOn(pools: seq<Pool>, tokenOut: Token, maxHops: nat, p: Path, rest: seq<Path>)
    requires forall q :: q in [p] + rest ==> 1 <= |q| <= maxHops + 1
    requires 1 <= |p| && forall q :: q in rest ==> 1 <= |q| <= maxHops + 1
    requires |p| <= maxHops ==> forall q :: q in rest + Extensions(pools, p) ==> 1 <= |q| <= maxHops + 1
    ensures SearchOrder(pools, tokenOut, maxHops, [p] + rest) ==
      if p[|p| - 1] == tokenOut then [p] + SearchOrder(pools, tokenOut, maxHops, rest)
      else if |p| > maxHops then SearchOrder(pools, tokenOut, maxHops, rest)
      else SearchOrder(pools, tokenOut, maxHops, rest + Extensions(pools, p))
  {
    var queue := [p] + rest;
    assert queue[0] == p && queue[1..] == rest;
  }

  // All routes from tokenIn to tokenOut with at most maxHops hops, shortest first. A path that reaches
  // tokenOut is not extended; parallel pools give the same path more than once.
  method FindAllRoutes(pools: seq<Pool>, tokenIn: Token, tokenOut: Token, maxHops: nat)
    returns (routes: seq<Path>)
    ensures forall p :: p in routes <==> IsRoute(pools, tokenIn, tokenOut, maxHops, p)
    ensures Sorted(routes)
    ensures routes == AllRoutes(pools, tokenIn, tokenOut, maxHops)
  {
    routes := [];
    var queue: seq<Path> := [[tokenIn]];
    SearchStarts(pools, tokenIn, tokenOut, maxHops);
    while queue != []
      invariant Searching(pools, tokenIn, tokenOut, maxHops, routes, queue)
      invariant FoundSoFar(pools, tokenIn, tokenOut, maxHops, routes, queue)
      decreases Measure(|pools|, maxHops, queue)
    {
      var p := queue[0];
      ghost var rest, found := queue[1..], routes;
      assert queue == [p] + rest && p in queue;
      queue := queue[1..];
      if p[|p| - 1] == tokenOut {
        routes := routes + [p];
      } else if |p| <= maxHops {
        queue := Explore(pools, p, queue);
      }
      SearchGoesOn(pools, tokenIn, tokenOut, maxHops, found, p, rest, routes, queue);
      OrderIsKept(pools, tokenIn, tokenOut, maxHops, found, p, rest, routes, queue);
    }
  }

  // The pass over the pools for one path.
  method Explore(pools: seq<Pool>, p: Path, queue: seq<Path>) returns (longer: seq<Path>)
    requires p != []
    ensures longer == queue + Extensions(pools, p)
  {
    longer := queue;
    for i := 0 to |pools|
      invariant longer == queue + Extensions(pools[..i], p)
    {
      assert pools[..i + 1][..i] == pools[..i];
      var next := NextToken(pools[i], p[|p| - 1]);
      if next.Some? && next.value !in p {
        longer := longer + [p + [next.value]];
      }
    }
    assert pools[..|pools|] == pools;
  }

  // ----- the choice -----

  // Slippage in basis points; above 10000 the minimum output could not be computed.
  type Bps = s: nat | s <= 10000

  datatype SwapQuote = SwapQuote(path: Path, amountIn: u256, amountOut: u256, amountOutMin: u256,
                                 slippageBps: nat, estimatedGas: nat)

  // The part of the amount that the slippage leaves, rounded down.
  function MinAmountOut(amount: u256, slippage: Bps): (r: u256)
    ensures r <= amount
    ensures amount * (10_000 - slippage) <= MAX_U256 ==>
      r * 10_000 <= amount * (10_000 - slippage) < (r + 1) * 10_000
  {
    BelowWhole(amount, BPS - slippage);
    SaturatingMul(amount, BPS - slippage) / BPS
  }

  lemma BelowWhole(amount: u256, part: nat)
    requires part <= BPS
    ensures SaturatingMul(amount, part) / BPS <= amount
  {
    MulMonotone(amount, amount, part, BPS);
  }

  function EstimateSwapGas(hops: nat): nat {
    BASE_GAS + hops * GAS_PER_HOP
  }

  lemma {:induction false} RoutesArePriced(pools: seq<Pool>, p: Path)
    requires ValidPools(pools) && p != [] && Walk(pools, p)
    ensures Priced(pools, p)
  {
    if |p| > 1 {
      assert HasEdge(pools, p[0], p[1]);
      forall i | 0 <= i < |p[1..]| - 1
        ensures HasEdge(pools, p[1..][i], p[1..][i + 1])
      {
        assert HasEdge(pools, p[i + 1], p[i + 2]);
      }
      RoutesArePriced(pools, p[1..]);
    }
  }

  class DexRouter {
    const maxHops: nat
    const slippage: Bps
    var pools: seq<Pool>

    constructor (maxHops: nat, slippage: Bps, pools: seq<Pool>)
      ensures this.maxHops == maxHops && this.slippage == slippage && this.pools == pools
    {
      this.maxHops, this.slippage, this.pools := maxHops, slippage, pools;
    }

    method UpdatePoolPrices(newPools: seq<Pool>)
      modifies this
      ensures pools == newPools
    {
      pools := newPools;
    }

    ghost predicate Route(tokenIn: Token, tokenOut: Token, p: Path)
      reads this
    {
      IsRoute(pools, tokenIn, tokenOut, maxHops, p)
    }

    // What the route must be paid, buffer included. Enumerated routes always have a price.
    ghost function Cost(p: Path, needed: u256): u256
      reads this
      requires ValidPools(pools) && Priced(pools, p)
    {
      InputNeededIsRun(pools, p, needed);
      BufferedInput(pools, p, slippage, needed).value
    }

    // What the route is expected to pay out for that.
    ghost function Output(p: Path, needed: u256): u256
      reads this
      requires ValidPools(pools) && Priced(pools, p)
    {
      OutputIsRun(pools, p, slippage, needed);
      RouteOutput(pools, p, slippage, needed).value
    }

    // The routes in the order in which the search finds them.
    ghost function Found(tokenIn: Token, tokenOut: Token): seq<Path>
      reads this
    {
      AllRoutes(pools, tokenIn, tokenOut, maxHops)
    }

    ghost predicate Accepted(tokenIn: Token, tokenOut: Token, p: Path, needed: u256)
      reads this
      requires ValidPools(pools)
    {
      Route(tokenIn, tokenOut, p) && Priced(pools, p) && Output(p, needed) >= needed
    }

    // Among the first n routes, the one at k is accepted, cheaper than every accepted one before it, and not
    // dearer than any after it.
    ghost predicate Wins(tokenIn: Token, tokenOut: Token, needed: u256, routes: seq<Path>, n: nat, k: nat)
      reads this
      requires ValidPools(pools) && n <= |routes|
    {
      && k < n && Accepted(tokenIn, tokenOut, routes[k], needed)
      && forall j :: 0 <= j < n && Accepted(tokenIn, tokenOut, routes[j], needed) ==>
           if j < k then Cost(routes[k], needed) < Cost(routes[j], needed)
           else Cost(routes[k], needed) <= Cost(routes[j], needed)
    }

    // The cheapest accepted route; among equally cheap ones the first one found, and so one with the fewest
    // hops.
    ghost predicate Best(tokenIn: Token, tokenOut: Token, p: Path, needed: u256)
      reads this
      requires ValidPools(pools)
    {
      && Accepted(tokenIn, tokenOut, p, needed)
      && (forall q :: Accepted(tokenIn, tokenOut, q, needed) ==>
           Cost(p, needed) < Cost(q, needed) || (Cost(p, needed) == Cost(q, needed) && |p| <= |q|))
      && var routes := Found(tokenIn, tokenOut);
         exists k: nat :: Wins(tokenIn, tokenOut, needed, routes, |routes|, k) && routes[k] == p
    }

    // No route, no accepted route, or the best one with amounts that keep the required output.
    ghost predicate Answers(tokenIn: Token, tokenOut: Token, needed: u256, r: Result<SwapQuote, DexError>)
      reads this
      requires ValidPools(pools)
    {
      && (r == Err(NoRouteFound(tokenIn, tokenOut)) <==> forall p :: !Route(tokenIn, tokenOut, p))
      && (r == Err(InsufficientLiquidity) <==>
            && (exists p :: Route(tokenIn, tokenOut, p))
            && (forall p :: !Accepted(tokenIn, tokenOut, p, needed)))
      && (r.Err? ==> r.error == NoRouteFound(tokenIn, tokenOut) || r.error == InsufficientLiquidity)
      && (r.Ok? ==> IsQuote(tokenIn, tokenOut, needed, r.value))
    }

    ghost predicate IsQuote(tokenIn: Token, tokenOut: Token, needed: u256, q: SwapQuote)
      reads this
      requires ValidPools(pools)
    {
      && Best(tokenIn, tokenOut, q.path, needed)
      && q.amountIn == Cost(q.path, needed) && Quote(pools, q.path, q.amountIn) == Ok(q.amountOut)
      && needed <= q.amountOutMin <= q.amountOut
      && q.slippageBps == slippage && q.estimatedGas == 100_000 + 50_000 * (|q.path| - 1)
      && var least := MinAmountOut(q.amountOut, slippage);
         q.amountOutMin == if least >= needed then least else needed
    }

    // ----- when a route is skipped for rounding -----

    // A route that is profitable on paper is accepted for every amount from its threshold up to any amount
    // that stays within 256 bits.
    lemma ProfitableRouteIsAccepted(tokenIn: Token, tokenOut: Token, p: Path, x: u256, xMax: u256)
      requires ValidPools(pools) && Route(tokenIn, tokenOut, p)
      requires Priced(pools, p) && Profitable(pools, p, slippage)
      requires Threshold(pools, p, slippage) <= x <= xMax && Fits(RouteSteps(pools, p, slippage), xMax)
      ensures Accepted(tokenIn, tokenOut, p, x)
    {
      FitsDownward(RouteSteps(pools, p, slippage), xMax, x);
      AcceptedFromThreshold(pools, p, slippage, x);
    }

    // So the search answers with a route, and with one that is no dearer.
    lemma ProfitableRouteIsNeverSkipped(tokenIn: Token, tokenOut: Token, p: Path, x: u256, xMax: u256,
                                        r: Result<SwapQuote, DexError>)
      requires ValidPools(pools) && Route(tokenIn, tokenOut, p)
      requires Priced(pools, p) && Profitable(pools, p, slippage)
      requires Threshold(pools, p, slippage) <= x <= xMax && Fits(RouteSteps(pools, p, slippage), xMax)
      requires Answers(tokenIn, tokenOut, x, r)
      ensures r.Ok? && r.value.amountIn <= Cost(p, x)
    {
      ProfitableRouteIsAccepted(tokenIn, tokenOut, p, x, xMax);
    }

    // A route that loses on paper is never accepted.
    lemma LosingRouteIsRejected(tokenIn: Token, tokenOut: Token, p: Path, x: u256)
      requires ValidPools(pools) && Priced(pools, p) && Loses(pools, p, slippage) && x > 0
      ensures !Accepted(tokenIn, tokenOut, p, x)
    {
      RejectedBelowPar(pools, p, slippage, x);
    }

    // If every route loses, the search ends with InsufficientLiquidity, whatever the amount.
    lemma LosingRoutesAreInsufficient(tokenIn: Token, tokenOut: Token, x: u256, r: Result<SwapQuote, DexError>)
      requires ValidPools(pools) && x > 0
      requires exists p :: Route(tokenIn, tokenOut, p)
      requires forall p :: Route(tokenIn, tokenOut, p) && Priced(pools, p) ==> Loses(pools, p, slippage)
      requires Answers(tokenIn, tokenOut, x, r)
      ensures r == Err(InsufficientLiquidity)
    {
      forall p | Accepted(tokenIn, tokenOut, p, x)
        ensures !Accepted(tokenIn, tokenOut, p, x)
      {
        LosingRouteIsRejected(tokenIn, tokenOut, p, x);
      }
    }

    method FindBestRoute(tokenIn: Token, tokenOut: Token, needed: u256)
      returns (r: Result<SwapQuote, DexError>)
      requires ValidPools(pools)
      ensures Answers(tokenIn, tokenOut, needed, r)
    {
      var routes := FindAllRoutes(pools, tokenIn, tokenOut, maxHops);
      if routes == [] {
        return Err(NoRouteFound(tokenIn, tokenOut));
      }
      assert routes[0] in routes;
      var best := CheapestRoute(tokenIn, tokenOut, routes, needed);
      if best.None? {
        assert Route(tokenIn, tokenOut, routes[0]);
        return Err(InsufficientLiquidity);
      }
      var (path, amountIn, amountOut) := best.value;
      PricedRoute(tokenIn, tokenOut, path, needed);
      var floor := MinAmountOut(amountOut, slippage);
      var amountOutMin := if floor >= needed then floor else needed;
      r := Ok(SwapQuote(path, amountIn, amountOut, amountOutMin, slippage, EstimateSwapGas(|path| - 1)));
    }

    // The loop over the enumerated routes. Neither price lookup can fail on them.
    method CheapestRoute(tokenIn: Token, tokenOut: Token, routes: seq<Path>, needed: u256)
      returns (best: Option<(Path, u256, u256)>)
      requires ValidPools(pools) && Sorted(routes) && routes == Found(tokenIn, tokenOut)
      requires forall p :: p in routes <==> Route(tokenIn, tokenOut, p)
      ensures best.None? <==> forall p :: !Accepted(tokenIn, tokenOut, p, needed)
      ensures best.Some? ==>
        && Best(tokenIn, tokenOut, best.value.0, needed)
        && best.value.1 == Cost(best.value.0, needed) && best.value.2 == Output(best.value.0, needed)
    {
      best := None;
      for i := 0 to |routes|
        invariant BestOf(tokenIn, tokenOut, routes, i, needed, best)
      {
        assert routes[i] in routes;
        ghost var previous := best;
        best := Weigh(tokenIn, tokenOut, routes[i], needed, best);
        BestOfNext(tokenIn, tokenOut, routes, i, needed, previous, best);
      }
      BestOfAll(tokenIn, tokenOut, routes, needed, best);
    }

    // One route against the best so far.
    method Weigh(tokenIn: Token, tokenOut: Token, route: Path, needed: u256, previous: Option<(Path, u256, u256)>)
      returns (best: Option<(Path, u256, u256)>)
      requires ValidPools(pools) && Route(tokenIn, tokenOut, route)
      ensures Priced(pools, route) && Weighed(tokenIn, tokenOut, route, needed, previous, best)
    {
      PricedRoute(tokenIn, tokenOut, route, needed);
      var input := CalculateInputNeeded(pools, route, needed);
      var buffered := AddSlippageBuffer(input.value, slippage);
      var output := CalculateQuote(pools, route, buffered);
      best := previous;
      if output.value >= needed && (best.None? || buffered < best.value.1) {
        best := Some((route, buffered, output.value));
      }
    }

    lemma PricedRoute(tokenIn: Token, tokenOut: Token, p: Path, needed: u256)
      requires ValidPools(pools) && Route(tokenIn, tokenOut, p)
      ensures Priced(pools, p)
      ensures InputNeeded(pools, p, needed).Ok?
      ensures AddSlippageBuffer(InputNeeded(pools, p, needed).value, slippage) == Cost(p, needed)
      ensures Quote(pools, p, Cost(p, needed)) == Ok(Output(p, needed))
    {
      RoutesArePriced(pools, p);
      InputNeededIsRun(pools, p, needed);
      OutputIsRun(pools, p, slippage, needed);
    }

    // One more route has been weighed against the best so far.
    ghost predicate Weighed(tokenIn: Token, tokenOut: Token, p: Path, needed: u256,
                            previous: Option<(Path, u256, u256)>, best: Option<(Path, u256, u256)>)
      reads this
      requires ValidPools(pools) && Priced(pools, p)
    {
      best == if Output(p, needed) >= needed && (previous.None? || Cost(p, needed) < previous.value.1)
              then Some((p, Cost(p, needed), Output(p, needed))) else previous
    }

    lemma BestOfNext(tokenIn: Token, tokenOut: Token, routes: seq<Path>, i: nat, needed: u256,
                     previous: Option<(Path, u256, u256)>, best: Option<(Path, u256, u256)>)
      requires ValidPools(pools) && i < |routes|
      requires Route(tokenIn, tokenOut, routes[i]) && Priced(pools, routes[i])
      requires BestOf(tokenIn, tokenOut, routes, i, needed, previous)
      requires Weighed(tokenIn, tokenOut, routes[i], needed, previous, best)
      ensures BestOf(tokenIn, tokenOut, routes, i + 1, needed, best)
    {
      if previous.Some? {
        var k: nat :| Wins(tokenIn, tokenOut, needed, routes, i, k) && routes[k] == previous.value.0;
        if best == previous {
          assert Wins(tokenIn, tokenOut, needed, routes, i + 1, k);
        } else {
          assert Wins(tokenIn, tokenOut, needed, routes, i + 1, i);
        }
      } else if best.Some? {
        assert Wins(tokenIn, tokenOut, needed, routes, i + 1, i);
      }
    }

    lemma BestOfAll(tokenIn: Token, tokenOut: Token, routes: seq<Path>, needed: u256,
                    best: Option<(Path, u256, u256)>)
      requires ValidPools(pools) && routes == Found(tokenIn, tokenOut) && Sorted(routes)
      requires forall p :: p in routes <==> Route(tokenIn, tokenOut, p)
      requires BestOf(tokenIn, tokenOut, routes, |routes|, needed, best)
      ensures best.None? ==> forall p :: !Accepted(tokenIn, tokenOut, p, needed)
      ensures best.Some? ==> Best(tokenIn, tokenOut, best.value.0, needed)
    {
      if best.Some? {
        var k: nat :| Wins(tokenIn, tokenOut, needed, routes, |routes|, k) && routes[k] == best.value.0;
        WinnerIsCheapest(tokenIn, tokenOut, routes, needed, k);
      } else {
        forall p | Route(tokenIn, tokenOut, p)
          ensures !Accepted(tokenIn, tokenOut, p, needed)
        {
          assert p in routes;
        }
      }
    }

    // Routes are found shortest first, so the first among equally cheap ones has the fewest hops.
    lemma WinnerIsCheapest(tokenIn: Token, tokenOut: Token, routes: seq<Path>, needed: u256, k: nat)
      requires ValidPools(pools) && Sorted(routes) && Wins(tokenIn, tokenOut, needed, routes, |routes|, k)
      requires forall p :: p in routes <==> Route(tokenIn, tokenOut, p)
      ensures forall q :: Accepted(tokenIn, tokenOut, q, needed) ==>
        || Cost(routes[k], needed) < Cost(q, needed)
        || (Cost(routes[k], needed) == Cost(q, needed) && |routes[k]| <= |q|)
    {
      forall q | Accepted(tokenIn, tokenOut, q, needed)
        ensures Cost(routes[k], needed) <= Cost(q, needed)
        ensures Cost(routes[k], needed) == Cost(q, needed) ==> |routes[k]| <= |q|
      {
        assert q in routes;
        var j :| 0 <= j < |routes| && routes[j] == q;
      }
    }

    // The winner among the first n routes, if any of them is accepted.
    ghost predicate BestOf(tokenIn: Token, tokenOut: Token, routes: seq<Path>, n: nat, needed: u256,
                           best: Option<(Path, u256, u256)>)
      reads this
      requires ValidPools(pools) && n <= |routes|
    {
      if best.None? then forall j :: 0 <= j < n ==> !Accepted(tokenIn, tokenOut, routes[j], needed)
      else
        var (path, cost, output) := best.value;
        && Accepted(tokenIn, tokenOut, path, needed)
        && cost == Cost(path, needed) && output == Output(path, needed)
        && exists k: nat :: Wins(tokenIn, tokenOut, needed, routes, n, k) && routes[k] == path
    }
  }
}
