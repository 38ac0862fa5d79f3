/** The value history of earn positions, src/services/earn/value_history.py,
    over exact reals. */
module EarnValue {
  import EarnRates
  import opened Tables
  import opened TimeSeries

  type PoolId = nat
  type TokenId = nat

  /** A position is keyed by pool and token. */
  datatype Position = Position(pool: PoolId, token: TokenId)

  /** A settled cashflow: a deposit counts positive, a withdrawal negative. */
  datatype Cashflow = Cashflow(position: Position, amount: real)

  type Flows = seq<Stamped<Cashflow>>
  type Growth = (PoolId, int, int) -> real

  /** Splitting a window multiplies its growth. */
  ghost predicate ComposesAt(growth: Growth, p: PoolId, a: int, b: int, c: int) {
    a <= b < c ==> growth(p, a, c) == growth(p, a, b) * growth(p, b, c)
  }

  ghost predicate ComposesIn(growth: Growth, p: PoolId) {
    forall a, b, c :: ComposesAt(growth, p, a, b, c)
  }

  /** What the stepwise loop needs of the growth, exactly (`StepwiseIff`); `ResolverComposesIff`
      says when it has it. */
  ghost predicate Composes(growth: Growth) {
    forall p :: ComposesIn(growth, p)
  }

  /** The growth `EarnRateResolver` gives, from what each pool is read from. */
  function Resolved(sources: PoolId -> EarnRates.Source, ln: int -> real, exp: real -> real): Growth {
    (p: PoolId, a: int, b: int) => EarnRates.Resolve(sources(p), ln, exp, a, b)
  }

  /** It composes exactly when, for every pool listed as sampled, its samples and its APY
      history agree wherever samples are; so with none listed, as they are by default, always. */
  lemma ResolverComposesIff(sources: PoolId -> EarnRates.Source, ln: int -> real, exp: real -> real)
    requires EarnRates.Exponential(exp) && forall p :: Ordered(sources(p).points)
    ensures Composes(Resolved(sources, ln, exp)) <==> forall p :: EarnRates.Agrees(sources(p), ln, exp)
  {
    forall p ensures ComposesIn(Resolved(sources, ln, exp), p) <==> EarnRates.Agrees(sources(p), ln, exp) {
      PoolComposesIff(sources, ln, exp, p);
    }
    hide ComposesIn, EarnRates.Agrees, Resolved;
  }

  lemma PoolComposesIff(sources: PoolId -> EarnRates.Source, ln: int -> real, exp: real -> real, p: PoolId)
    requires EarnRates.Exponential(exp) && Ordered(sources(p).points)
    ensures ComposesIn(Resolved(sources, ln, exp), p) <==> EarnRates.Agrees(sources(p), ln, exp)
  {
    var growth, s := Resolved(sources, ln, exp), sources(p);
    EarnRates.SplitsIff(s, ln, exp);
    hide EarnRates.Agrees, EarnRates.SplitsAt, EarnRates.Exponential, ComposesAt, Resolved;
    forall a, b, c ensures ComposesAt(growth, p, a, b, c) <==> EarnRates.SplitsAt(s, ln, exp, a, b, c) {
      SameSplit(sources, ln, exp, p, a, b, c);
    }
    if EarnRates.Splits(s, ln, exp) {
      forall a, b, c ensures ComposesAt(growth, p, a, b, c) {
        assert EarnRates.SplitsAt(s, ln, exp, a, b, c);
      }
    }
    if ComposesIn(growth, p) {
      forall a, b, c ensures EarnRates.SplitsAt(s, ln, exp, a, b, c) {
        assert ComposesAt(growth, p, a, b, c);
      }
    }
  }

  lemma SameSplit(sources: PoolId -> EarnRates.Source, ln: int -> real, exp: real -> real, p: PoolId, a: int, b: int,
                  c: int)
    ensures ComposesAt(Resolved(sources, ln, exp), p, a, b, c) <==> EarnRates.SplitsAt(sources(p), ln, exp, a, b, c)
  {
    if a <= b < c {
      SplitsWithin(sources, ln, exp, p, a, b, c);
    } else if b == c {
      SplitsAtEnd(sources(p), ln, exp, a, b);
    }
    hide EarnRates.Resolve, Resolved;
  }

  lemma SplitsWithin(sources: PoolId -> EarnRates.Source, ln: int -> real, exp: real -> real, p: PoolId, a: int,
                     b: int, c: int)
    requires a <= b < c
    ensures ComposesAt(Resolved(sources, ln, exp), p, a, b, c) <==> EarnRates.SplitsAt(sources(p), ln, exp, a, b, c)
  {
    hide EarnRates.Resolve;
  }

  /** An empty window grows nothing. */
  lemma SplitsAtEnd(s: EarnRates.Source, ln: int -> real, exp: real -> real, a: int, b: int)
    ensures EarnRates.SplitsAt(s, ln, exp, a, b, b)
  {
    assert EarnRates.Resolve(s, ln, exp, b, b) == 1.0;
    TimesOne(EarnRates.Resolve(s, ln, exp, a, b), EarnRates.Resolve(s, ln, exp, b, b));
    hide EarnRates.Resolve;
  }

  lemma TimesOne(x: real, y: real)
    requires y == 1.0
    ensures x * y == x
  {
  }

  ghost predicate Grid(times: seq<int>) {
    forall i, j :: 0 <= i < j < |times| ==> times[i] < times[j]
  }

  function Contribution(f: Stamped<Cashflow>, growth: Growth, t: int): real {
    f.value.amount * growth(f.value.position.pool, f.at, t)
  }

  /** The flows after one time and up to another, each grown from its own time. */
  function Entering(flows: Flows, growth: Growth, after: Option<int>, t: int): real {
    if flows == [] then 0.0
    else
      var last := flows[|flows| - 1];
      Entering(flows[..|flows| - 1], growth, after, t)
      + if (after.Some? ==> after.value < last.at) && last.at <= t then Contribution(last, growth, t) else 0.0
  }

  /** The valuation identity: every flow at or before `t`, grown from its own time. */
  function DirectSum(flows: Flows, growth: Growth, t: int): real {
    Entering(flows, growth, None, t)
  }

  function Grown(value: real, growth: Growth, pool: PoolId, t: int, u: int): real {
    value * growth(pool, t, u)
  }

  /** Stepping: the value at the grid point before, grown to this one, and what came in since. */
  function Stepwise(flows: Flows, growth: Growth, pool: PoolId, grid: seq<int>, k: nat): real
    requires k < |grid|
  {
    if k == 0 then Entering(flows, growth, None, grid[0])
    else
      Grown(Stepwise(flows, growth, pool, grid, k - 1), growth, pool, grid[k - 1], grid[k])
      + Entering(flows, growth, Some(grid[k - 1]), grid[k])
  }

  ghost predicate SamePool(flows: Flows, pool: PoolId) {
    forall f <- flows :: f.value.position.pool == pool
  }

  lemma ContributionGrows(f: Stamped<Cashflow>, growth: Growth, t: int, u: int)
    requires ComposesIn(growth, f.value.position.pool) && f.at <= t < u
    ensures Contribution(f, growth, u) == Contribution(f, growth, t) * growth(f.value.position.pool, t, u)
  {
    var p := f.value.position.pool;
    assert ComposesAt(growth, p, f.at, t, u);
    Regroup(f.value.amount, growth(p, f.at, t), growth(p, t, u));
  }

  lemma Regroup(a: real, b: real, c: real)
    ensures a * (b * c) == a * b * c
  {
  }

  /** Where the growth composes, the flows already in grow as one sum from `t` on. */
  lemma {:induction false} SumGrows(flows: Flows, growth: Growth, pool: PoolId, t: int, u: int)
    requires ComposesIn(growth, pool) && t < u && SamePool(flows, pool)
    ensures DirectSum(flows, growth, u)
            == DirectSum(flows, growth, t) * growth(pool, t, u) + Entering(flows, growth, Some(t), u)
    decreases |flows|
  {
    hide Contribution, ComposesIn;
    if flows != [] {
      var n := |flows| - 1;
      assert flows[n] in flows;
      assert forall f <- flows[..n] :: f in flows;
      SumGrows(flows[..n], growth, pool, t, u);
      if flows[n].at <= t {
        ContributionGrows(flows[n], growth, t, u);
        GrowBoth(DirectSum(flows[..n], growth, t), Contribution(flows[n], growth, t), growth(pool, t, u),
                 Contribution(flows[n], growth, u));
      }
    }
  }

  lemma GrowBoth(a: real, b: real, g: real, b': real)
    requires b' == b * g
    ensures a * g + b' == (a + b) * g
  {
  }

  /** So stepping along the grid gives the direct sum at each of its points. */
  lemma {:induction false} StepwiseIsDirect(flows: Flows, growth: Growth, pool: PoolId, grid: seq<int>, k: nat)
    requires ComposesIn(growth, pool) && SamePool(flows, pool) && Grid(grid) && k < |grid|
    ensures Stepwise(flows, growth, pool, grid, k) == DirectSum(flows, growth, grid[k])
  {
    if k > 0 {
      StepwiseIsDirect(flows, growth, pool, grid, k - 1);
      SumGrows(flows, growth, pool, grid[k - 1], grid[k]);
      hide Entering, DirectSum, ComposesIn;
    }
  }

  ghost predicate StepsAt(flows: Flows, growth: Growth, pool: PoolId, grid: seq<int>, k: nat) {
    Ordered(flows) && SamePool(flows, pool) && Grid(grid) && k < |grid| ==>
      Stepwise(flows, growth, pool, grid, k) == DirectSum(flows, growth, grid[k])
  }

  /** Stepping gives the direct sum for every history of the pool, at every point of every grid. */
  ghost predicate StepsDirectly(growth: Growth, pool: PoolId) {
    forall flows, grid, k: nat :: StepsAt(flows, growth, pool, grid, k)
  }

  function One(pool: PoolId, at: int): Flows {
    [Stamped(at, Cashflow(Position(pool, 0), 1.0))]
  }

  /** One unit put in at `a`, stepped from `b` to `c`. */
  lemma StepsOne(growth: Growth, pool: PoolId, a: int, b: int, c: int)
    requires a <= b < c
    ensures Stepwise(One(pool, a), growth, pool, [b, c], 1) == growth(pool, a, b) * growth(pool, b, c)
    ensures DirectSum(One(pool, a), growth, c) == growth(pool, a, c)
  {
    var flows := One(pool, a);
    assert flows[..0] == [];
    assert Entering(flows, growth, Some(b), c) == 0.0;
    OneEnters(growth, pool, a, b);
    OneEnters(growth, pool, a, c);
    assert [b, c][0] == b && [b, c][1] == c;
    hide Entering;
    EarnRates.SameProduct(Entering(flows, growth, None, b), growth(pool, b, c), growth(pool, a, b), growth(pool, b, c));
  }

  lemma OneEnters(growth: Growth, pool: PoolId, a: int, t: int)
    requires a <= t
    ensures Entering(One(pool, a), growth, None, t) == growth(pool, a, t)
  {
    assert One(pool, a)[..0] == [];
  }

  /** Stepping is the direct sum whatever came in and went out, along any grid, exactly where
      the growth composes. */
  lemma StepwiseIff(growth: Growth, pool: PoolId)
    ensures StepsDirectly(growth, pool) <==> ComposesIn(growth, pool)
  {
    hide ComposesAt, Stepwise, DirectSum;
    if ComposesIn(growth, pool) {
      forall flows, grid, k: nat ensures StepsAt(flows, growth, pool, grid, k) {
        if SamePool(flows, pool) && Grid(grid) && k < |grid| {
          StepwiseIsDirect(flows, growth, pool, grid, k);
        }
      }
    }
    if StepsDirectly(growth, pool) {
      forall a, b, c ensures ComposesAt(growth, pool, a, b, c) {
        StepsOneIff(growth, pool, a, b, c);
      }
    }
  }

  lemma StepsOneIff(growth: Growth, pool: PoolId, a: int, b: int, c: int)
    requires StepsAt(One(pool, a), growth, pool, [b, c], 1)
    ensures ComposesAt(growth, pool, a, b, c)
  {
    if a <= b < c {
      StepsOne(growth, pool, a, b, c);
      hide Stepwise, DirectSum;
    }
  }

  /** So with the resolver exactly for a pool that is not sampled or whose samples agree with
      its APY history wherever they are. */
  lemma ResolverStepsIff(sources: PoolId -> EarnRates.Source, ln: int -> real, exp: real -> real, pool: PoolId)
    requires EarnRates.Exponential(exp) && Ordered(sources(pool).points)
    ensures StepsDirectly(Resolved(sources, ln, exp), pool) <==> EarnRates.Agrees(sources(pool), ln, exp)
  {
    hide *;
    StepwiseIff(Resolved(sources, ln, exp), pool);
    PoolComposesIff(sources, ln, exp, pool);
  }

  /** A sampled pool whose rate doubled between its two samples, and no APY history. */
  function Doubling(): EarnRates.Source {
    EarnRates.Source(true, [Stamped(10, EarnRates.Sample(0, 0)), Stamped(20, EarnRates.Sample(1, 0))], [])
  }

  lemma DoublingRates(ln: int -> real, exp: real -> real)
    ensures EarnRates.Resolve(Doubling(), ln, exp, 0, 10) == 1.0
    ensures EarnRates.Resolve(Doubling(), ln, exp, 0, 20) == 1.0
    ensures EarnRates.Resolve(Doubling(), ln, exp, 10, 20) == 2.0
  {
    var points := Doubling().points;
    UpToUnique(points, 0, 0);
    UpToUnique(points, 10, 1);
    UpToUnique(points, 20, 2);
    hide UpTo;
  }

  /** One unit put in before the first sample is worth two when stepped over the samples, and
      one as the direct sum. */
  lemma SteppedDiffers(ln: int -> real, exp: real -> real, pool: PoolId)
    ensures var growth := Resolved(_ => Doubling(), ln, exp);
            && Stepwise(One(pool, 0), growth, pool, [10, 20], 1) == 2.0
            && DirectSum(One(pool, 0), growth, 20) == 1.0
  {
    DoublingRates(ln, exp);
    hide EarnRates.Resolve, Doubling, Stepwise, DirectSum;
    StepsOne(Resolved(_ => Doubling(), ln, exp), pool, 0, 10, 20);
  }

  /** Flows after `t` add nothing yet. */
  lemma {:induction false} LaterAddNothing(flows: Flows, growth: Growth, after: Option<int>, n: nat, t: int)
    requires n <= |flows| && forall i :: n <= i < |flows| ==> flows[i].at > t
    ensures Entering(flows, growth, after, t) == Entering(flows[..n], growth, after, t)
    decreases |flows|
  {
    hide Contribution;
    if n == |flows| {
      assert flows[..n] == flows;
    } else {
      var front := flows[..|flows| - 1];
      LaterAddNothing(front, growth, after, n, t);
      assert front[..n] == flows[..n];
    }
  }

  /** Those taken before add nothing again. */
  lemma {:induction false} EarlierAddNothing(flows: Flows, growth: Growth, after: Option<int>, t: int)
    requires forall f <- flows :: after.Some? && f.at <= after.value
    ensures Entering(flows, growth, after, t) == 0.0
    decreases |flows|
  {
    hide Contribution;
    if flows != [] {
      assert flows[|flows| - 1] in flows;
      assert forall f <- flows[..|flows| - 1] :: f in flows;
      EarlierAddNothing(flows[..|flows| - 1], growth, after, t);
    }
  }

  lemma {:induction false} TakeOne(flows: Flows, growth: Growth, after: Option<int>, t: int, index: nat)
    requires index < |flows| && flows[index].at <= t && (after.Some? ==> after.value < flows[index].at)
    ensures Entering(flows[..index + 1], growth, after, t)
            == Entering(flows[..index], growth, after, t) + Contribution(flows[index], growth, t)
  {
    hide Contribution;
    assert flows[..index + 1][..index] == flows[..index];
  }

  /** The grid point before the `k`th. */
  function Before(grid: seq<int>, k: nat): Option<int>
    requires k <= |grid|
  {
    if k == 0 then None else Some(grid[k - 1])
  }

  function TakenBy(flows: Flows, after: Option<int>): nat {
    if after.Some? then UpTo(flows, after.value) else 0
  }

  /** The loop over the grid for one position: each grid point takes one growth
      factor from the point before, unless the position is empty, and one per new flow. */
  method StepPosition(flows: Flows, growth: Growth, pool: PoolId, grid: seq<int>) returns (values: seq<real>)
    requires Ordered(flows) && SamePool(flows, pool) && Grid(grid)
    ensures |values| == |grid|
    ensures forall k: nat :: k < |grid| ==> values[k] == Stepwise(flows, growth, pool, grid, k)
    ensures ComposesIn(growth, pool) ==> forall k :: 0 <= k < |grid| ==> values[k] == DirectSum(flows, growth, grid[k])
  {
    hide *;
    values := [];
    var value, index := 0.0, 0;
    for k := 0 to |grid|
      invariant |values| == k && index == (if k == 0 then 0 else TakenBy(flows, Before(grid, k)))
      invariant value == if k == 0 then 0.0 else Stepwise(flows, growth, pool, grid, k - 1)
      invariant forall j: nat :: j < k ==> values[j] == Stepwise(flows, growth, pool, grid, j)
    {
      StepwiseAt(flows, growth, pool, grid, k);
      if k > 0 {
        value := Grow(value, growth, pool, grid[k - 1], grid[k]);
      }
      value, index := TakeFlows(flows, growth, pool, Before(grid, k), grid[k], value, index);
      values := values + [value];
    }
    if ComposesIn(growth, pool) {
      AllDirect(flows, growth, pool, grid);
    }
  }

  lemma StepwiseAt(flows: Flows, growth: Growth, pool: PoolId, grid: seq<int>, k: nat)
    requires k < |grid| && Grid(grid)
    ensures k == 0 ==> TakenBy(flows, Before(grid, k)) == 0
    ensures k > 0 ==> Before(grid, k) == Some(grid[k - 1]) && grid[k - 1] < grid[k]
    ensures Before(grid, k).Some? ==> Before(grid, k).value < grid[k]
    ensures TakenBy(flows, Before(grid, k + 1)) == UpTo(flows, grid[k])
    ensures Stepwise(flows, growth, pool, grid, k) ==
              (if k == 0 then 0.0
               else Grown(Stepwise(flows, growth, pool, grid, k - 1), growth, pool, grid[k - 1], grid[k]))
              + Entering(flows, growth, Before(grid, k), grid[k])
  {
    hide Entering;
  }

  /** An empty position is not grown: no rate is read for it. */
  method Grow(value: real, growth: Growth, pool: PoolId, t: int, u: int) returns (grown: real)
    ensures grown == Grown(value, growth, pool, t, u)
  {
    grown := value;
    if value != 0.0 {
      grown := value * growth(pool, t, u);
    }
  }

  lemma AllDirect(flows: Flows, growth: Growth, pool: PoolId, grid: seq<int>)
    requires ComposesIn(growth, pool) && SamePool(flows, pool) && Grid(grid)
    ensures forall k: nat :: k < |grid| ==> Stepwise(flows, growth, pool, grid, k) == DirectSum(flows, growth, grid[k])
  {
    hide Stepwise, DirectSum, ComposesIn, Grid, SamePool;
    forall k: nat | k < |grid| ensures Stepwise(flows, growth, pool, grid, k) == DirectSum(flows, growth, grid[k]) {
      StepwiseIsDirect(flows, growth, pool, grid, k);
    }
  }

  /** The inner loop: the flows that happened by `t` and were not taken yet. */
  method TakeFlows(flows: Flows, growth: Growth, pool: PoolId, ghost after: Option<int>, t: int, before: real,
                   from: nat)
    returns (value: real, index: nat)
    requires Ordered(flows) && SamePool(flows, pool)
    requires from == TakenBy(flows, after) && (after.Some? ==> after.value < t)
    ensures index == UpTo(flows, t) && value == before + Entering(flows, growth, after, t)
  {
    hide Contribution, Entering;
    value, index := before, from;
    EarlierAddNothing(flows[..from], growth, after, t);
    while index < |flows| && flows[index].at <= t
      invariant from <= index <= |flows|
      invariant forall i :: 0 <= i < index ==> flows[i].at <= t
      invariant value == before + Entering(flows[..index], growth, after, t)
    {
      var flow := flows[index];
      assert after.Some? ==> after.value < flow.at by {
        if after.Some? {
          UpToIsAll(flows, after.value, index);
        }
      }
      TakeOne(flows, growth, after, t, index);
      assert flow in flows;
      value := value + flow.value.amount * growth(pool, flow.at, t);
      ContributionIs(flow, growth, t);
      index := index + 1;
    }
    UpToUnique(flows, t, index);
    forall i | index <= i < |flows| ensures flows[i].at > t {
      UpToIsAll(flows, t, i);
    }
    LaterAddNothing(flows, growth, after, index, t);
  }

  lemma ContributionIs(f: Stamped<Cashflow>, growth: Growth, t: int)
    ensures Contribution(f, growth, t) == f.value.amount * growth(f.value.position.pool, f.at, t)
  {
  }

  // ---- All positions ----

  function Of(flows: Flows, p: Position): (r: Flows)
    ensures SamePool(r, p.pool)
    ensures forall f <- r :: f in flows && f.value.position == p
    ensures Ordered(flows) ==> Ordered(r)
  {
    if flows == [] then []
    else
      var front, last := Of(flows[..|flows| - 1], p), flows[|flows| - 1];
      assert forall f <- front :: f in flows[..|flows| - 1];
      if last.value.position == p then front + [last] else front
  }

  /** The positions in order of their first flow. */
  function Positions(flows: Flows): (r: seq<Position>)
    ensures forall f <- flows :: f.value.position in r
    ensures forall i, j :: 0 <= i < j < |r| ==> r[i] != r[j]
  {
    if flows == [] then []
    else
      var front, p := Positions(flows[..|flows| - 1]), flows[|flows| - 1].value.position;
      if p in front then front else front + [p]
  }

  function Clamp(x: real): real {
    if x < 0.0 then 0.0 else x
  }

  /** A token's value: its positions as stepped, each reported as zero when its
      residual is negative. */
  function TokenValue(flows: Flows, growth: Growth, token: TokenId, positions: seq<Position>, grid: seq<int>,
                      k: nat): real
    requires k < |grid|
  {
    if positions == [] then 0.0
    else
      var p := positions[|positions| - 1];
      TokenValue(flows, growth, token, positions[..|positions| - 1], grid, k)
      + if p.token == token then Clamp(Stepwise(Of(flows, p), growth, p.pool, grid, k)) else 0.0
  }

  /** And from the direct sums. */
  function DirectValue(flows: Flows, growth: Growth, token: TokenId, positions: seq<Position>, t: int): real {
    if positions == [] then 0.0
    else
      var p := positions[|positions| - 1];
      DirectValue(flows, growth, token, positions[..|positions| - 1], t)
      + if p.token == token then Clamp(DirectSum(Of(flows, p), growth, t)) else 0.0
  }

  lemma {:induction false} TokenValueIsDirect(flows: Flows, growth: Growth, token: TokenId, positions: seq<Position>,
                                              grid: seq<int>, k: nat)
    requires k < |grid| && Grid(grid)
    requires forall p <- positions :: p.token == token ==> ComposesIn(growth, p.pool)
    ensures TokenValue(flows, growth, token, positions, grid, k) ==
              DirectValue(flows, growth, token, positions, grid[k])
    decreases |positions|
  {
    hide ComposesIn, DirectSum, Stepwise;
    if positions != [] {
      var front, p := positions[..|positions| - 1], positions[|positions| - 1];
      assert p in positions && forall q <- front :: q in positions;
      TokenValueIsDirect(flows, growth, token, front, grid, k);
      if p.token == token {
        StepwiseIsDirect(Of(flows, p), growth, p.pool, grid, k);
      }
    }
  }

  /** The totals at one grid point after the first positions were added. */
  ghost predicate TotalsOf(total: map<TokenId, real>, flows: Flows, growth: Growth, positions: seq<Position>,
                           grid: seq<int>, k: nat)
    requires k < |grid|
  {
    && total.Keys == Tokens(flows)
    && forall token <- total :: total[token] == TokenValue(flows, growth, token, positions, grid, k)
  }

  function Tokens(flows: Flows): set<TokenId> {
    set f <- flows :: f.value.position.token
  }

  function Credit(total: map<TokenId, real>, token: TokenId, x: real): map<TokenId, real>
    requires token in total
  {
    total[token := total[token] + x]
  }

  lemma {:induction false} CreditPosition(total: map<TokenId, real>, flows: Flows, growth: Growth,
                                          positions: seq<Position>, n: nat, grid: seq<int>, k: nat)
    requires n < |positions| && k < |grid| && TotalsOf(total, flows, growth, positions[..n], grid, k)
    requires positions[n].token in total
    ensures var p := positions[n];
            TotalsOf(Credit(total, p.token, Clamp(Stepwise(Of(flows, p), growth, p.pool, grid, k))),
                     flows, growth, positions[..n + 1], grid, k)
  {
    hide Stepwise, Clamp, Of;
    assert positions[..n + 1][..n] == positions[..n];
  }

  /** `earn_value_series`, before fiat conversion: the token totals at every grid point,
      and when they are the direct sums. */
  method EarnValueSeries(flows: Flows, growth: Growth, grid: seq<int>) returns (totals: seq<map<TokenId, real>>)
    requires Ordered(flows) && Grid(grid)
    ensures |totals| == |grid|
    ensures forall k: nat :: k < |grid| ==> TotalsOf(totals[k], flows, growth, Positions(flows), grid, k)
    ensures Composes(growth) ==> forall k: nat, token :: k < |grid| && token in totals[k] ==>
              totals[k][token] == DirectValue(flows, growth, token, Positions(flows), grid[k])
  {
    var zero := map token <- Tokens(flows) :: 0.0;
    totals := seq(|grid|, i => zero);
    var positions := Positions(flows);
    for n := 0 to |positions|
      invariant |totals| == |grid|
      invariant forall k: nat :: k < |grid| ==> TotalsOf(totals[k], flows, growth, positions[..n], grid, k)
    {
      var values := StepPosition(Of(flows, positions[n]), growth, positions[n].pool, grid);
      PositionToken(flows, n);
      totals := AddPosition(flows, growth, positions, n, grid, totals, values);
    }
    assert positions[..|positions|] == positions;
    if Composes(growth) {
      SeriesIsDirect(flows, growth, grid, totals);
    }
  }

  lemma SeriesIsDirect(flows: Flows, growth: Growth, grid: seq<int>, totals: seq<map<TokenId, real>>)
    requires Composes(growth) && Grid(grid) && |totals| == |grid|
    requires forall k: nat :: k < |grid| ==> TotalsOf(totals[k], flows, growth, Positions(flows), grid, k)
    ensures forall k: nat, token :: k < |grid| && token in totals[k] ==>
              totals[k][token] == DirectValue(flows, growth, token, Positions(flows), grid[k])
  {
    hide ComposesIn, TokenValue, DirectValue;
    forall k: nat, token | k < |grid| && token in totals[k]
      ensures totals[k][token] == DirectValue(flows, growth, token, Positions(flows), grid[k])
    {
      TokenValueIsDirect(flows, growth, token, Positions(flows), grid, k);
    }
  }

  lemma {:induction false} PositionToken(flows: Flows, n: nat)
    requires n < |Positions(flows)|
    ensures Positions(flows)[n].token in Tokens(flows)
    decreases |flows|
  {
    var front, last := flows[..|flows| - 1], flows[|flows| - 1];
    assert last in flows;
    if n < |Positions(front)| {
      PositionToken(front, n);
      var f :| f in front && f.value.position.token == Positions(front)[n].token;
      assert f in flows;
    }
  }

  /** One position's clamped values added to its token's totals. */
  method AddPosition(flows: Flows, growth: Growth, positions: seq<Position>, n: nat, grid: seq<int>,
                     before: seq<map<TokenId, real>>, values: seq<real>)
    returns (totals: seq<map<TokenId, real>>)
    requires n < |positions| && |before| == |grid| == |values|
    requires positions[n].token in Tokens(flows)
    requires forall k: nat :: k < |grid| ==> TotalsOf(before[k], flows, growth, positions[..n], grid, k)
    requires forall k: nat :: k < |grid| ==>
               values[k] == Stepwise(Of(flows, positions[n]), growth, positions[n].pool, grid, k)
    ensures |totals| == |grid|
    ensures forall k: nat :: k < |grid| ==> TotalsOf(totals[k], flows, growth, positions[..n + 1], grid, k)
  {
    totals := before;
    hide Stepwise, Of;
    for k := 0 to |grid|
      invariant |totals| == |grid|
      invariant forall j: nat :: j < k ==> TotalsOf(totals[j], flows, growth, positions[..n + 1], grid, j)
      invariant forall j :: k <= j < |grid| ==> totals[j] == before[j]
    {
      CreditPosition(totals[k], flows, growth, positions, n, grid, k);
      totals := totals[k := Credit(totals[k], positions[n].token, Clamp(values[k]))];
    }
  }
}
