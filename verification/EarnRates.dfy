/** The rate providers of src/services/earn/rate_provider.py over exact reals:
    what one unit of value became between two times. */
module EarnRates {
  import opened Tables
  import opened TimeSeries

  const YEAR_SEC := 365 * 86_400
  const BPS := 10_000
  const VIRTUAL_SHARES := 1_000_000

  // ---- Sampled rates ----

  datatype Sample = Sample(totalAssets: nat, totalShares: nat)

  function PerShare(s: Sample): (r: real)
    ensures r > 0.0
  {
    (s.totalAssets + 1) as real / (s.totalShares + VIRTUAL_SHARES) as real
  }

  /** The rate of the last sample at or before `ts`, unknown before the first. */
  function RateIn(points: seq<Stamped<Sample>>, ts: int): Option<real> {
    var n := UpTo(points, ts);
    if n == 0 then None else Some(PerShare(points[n - 1].value))
  }

  method RateAt(points: seq<Stamped<Sample>>, ts: int) returns (r: Option<real>)
    ensures r == RateIn(points, ts)
  {
    var n := Scan(points, ts);
    return if n == 0 then None else Some(PerShare(points[n - 1].value));
  }

  /** `SampledRate.growth_factor`; None stands for InsufficientRateHistory. */
  function SampledGrowth(points: seq<Stamped<Sample>>, from: int, until: int): Option<real> {
    if until <= from then Some(1.0)
    else
      var rateFrom, rateTo := RateIn(points, from), RateIn(points, until);
      if rateFrom.None? || rateTo.None? || rateFrom.value == 0.0 then None
      else Some(rateTo.value / rateFrom.value)
  }

  /** A window has a sampled growth exactly when it is empty or a sample was
      taken by its start, and then the growth over it is the product of the
      growths over its halves, wherever it is split. */
  lemma {:induction false} SampledComposes(points: seq<Stamped<Sample>>, a: int, b: int, c: int)
    requires Ordered(points) && a <= b <= c
    ensures SampledGrowth(points, a, c).Some? <==> a == c || (points != [] && points[0].at <= a)
    ensures SampledGrowth(points, a, b).Some? && SampledGrowth(points, b, c).Some? ==>
              && SampledGrowth(points, a, c).Some?
              && SampledGrowth(points, a, c).value
                 == SampledGrowth(points, a, b).value * SampledGrowth(points, b, c).value
  {
    hide PerShare, UpTo;
    Covered(points, a);
    Covered(points, b);
    Covered(points, c);
    if a < b < c && SampledGrowth(points, a, b).Some? && SampledGrowth(points, b, c).Some? {
      Chain(RateIn(points, a).value, RateIn(points, b).value, RateIn(points, c).value);
    }
  }

  lemma {:induction false} Covered(points: seq<Stamped<Sample>>, ts: int)
    requires Ordered(points)
    ensures RateIn(points, ts).Some? <==> points != [] && points[0].at <= ts
    ensures RateIn(points, ts).Some? ==> RateIn(points, ts).value > 0.0
  {
    if points != [] {
      UpToIsAll(points, ts, 0);
    }
  }

  lemma Chain(x: real, y: real, z: real)
    requires x > 0.0 && y > 0.0
    ensures z / x == (y / x) * (z / y)
  {
    assert y / x * (z / y) * x == y / x * x * (z / y);
    assert y / x * x == y;
  }

  // ---- Compounded APY ----

  /** The log growth per year at an APY; `ln` is the logarithm of 1 + apy/10000
      where that is positive, and the source skips the rest. */
  function LogRate(apyBps: int, ln: int -> real): real {
    if apyBps <= -BPS then 0.0 else ln(apyBps)
  }

  /** What `seconds` at a yearly log rate add. */
  function Term(rate: real, seconds: int): real {
    rate * (seconds as real / YEAR_SEC as real)
  }

  /** The APY in force: the last point at or before `ts`, else the first. */
  function ApyIn(ordered: seq<Stamped<int>>, ts: int): int
    requires ordered != []
  {
    var n := UpTo(ordered, ts);
    ordered[if n == 0 then 0 else n - 1].value
  }

  method ApyAt(ordered: seq<Stamped<int>>, ts: int) returns (apyBps: int)
    requires ordered != []
    ensures apyBps == ApyIn(ordered, ts)
  {
    var n := Scan(ordered, ts);
    return ordered[if n == 0 then 0 else n - 1].value;
  }

  /** The closed form: every second of the window earns at the APY in force in it. */
  function SecondBySecond(ordered: seq<Stamped<int>>, ln: int -> real, from: int, until: int): real
    requires ordered != []
    decreases until - from
  {
    if until <= from then 0.0
    else SecondBySecond(ordered, ln, from, until - 1) + Term(LogRate(ApyIn(ordered, until - 1), ln), 1)
  }

  function LogGrowth(history: seq<Stamped<int>>, ln: int -> real, from: int, until: int): real {
    if until <= from || history == [] then 0.0
    else
      SortedNonEmpty(history);
      SecondBySecond(SortByTime(history), ln, from, until)
  }

  lemma {:induction false} SortedNonEmpty<T>(s: seq<Stamped<T>>)
    requires s != []
    ensures SortByTime(s) != []
  {
    assert s[0] in multiset(SortByTime(s));
  }

  /** Log growth adds up when a window is split at any instant, a point or not. */
  lemma {:induction false} LogGrowthAdds(history: seq<Stamped<int>>, ln: int -> real, a: int, b: int, c: int)
    requires a <= b <= c
    ensures LogGrowth(history, ln, a, c) == LogGrowth(history, ln, a, b) + LogGrowth(history, ln, b, c)
  {
    if history != [] {
      SortedNonEmpty(history);
      SecondsAdd(SortByTime(history), ln, a, b, c);
    }
  }

  lemma {:induction false} SecondsAdd(ordered: seq<Stamped<int>>, ln: int -> real, a: int, b: int, c: int)
    requires ordered != [] && a <= b <= c
    ensures SecondBySecond(ordered, ln, a, c) == SecondBySecond(ordered, ln, a, b) + SecondBySecond(ordered, ln, b, c)
    decreases c - b
  {
    if b < c {
      SecondsAdd(ordered, ln, a, b, c - 1);
    }
  }

  /** The points strictly inside the window, with its ends around them. */
  function Inner(ordered: seq<Stamped<int>>, from: int, until: int): seq<int> {
    if ordered == [] then []
    else
      var rest, last := Inner(ordered[..|ordered| - 1], from, until), ordered[|ordered| - 1].at;
      if from < last < until then rest + [last] else rest
  }

  /** Between two neighbouring boundaries the APY does not change. */
  ghost predicate IsPartition(boundaries: seq<int>, ordered: seq<Stamped<int>>, from: int, until: int) {
    && |boundaries| >= 2 && boundaries[0] == from && boundaries[|boundaries| - 1] == until
    && (forall k :: 0 <= k < |boundaries| - 1 ==> boundaries[k] <= boundaries[k + 1])
    && forall k :: 0 <= k < |boundaries| - 1 ==> NoneInside(ordered, boundaries[k], boundaries[k + 1])
  }

  ghost predicate Ascending(s: seq<int>) {
    forall k, l :: 0 <= k < l < |s| ==> s[k] <= s[l]
  }

  lemma {:induction false} InnerFacts(ordered: seq<Stamped<int>>, from: int, until: int)
    requires Ordered(ordered)
    ensures var inner := Inner(ordered, from, until);
            && (forall k :: 0 <= k < |inner| ==> from < inner[k] < until)
            && Ascending(inner)
            && (forall k :: 0 <= k < |inner| ==> exists i :: 0 <= i < |ordered| && ordered[i].at == inner[k])
            && (forall i :: 0 <= i < |ordered| && from < ordered[i].at < until ==> ordered[i].at in inner)
  {
    if ordered != [] {
      var front := ordered[..|ordered| - 1];
      InnerFacts(front, from, until);
      var inner, rest := Inner(ordered, from, until), Inner(front, from, until);
      forall k | 0 <= k < |inner| ensures exists i :: 0 <= i < |ordered| && ordered[i].at == inner[k] {
        if k < |rest| {
          var i :| 0 <= i < |front| && front[i].at == rest[k];
          assert ordered[i].at == inner[k];
        } else {
          assert ordered[|ordered| - 1].at == inner[k];
        }
      }
    }
  }

  lemma {:induction false} BoundariesPartition(ordered: seq<Stamped<int>>, from: int, until: int)
    requires Ordered(ordered) && from < until
    ensures IsPartition([from] + Inner(ordered, from, until) + [until], ordered, from, until)
  {
    InnerFacts(ordered, from, until);
    var inner := Inner(ordered, from, until);
    var bs := [from] + inner + [until];
    forall k | 0 <= k < |bs| - 1 ensures bs[k] <= bs[k + 1] && NoneInside(ordered, bs[k], bs[k + 1]) {
      assert k > 0 ==> bs[k] == inner[k - 1];
      assert k < |inner| ==> bs[k + 1] == inner[k];
      if 0 < k < |inner| {
        var j := k - 1;
        assert inner[j] <= inner[k];
      }
      forall i | 0 <= i < |ordered| ensures !(bs[k] < ordered[i].at < bs[k + 1]) {
        if from < ordered[i].at < until {
          var l :| 0 <= l < |inner| && inner[l] == ordered[i].at;
          assert l < k ==> inner[l] <= inner[k - 1];
          assert k <= l ==> inner[k] <= inner[l];
        }
      }
    }
  }

  /** One segment of a partition earns at the APY of its start throughout. */
  lemma {:induction false} Segment(ordered: seq<Stamped<int>>, ln: int -> real, start: int, end: int)
    requires ordered != [] && Ordered(ordered) && start <= end
    requires NoneInside(ordered, start, end)
    ensures SecondBySecond(ordered, ln, start, end) ==
              Repeated(Term(LogRate(ApyIn(ordered, start), ln), 1), end - start)
    decreases end - start
  {
    if start < end {
      Segment(ordered, ln, start, end - 1);
      SameApy(ordered, start, end - 1);
    }
  }

  function Repeated(x: real, n: nat): real {
    if n == 0 then 0.0 else Repeated(x, n - 1) + x
  }

  lemma {:induction false} RepeatedTerm(rate: real, n: nat)
    ensures Repeated(Term(rate, 1), n) == Term(rate, n)
  {
    if n > 0 {
      RepeatedTerm(rate, n - 1);
      TermAdds(rate, n - 1);
    }
  }

  lemma TermAdds(rate: real, n: int)
    ensures Term(rate, n) + Term(rate, 1) == Term(rate, n + 1)
  {
    assert (n + 1) as real == n as real + 1.0;
    assert (n + 1) as real / YEAR_SEC as real == n as real / YEAR_SEC as real + 1.0 / YEAR_SEC as real;
  }

  ghost predicate NoneInside(ordered: seq<Stamped<int>>, start: int, end: int) {
    forall i :: 0 <= i < |ordered| ==> !(start < ordered[i].at < end)
  }

  lemma {:induction false} SameApy(ordered: seq<Stamped<int>>, start: int, ts: int)
    requires ordered != [] && Ordered(ordered) && start <= ts
    requires NoneInside(ordered, start, ts + 1)
    ensures ApyIn(ordered, ts) == ApyIn(ordered, start)
  {
    UpToUnique(ordered, ts, UpTo(ordered, start));
  }

  /** `_compound_apy`, up to its final exponential: the loop over segments
      equals the second-by-second sum. */
  method CompoundApy(history: seq<Stamped<int>>, ln: int -> real, from: int, until: int) returns (logGrowth: real)
    ensures logGrowth == LogGrowth(history, ln, from, until)
  {
    if until <= from || history == [] {
      return 0.0;
    }
    var ordered := SortByTime(history);
    SortedNonEmpty(history);
    var boundaries := Boundaries(ordered, from, until);
    BoundariesPartition(ordered, from, until);
    logGrowth := SumSegments(ordered, ln, boundaries, from, until);
  }

  method Boundaries(ordered: seq<Stamped<int>>, from: int, until: int) returns (boundaries: seq<int>)
    ensures boundaries == [from] + Inner(ordered, from, until) + [until]
  {
    boundaries := [from];
    for i := 0 to |ordered|
      invariant boundaries == [from] + Inner(ordered[..i], from, until)
    {
      assert ordered[..i + 1][..i] == ordered[..i];
      if from < ordered[i].at < until {
        boundaries := boundaries + [ordered[i].at];
      }
    }
    assert ordered[..|ordered|] == ordered;
    boundaries := boundaries + [until];
  }

  /** The segment loop of `_compound_apy`. */
  method SumSegments(ordered: seq<Stamped<int>>, ln: int -> real, boundaries: seq<int>, from: int, until: int)
    returns (logGrowth: real)
    requires ordered != [] && Ordered(ordered) && IsPartition(boundaries, ordered, from, until)
    ensures logGrowth == SecondBySecond(ordered, ln, from, until)
  {
    logGrowth := 0.0;
    for k := 0 to |boundaries| - 1
      invariant from <= boundaries[k]
      invariant logGrowth == SecondBySecond(ordered, ln, from, boundaries[k])
    {
      var start, end := boundaries[k], boundaries[k + 1];
      var apyBps := ApyAt(ordered, start);
      SegmentTerm(ordered, ln, from, start, end);
      if apyBps <= -BPS {
        continue;
      }
      logGrowth := logGrowth + Term(ln(apyBps), end - start);
    }
  }

  lemma {:induction false} SegmentTerm(ordered: seq<Stamped<int>>, ln: int -> real, from: int, start: int, end: int)
    requires ordered != [] && Ordered(ordered) && from <= start <= end
    requires NoneInside(ordered, start, end)
    ensures SecondBySecond(ordered, ln, from, end)
            == SecondBySecond(ordered, ln, from, start) + Term(LogRate(ApyIn(ordered, start), ln), end - start)
    ensures ApyIn(ordered, start) <= -BPS ==> Term(LogRate(ApyIn(ordered, start), ln), end - start) == 0.0
  {
    SecondsAdd(ordered, ln, from, start, end);
    Segment(ordered, ln, start, end);
    RepeatedTerm(LogRate(ApyIn(ordered, start), ln), end - start);
  }

  // ---- Which provider a window gets ----

  /** `exp` turns sums into products of positive factors. */
  ghost predicate Exponential(exp: real -> real) {
    forall x, y :: ExponentialAt(exp, x, y)
  }

  ghost predicate ExponentialAt(exp: real -> real, x: real, y: real) {
    exp(x) > 0.0 && exp(x + y) == exp(x) * exp(y)
  }

  /** `DefiLlamaApyRate.growth_factor`. */
  function CompoundedGrowth(history: seq<Stamped<int>>, ln: int -> real, exp: real -> real, from: int,
                            until: int): real {
    if until <= from || history == [] then 1.0 else exp(LogGrowth(history, ln, from, until))
  }

  /** What a pool's growth is read from; the resolver lists the sampled pools. */
  datatype Source = Source(sampled: bool, points: seq<Stamped<Sample>>, history: seq<Stamped<int>>)

  /** `EarnRateResolver.growth_factor`: a window the samples do not cover falls back. */
  function Resolve(s: Source, ln: int -> real, exp: real -> real, from: int, until: int): real {
    var sampled := SampledGrowth(s.points, from, until);
    if s.sampled && sampled.Some? then sampled.value else CompoundedGrowth(s.history, ln, exp, from, until)
  }

  ghost predicate SplitsAt(s: Source, ln: int -> real, exp: real -> real, a: int, b: int, c: int) {
    a <= b <= c ==> Resolve(s, ln, exp, a, c) == Resolve(s, ln, exp, a, b) * Resolve(s, ln, exp, b, c)
  }

  ghost predicate Splits(s: Source, ln: int -> real, exp: real -> real) {
    forall a, b, c :: SplitsAt(s, ln, exp, a, b, c)
  }

  ghost predicate AgreesAt(s: Source, ln: int -> real, exp: real -> real, b: int, c: int) {
    var sampled := SampledGrowth(s.points, b, c);
    sampled.Some? ==> sampled.value == CompoundedGrowth(s.history, ln, exp, b, c)
  }

  /** The two providers agree on every window the samples cover. */
  ghost predicate Agrees(s: Source, ln: int -> real, exp: real -> real) {
    s.sampled ==> forall b, c :: AgreesAt(s, ln, exp, b, c)
  }

  lemma ExpOfZero(exp: real -> real)
    requires Exponential(exp)
    ensures exp(0.0) == 1.0
  {
    var zero := 0.0;
    assert ExponentialAt(exp, zero, zero);
    assert zero + zero == zero;
    OwnSquare(exp(zero), exp(zero + zero));
  }

  lemma OwnSquare(x: real, y: real)
    requires x > 0.0 && y == x * x && y == x
    ensures x == 1.0
  {
    assert x * x == x;
    assert x * (x - 1.0) == 0.0;
  }

  lemma CompoundedSplits(history: seq<Stamped<int>>, ln: int -> real, exp: real -> real, a: int, b: int, c: int)
    requires Exponential(exp) && a <= b <= c
    ensures CompoundedGrowth(history, ln, exp, a, c)
            == CompoundedGrowth(history, ln, exp, a, b) * CompoundedGrowth(history, ln, exp, b, c)
    ensures CompoundedGrowth(history, ln, exp, a, b) > 0.0
  {
    hide *;
    CompoundedIsExp(history, ln, exp, a, b);
    CompoundedIsExp(history, ln, exp, b, c);
    CompoundedIsExp(history, ln, exp, a, c);
    LogGrowthAdds(history, ln, a, b, c);
    ExpSplits(exp, LogGrowth(history, ln, a, b), LogGrowth(history, ln, b, c), LogGrowth(history, ln, a, c));
    SameProduct(exp(LogGrowth(history, ln, a, b)), exp(LogGrowth(history, ln, b, c)),
                CompoundedGrowth(history, ln, exp, a, b), CompoundedGrowth(history, ln, exp, b, c));
  }

  lemma CompoundedIsExp(history: seq<Stamped<int>>, ln: int -> real, exp: real -> real, a: int, b: int)
    requires Exponential(exp)
    ensures CompoundedGrowth(history, ln, exp, a, b) == exp(LogGrowth(history, ln, a, b))
  {
    ExpOfZero(exp);
    hide Exponential;
  }

  lemma ExpSplits(exp: real -> real, x: real, y: real, z: real)
    requires Exponential(exp) && z == x + y
    ensures exp(z) == exp(x) * exp(y) && exp(x) > 0.0
  {
    assert ExponentialAt(exp, x, y);
  }

  lemma SplitsIs(s: Source, ln: int -> real, exp: real -> real, a: int, b: int, c: int)
    ensures SplitsAt(s, ln, exp, a, b, c)
            <==> (a <= b <= c ==> Resolve(s, ln, exp, a, c) == Resolve(s, ln, exp, a, b) * Resolve(s, ln, exp, b, c))
  {
    hide Resolve;
  }

  lemma Uncovered(s: Source, ln: int -> real, exp: real -> real, a: int, b: int)
    requires SampledGrowth(s.points, a, b) == None
    ensures Resolve(s, ln, exp, a, b) == CompoundedGrowth(s.history, ln, exp, a, b)
  {
    hide SampledGrowth, CompoundedGrowth;
  }

  lemma CoveredAgrees(s: Source, ln: int -> real, exp: real -> real, b: int, c: int)
    requires s.sampled && SampledGrowth(s.points, b, c).Some?
    ensures AgreesAt(s, ln, exp, b, c) <==> Resolve(s, ln, exp, b, c) == CompoundedGrowth(s.history, ln, exp, b, c)
  {
    hide SampledGrowth, CompoundedGrowth;
  }

  /** A window that starts before the samples reads the fallback, and its later part the
      samples: it splits exactly when the two agree there. */
  lemma SplitsUncovered(s: Source, ln: int -> real, exp: real -> real, a: int, b: int, c: int)
    requires Exponential(exp) && Ordered(s.points) && s.sampled && a < b <= c
    requires SampledGrowth(s.points, a, c) == None && SampledGrowth(s.points, b, c).Some?
    ensures SplitsAt(s, ln, exp, a, b, c) <==> AgreesAt(s, ln, exp, b, c)
  {
    hide *;
    CompoundedSplits(s.history, ln, exp, a, b, c);
    SampledComposes(s.points, a, a, b);
    SampledComposes(s.points, a, a, c);
    Uncovered(s, ln, exp, a, b);
    Uncovered(s, ln, exp, a, c);
    CoveredAgrees(s, ln, exp, b, c);
    SplitsIs(s, ln, exp, a, b, c);
    SplitsOrNot(Resolve(s, ln, exp, a, b), CompoundedGrowth(s.history, ln, exp, b, c), Resolve(s, ln, exp, b, c),
                Resolve(s, ln, exp, a, c));
  }

  lemma SplitsOrNot(k: real, g: real, y: real, z: real)
    requires k > 0.0 && z == k * g
    ensures z == k * y <==> y == g
  {
    CancelFactor(k, y, g);
  }

  lemma AgreeingIsCompounded(s: Source, ln: int -> real, exp: real -> real, a: int, b: int)
    requires s.sampled ==> AgreesAt(s, ln, exp, a, b)
    ensures Resolve(s, ln, exp, a, b) == CompoundedGrowth(s.history, ln, exp, a, b)
  {
    hide SampledGrowth, CompoundedGrowth;
  }

  lemma CancelFactor(k: real, x: real, y: real)
    requires k > 0.0
    ensures k * x == k * y <==> x == y
  {
  }

  /** The resolver's growth of a pool multiplies over every split of every window exactly
      when the pool is not sampled or its two providers agree where samples are. */
  lemma SplitsIff(s: Source, ln: int -> real, exp: real -> real)
    requires Exponential(exp) && Ordered(s.points)
    ensures Splits(s, ln, exp) <==> Agrees(s, ln, exp)
  {
    if Agrees(s, ln, exp) {
      forall a, b, c ensures SplitsAt(s, ln, exp, a, b, c) {
        AgreeingSplits(s, ln, exp, a, b, c);
      }
    }
    if Splits(s, ln, exp) && s.sampled {
      forall b, c ensures AgreesAt(s, ln, exp, b, c) {
        SplittingAgrees(s, ln, exp, b, c);
      }
    }
  }

  lemma AgreeingSplits(s: Source, ln: int -> real, exp: real -> real, a: int, b: int, c: int)
    requires Exponential(exp) && Agrees(s, ln, exp)
    ensures SplitsAt(s, ln, exp, a, b, c)
  {
    hide *;
    SplitsIs(s, ln, exp, a, b, c);
    if a <= b <= c {
      AgreesOn(s, ln, exp, a, b);
      AgreesOn(s, ln, exp, b, c);
      AgreesOn(s, ln, exp, a, c);
      AgreeingIsCompounded(s, ln, exp, a, b);
      AgreeingIsCompounded(s, ln, exp, b, c);
      AgreeingIsCompounded(s, ln, exp, a, c);
      CompoundedSplits(s.history, ln, exp, a, b, c);
      SameProduct(CompoundedGrowth(s.history, ln, exp, a, b), CompoundedGrowth(s.history, ln, exp, b, c),
                  Resolve(s, ln, exp, a, b), Resolve(s, ln, exp, b, c));
    }
  }

  lemma AgreesOn(s: Source, ln: int -> real, exp: real -> real, b: int, c: int)
    requires Agrees(s, ln, exp)
    ensures s.sampled ==> AgreesAt(s, ln, exp, b, c)
  {
    hide AgreesAt;
  }

  lemma SameProduct(x: real, y: real, x': real, y': real)
    requires x == x' && y == y'
    ensures x * y == x' * y'
  {
  }

  lemma SplittingAgrees(s: Source, ln: int -> real, exp: real -> real, b: int, c: int)
    requires Exponential(exp) && Ordered(s.points) && Splits(s, ln, exp) && s.sampled
    ensures AgreesAt(s, ln, exp, b, c)
  {
    if b < c && SampledGrowth(s.points, b, c).Some? {
      var a := s.points[0].at - 1;
      SampledComposes(s.points, b, b, c);
      SampledComposes(s.points, a, b, c);
      assert SplitsAt(s, ln, exp, a, b, c);
      SplitsUncovered(s, ln, exp, a, b, c);
    }
  }
}
