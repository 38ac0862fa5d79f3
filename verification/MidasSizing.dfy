/** Sizing of a Midas redeem, src/services/earn/strategies/midas.py: USDC has 6
    decimals and mTBILL 18, so one USDC base unit is `scale / price` mTBILL base
    units with `scale` = 10^(oracle decimals + 12). */
module MidasSizing {
  import opened Fees

  const DECIMAL_BALANCE := 12

  function Pow10(n: nat): (p: nat)
    ensures p > 0
  {
    if n == 0 then 1 else 10 * Pow10(n - 1)
  }

  function Scale(oracleDecimals: nat): nat {
    Pow10(oracleDecimals + DECIMAL_BALANCE)
  }

  function UsdcToMtbill(usdc: nat, price: nat, scale: nat, roundUp: bool): nat
    requires price > 0
  {
    if roundUp then (usdc * scale + price - 1) / price else usdc * scale / price
  }

  function MtbillToUsdc(mtbill: nat, price: nat, scale: nat): nat
    requires scale > 0
  {
    mtbill * price / scale
  }

  /** `redemption_payout`: the fee is taken in mTBILL, the rest converted. */
  function RedemptionPayout(mtbill: nat, price: nat, scale: nat, feeBps: nat): nat
    requires scale > 0 && feeBps < BPS
  {
    MtbillToUsdc(Net(mtbill, feeBps), price, scale)
  }

  lemma DivCovers(a: nat, d: nat, q: nat)
    requires d > 0
    ensures a / d >= q <==> a >= q * d
  {
    assert a == a / d * d + a % d;
    if q <= a / d {
      MulMono(q, a / d, d);
    } else {
      MulMono(a / d + 1, q, d);
    }
  }

  lemma FloorBounds(a: nat, d: nat)
    requires d > 0
    ensures a / d * d <= a < a / d * d + d
  {
  }

  lemma CeilBounds(a: nat, d: nat)
    requires d > 0
    ensures a <= (a + d - 1) / d * d < a + d
  {
  }

  lemma NetBounds(mtbill: nat, feeBps: nat)
    requires feeBps < BPS
    ensures mtbill * (BPS - feeBps) <= Net(mtbill, feeBps) * BPS < mtbill * (BPS - feeBps) + BPS
  {
    assert mtbill * (BPS - feeBps) == mtbill * BPS - mtbill * feeBps;
  }

  lemma DivMono(a: nat, b: nat, d: nat)
    requires d > 0 && a <= b
    ensures a / d <= b / d
  {
    assert a / d * d <= a;
    hide *;
    DivCovers(b, d, a / d);
  }

  lemma PayoutMonotone(low: nat, high: nat, price: nat, scale: nat, feeBps: nat)
    requires scale > 0 && feeBps < BPS && low <= high
    ensures RedemptionPayout(low, price, scale, feeBps) <= RedemptionPayout(high, price, scale, feeBps)
  {
    hide Net;
    NetMonotone(low, high, feeBps);
    MulMono(Net(low, feeBps), Net(high, feeBps), price);
    DivMono(Net(low, feeBps) * price, Net(high, feeBps) * price, scale);
  }

  /** One step of a USDC base unit past the fee-grossed estimate always covers. */
  lemma StepCovers(target: nat, price: nat, scale: nat, feeBps: nat, mtbill: nat)
    requires price > 0 && scale > 0 && feeBps < BPS
    requires mtbill * price >= (target * BPS / (BPS - feeBps) + 1) * scale
    ensures RedemptionPayout(mtbill, price, scale, feeBps) >= target
  {
    var gross := target * BPS / (BPS - feeBps);
    assert (gross + 1) * (BPS - feeBps) >= target * BPS;
    NetBounds(mtbill, feeBps);
    var net := Net(mtbill, feeBps);
    calc {
      net * price * BPS;
      == (net * BPS) * price;
      >= { MulMono(mtbill * (BPS - feeBps), net * BPS, price); }
      (mtbill * (BPS - feeBps)) * price;
      == { Assoc3(mtbill, BPS - feeBps, price); }
      (mtbill * price) * (BPS - feeBps);
      >= { MulMono((gross + 1) * scale, mtbill * price, BPS - feeBps); }
      ((gross + 1) * scale) * (BPS - feeBps);
      == { Assoc3(gross + 1, scale, BPS - feeBps); Assoc3(gross + 1, BPS - feeBps, scale); }
      ((gross + 1) * (BPS - feeBps)) * scale;
      >= { MulMono(target * BPS, (gross + 1) * (BPS - feeBps), scale); }
      (target * BPS) * scale;
      == { Assoc3(target, BPS, scale); }
      target * scale * BPS;
    }
    DivCovers(net * price, scale, target);
  }

  lemma MulMono(a: int, b: int, c: nat)
    requires a <= b
    ensures a * c <= b * c
  {
  }

  lemma Assoc3(a: int, b: int, c: int)
    ensures a * b * c == a * c * b
  {
  }

  /** The least redeem whose payout covers the target. */
  ghost predicate IsLeastCovering(mtbill: nat, target: nat, price: nat, scale: nat, feeBps: nat)
    requires scale > 0 && feeBps < BPS
  {
    && RedemptionPayout(mtbill, price, scale, feeBps) >= target
    && forall m: nat :: m < mtbill ==> RedemptionPayout(m, price, scale, feeBps) < target
  }

  /** The fee-grossed estimate overshoots the least covering redeem by less
      than 1 + 10000 / (10000 - fee) base units of mTBILL. */
  lemma EstimateIsTight(target: nat, price: nat, scale: nat, feeBps: nat, estimate: nat, least: nat)
    requires price > 0 && scale > 0 && feeBps < BPS
    requires estimate == UsdcToMtbill(target * BPS / (BPS - feeBps), price, scale, true)
    requires RedemptionPayout(least, price, scale, feeBps) >= target
    ensures estimate * (BPS - feeBps) < least * (BPS - feeBps) + (BPS - feeBps) + BPS
  {
    hide *;
    var d := BPS - feeBps;
    var gross := target * BPS / d;
    EstimateBounds(target, price, scale, d, estimate, gross);
    NetBounds(least, feeBps);
    CoversAs(least, target, price, scale, feeBps);
    TightChain(target, price, scale, d, estimate, gross, Net(least, feeBps));
  }

  lemma EstimateBounds(target: nat, price: nat, scale: nat, d: nat, estimate: nat, gross: nat)
    requires price > 0 && d > 0 && gross == target * BPS / d && estimate == UsdcToMtbill(gross, price, scale, true)
    ensures gross * d <= target * BPS && estimate * price < gross * scale + price
  {
    FloorBounds(target * BPS, d);
    CeilBounds(gross * scale, price);
  }

  lemma CoversAs(mtbill: nat, target: nat, price: nat, scale: nat, feeBps: nat)
    requires scale > 0 && feeBps < BPS
    ensures RedemptionPayout(mtbill, price, scale, feeBps) >= target <==> Net(mtbill, feeBps) * price >= target * scale
  {
    hide Net;
    DivCovers(Net(mtbill, feeBps) * price, scale, target);
  }

  lemma TightChain(target: nat, price: nat, scale: nat, d: nat, estimate: nat, gross: nat, net: nat)
    requires price > 0
    requires gross * d <= target * BPS
    requires estimate * price < gross * scale + price
    requires net * price >= target * scale
    ensures estimate * d <= net * BPS + d
  {
    calc {
      estimate * d * price;
      == { Assoc3(estimate, d, price); }
      estimate * price * d;
      <= { MulMono(estimate * price, gross * scale + price, d); }
      (gross * scale + price) * d;
      == { Distribute(gross * scale, price, d); Assoc3(gross, scale, d); }
      gross * d * scale + price * d;
      <= { MulMono(gross * d, target * BPS, scale); }
      target * BPS * scale + price * d;
      == { Assoc3(target, BPS, scale); }
      target * scale * BPS + price * d;
      <= { MulMono(target * scale, net * price, BPS); }
      net * price * BPS + price * d;
      == { Assoc3(net, price, BPS); Distribute(net * BPS, d, price); }
      (net * BPS + d) * price;
    }
    Cancel(estimate * d, net * BPS + d, price);
  }

  lemma Distribute(a: int, b: int, c: int)
    ensures (a + b) * c == a * c + b * c
  {
  }

  lemma Cancel(a: int, b: int, c: nat)
    requires c > 0 && a * c <= b * c
    ensures a <= b
  {
    if a > b {
      MulMono(b + 1, a, c);
    }
  }

  /** Where the search starts, and its step: one USDC base unit of mTBILL. */
  function Estimate(target: nat, price: nat, scale: nat, feeBps: nat): nat
    requires price > 0 && feeBps < BPS
  {
    UsdcToMtbill(target * BPS / (BPS - feeBps), price, scale, true)
  }

  function Unit(price: nat, scale: nat): nat
    requires price > 0
  {
    UsdcToMtbill(1, price, scale, true)
  }

  lemma OneStepSuffices(target: nat, price: nat, scale: nat, feeBps: nat)
    requires price > 0 && scale > 0 && feeBps < BPS
    ensures var mtbill := Estimate(target, price, scale, feeBps) + Unit(price, scale);
            RedemptionPayout(mtbill, price, scale, feeBps) >= target
  {
    var gross := target * BPS / (BPS - feeBps);
    var estimate, unit := UsdcToMtbill(gross, price, scale, true), UsdcToMtbill(1, price, scale, true);
    CeilBounds(gross * scale, price);
    CeilBounds(1 * scale, price);
    Distribute(estimate, unit, price);
    Distribute(gross, 1, scale);
    StepCovers(target, price, scale, feeBps, estimate + unit);
  }

  /** What the search ends on. */
  function Size(target: nat, price: nat, scale: nat, feeBps: nat): nat
    requires price > 0 && scale > 0 && feeBps < BPS
  {
    var estimate := Estimate(target, price, scale, feeBps);
    if RedemptionPayout(estimate, price, scale, feeBps) >= target then estimate else estimate + Unit(price, scale)
  }

  /** How far a covering redeem `mtbill` sits above the least one, after `steps` steps up. */
  ghost predicate Tight(mtbill: nat, steps: nat, target: nat, price: nat, scale: nat, feeBps: nat)
    requires price > 0 && scale > 0 && feeBps < BPS
  {
    forall least: nat :: IsLeastCovering(least, target, price, scale, feeBps) ==>
      && least <= mtbill
      && (steps == 0 ==> mtbill * (BPS - feeBps) < least * (BPS - feeBps) + (BPS - feeBps) + BPS)
      && (steps == 1 ==> mtbill < least + Unit(price, scale))
  }

  lemma SizeIsTight(mtbill: nat, steps: nat, target: nat, price: nat, scale: nat, feeBps: nat)
    requires price > 0 && scale > 0 && feeBps < BPS && steps <= 1
    requires RedemptionPayout(mtbill, price, scale, feeBps) >= target
    requires mtbill == Estimate(target, price, scale, feeBps) + (if steps == 1 then Unit(price, scale) else 0)
    requires steps == 1 ==> RedemptionPayout(Estimate(target, price, scale, feeBps), price, scale, feeBps) < target
    ensures Tight(mtbill, steps, target, price, scale, feeBps)
  {
    var estimate := Estimate(target, price, scale, feeBps);
    forall least: nat | IsLeastCovering(least, target, price, scale, feeBps)
      ensures && least <= mtbill
              && (steps == 0 ==> mtbill * (BPS - feeBps) < least * (BPS - feeBps) + (BPS - feeBps) + BPS)
              && (steps == 1 ==> mtbill < least + Unit(price, scale))
    {
      EstimateIsTight(target, price, scale, feeBps, estimate, least);
      hide RedemptionPayout, Estimate, Unit;
      if steps == 1 && least <= estimate {
        PayoutMonotone(least, estimate, price, scale, feeBps);
      }
    }
  }

  /** `size_redeem`. Its docstring's "smallest amount" is off by what `Tight` says. */
  method SizeRedeem(target: nat, price: nat, oracleDecimals: nat, feeBps: nat) returns (mtbill: nat, ghost steps: nat)
    requires price > 0 && feeBps < BPS
    ensures mtbill == Size(target, price, Scale(oracleDecimals), feeBps)
    ensures RedemptionPayout(mtbill, price, Scale(oracleDecimals), feeBps) >= target
    ensures steps <= 1 && Tight(mtbill, steps, target, price, Scale(oracleDecimals), feeBps)
  {
    hide RedemptionPayout, Estimate, Unit, Tight;
    var scale := Scale(oracleDecimals);
    mtbill := Estimate(target, price, scale, feeBps);
    var unit := Unit(price, scale);
    ghost var estimate := mtbill;
    steps := 0;
    OneStepSuffices(target, price, scale, feeBps);
    while RedemptionPayout(mtbill, price, scale, feeBps) < target
      invariant steps <= 1 && mtbill == estimate + (if steps == 1 then unit else 0)
      invariant steps == 1 ==> RedemptionPayout(estimate, price, scale, feeBps) < target
      decreases 1 - steps
    {
      mtbill := mtbill + unit;
      steps := steps + 1;
    }
    SizeIsTight(mtbill, steps, target, price, scale, feeBps);
  }

  /** Without a fee the estimate itself is the least amount that covers. */
  lemma LeastWithoutFee(target: nat, price: nat, scale: nat)
    requires price > 0 && scale > 0
    ensures IsLeastCovering(Size(target, price, scale, 0), target, price, scale, 0)
  {
    var estimate := UsdcToMtbill(target, price, scale, true);
    assert Estimate(target, price, scale, 0) == estimate;
    CeilBounds(target * scale, price);
    DivCovers(estimate * price, scale, target);
    forall m: nat | m < estimate ensures RedemptionPayout(m, price, scale, 0) < target {
      MulMono(m, estimate - 1, price);
      Distribute(estimate - 1, 1, price);
      DivCovers(m * price, scale, target);
    }
  }

  /** With one, a target of `price * (BPS - feeBps)` is covered by one unit less
      than the search finds, since the fee on both rounds to the same net. */
  lemma NotLeastWithFee(price: nat, scale: nat, feeBps: nat) returns (target: nat)
    requires price > 0 && scale > 0 && 0 < feeBps < BPS
    ensures target == price * (BPS - feeBps) && Size(target, price, scale, feeBps) == BPS * scale
    ensures RedemptionPayout(BPS * scale - 1, price, scale, feeBps) == target
    ensures !IsLeastCovering(Size(target, price, scale, feeBps), target, price, scale, feeBps)
  {
    target := price * (BPS - feeBps);
    ExactEstimate(price, scale, feeBps);
    SameNet(scale, feeBps);
    hide Estimate, Unit, Net;
    ExactPayout(price, scale, BPS - feeBps);
    assert RedemptionPayout(BPS * scale, price, scale, feeBps) == target;
  }

  lemma ExactPayout(price: nat, scale: nat, d: nat)
    requires scale > 0
    ensures MtbillToUsdc(scale * d, price, scale) == price * d
  {
    assert scale * d * price == price * d * scale;
    ExactDiv(price * d, scale);
  }

  lemma QuotientIs(a: nat, d: nat, q: nat)
    requires d > 0 && q * d <= a < q * d + d
    ensures a / d == q
  {
    DivCovers(a, d, q);
    Distribute(q, 1, d);
    DivCovers(a, d, q + 1);
  }

  lemma ExactDiv(q: nat, d: nat)
    requires d > 0
    ensures q * d / d == q && d * q / d == q && (q * d + d - 1) / d == q
  {
    QuotientIs(q * d, d, q);
    QuotientIs(q * d + d - 1, d, q);
    assert d * q == q * d;
  }

  lemma ExactEstimate(price: nat, scale: nat, feeBps: nat)
    requires price > 0 && scale > 0 && feeBps < BPS
    ensures Estimate(price * (BPS - feeBps), price, scale, feeBps) == BPS * scale
  {
    var d := BPS - feeBps;
    Assoc3(price, d, BPS);
    ExactDiv(price * BPS, d);
    Assoc3(price, BPS, scale);
    ExactDiv(BPS * scale, price);
    assert price * BPS * scale == BPS * scale * price;
  }

  /** Just below a multiple of 10000 the floored fee is one less, so the net is the same. */
  lemma SameNet(scale: nat, feeBps: nat)
    requires scale > 0 && 0 < feeBps < BPS
    ensures Net(BPS * scale, feeBps) == scale * (BPS - feeBps) == Net(BPS * scale - 1, feeBps)
  {
    var fee := scale * feeBps;
    assert BPS * scale * feeBps == fee * BPS;
    ExactDiv(fee, BPS);
    assert (BPS * scale - 1) * feeBps == fee * BPS - feeBps;
    DivCovers(fee * BPS - feeBps, BPS, fee);
    DivCovers(fee * BPS - feeBps, BPS, fee - 1);
    assert scale * (BPS - feeBps) == BPS * scale - fee;
  }

  /** The docstring's claim holds for every target exactly when redeeming is free. */
  lemma SmallestIff(price: nat, scale: nat, feeBps: nat)
    requires price > 0 && scale > 0 && feeBps < BPS
    ensures (forall target: nat :: IsLeastCovering(Size(target, price, scale, feeBps), target, price, scale, feeBps))
            <==> feeBps == 0
  {
    hide Size, IsLeastCovering;
    if feeBps == 0 {
      forall target: nat ensures IsLeastCovering(Size(target, price, scale, feeBps), target, price, scale, feeBps) {
        LeastWithoutFee(target, price, scale);
      }
    } else {
      var target := NotLeastWithFee(price, scale, feeBps);
    }
  }

  /** Converting USDC to mTBILL rounded up and back is the identity on every
      amount exactly when one mTBILL base unit is worth at most one USDC base
      unit, that is when the price is at most 10^(decimals + 12). */
  lemma RoundTripIff(price: nat, scale: nat)
    requires price > 0 && scale > 0
    ensures (forall usdc: nat :: MtbillToUsdc(UsdcToMtbill(usdc, price, scale, true), price, scale) == usdc)
            <==> price <= scale
  {
    if price <= scale {
      forall usdc: nat ensures MtbillToUsdc(UsdcToMtbill(usdc, price, scale, true), price, scale) == usdc {
        CeilBounds(usdc * scale, price);
        var back := UsdcToMtbill(usdc, price, scale, true) * price;
        DivCovers(back, scale, usdc);
        DivCovers(back, scale, usdc + 1);
        assert (usdc + 1) * scale == usdc * scale + scale;
      }
    } else {
      var usdc := RoundTripBroken(price, scale);
      assert MtbillToUsdc(UsdcToMtbill(usdc, price, scale, true), price, scale) != usdc;
    }
  }

  /** Above that price some amount comes back larger. */
  lemma RoundTripBroken(price: nat, scale: nat) returns (usdc: nat)
    requires 0 < scale < price
    ensures MtbillToUsdc(UsdcToMtbill(usdc, price, scale, true), price, scale) > usdc
  {
    var excess := price - scale;
    usdc := (price - 1) / excess;
    FloorBounds(price - 1, excess);
    // usdc * scale = usdc * price - usdc * excess, so rounding up to a multiple
    // of `price` reaches usdc * price, which is at least (usdc + 1) * scale.
    Distribute(scale, excess, usdc);
    CeilAtLeast(usdc * scale, price, usdc);
    var mtbill := UsdcToMtbill(usdc, price, scale, true);
    MulMono(usdc, mtbill, price);
    Distribute(usdc, 1, scale);
    DivCovers(mtbill * price, scale, usdc + 1);
  }

  lemma CeilAtLeast(a: nat, d: nat, q: nat)
    requires d > 0 && a + d > q * d
    ensures (a + d - 1) / d >= q
  {
    DivCovers(a + d - 1, d, q);
  }
}
