/** `_execution_quote` of src/services/swap/lifi_pipeline.py: which LiFi quote a
    swap may be executed on, so that the minimum LiFi enforces on chain still
    pays the user the floor they were quoted. */
module SlippageFloor {
  import opened Fees
  import opened Tables

  /** The least gross amount whose net reaches `floor`. */
  ghost predicate IsLeastGross(gross: nat, floor: nat, feeBps: nat)
    requires feeBps < BPS
  {
    && Net(gross, feeBps) >= floor
    && forall g: nat :: g < gross ==> Net(g, feeBps) < floor
  }

  /** LiFi's minimum for an expected output at a slippage. */
  function MinAt(toAmount: nat, slippageBps: nat): nat
    requires slippageBps <= BPS
  {
    toAmount * (BPS - slippageBps) / BPS
  }

  lemma EstimateCovers(floor: nat, feeBps: nat, gross: nat)
    requires feeBps < BPS
    requires gross * (BPS - feeBps) >= floor * BPS
    ensures Net(gross, feeBps) >= floor
  {
    assert gross * (BPS - feeBps) == gross * BPS - gross * feeBps;
    var fee := Fee(gross, feeBps);
    assert fee * BPS <= gross * feeBps;
    assert (gross - fee) * BPS >= floor * BPS;
  }

  lemma LeastFromBelow(gross: nat, floor: nat, feeBps: nat)
    requires feeBps < BPS
    requires Net(gross, feeBps) >= floor
    requires gross > 0 ==> Net(gross - 1, feeBps) < floor
    ensures IsLeastGross(gross, floor, feeBps)
  {
    forall g: nat | g < gross ensures Net(g, feeBps) < floor {
      NetMonotone(g, gross - 1, feeBps);
    }
  }

  lemma MulMono(a: int, b: int, c: nat)
    requires a <= b
    ensures a * c <= b * c
  {
  }

  /** The floored quotient is the largest slippage whose minimum stays at or above `gross`. */
  lemma LargestSlippage(toAmount: nat, gross: nat, slippageBps: nat)
    requires 0 < toAmount && gross <= toAmount && slippageBps <= BPS
    ensures slippageBps <= (toAmount - gross) * BPS / toAmount <==> MinAt(toAmount, slippageBps) >= gross
  {
    var spend := (toAmount - gross) * BPS;
    var best := spend / toAmount;
    assert best * toAmount <= spend < best * toAmount + toAmount;
    assert toAmount * (BPS - slippageBps) == toAmount * BPS - slippageBps * toAmount;
    if slippageBps <= best {
      MulMono(slippageBps, best, toAmount);
    } else {
      MulMono(best + 1, slippageBps, toAmount);
    }
  }

  /** The search's result, once the least gross amount is known. */
  lemma SlippageFromLeast(toAmount: nat, gross: nat, floor: nat, feeBps: nat)
    requires feeBps < BPS && IsLeastGross(gross, floor, feeBps)
    requires 0 < toAmount && gross <= toAmount
    ensures var best := (toAmount - gross) * BPS / toAmount;
            && best <= BPS
            && Net(MinAt(toAmount, best), feeBps) >= floor
            && forall s: nat :: best < s <= BPS ==> Net(MinAt(toAmount, s), feeBps) < floor
  {
    var best := (toAmount - gross) * BPS / toAmount;
    assert best <= BPS by {
      assert best * toAmount <= toAmount * BPS;
      if best > BPS {
        MulMono(BPS + 1, best, toAmount);
      }
    }
    LargestSlippage(toAmount, gross, best);
    NetMonotone(gross, MinAt(toAmount, best), feeBps);
    forall s: nat | best < s <= BPS ensures Net(MinAt(toAmount, s), feeBps) < floor {
      LargestSlippage(toAmount, gross, s);
    }
  }

  /** The first estimate of the search is at or above the least gross amount. */
  lemma EstimateStarts(floor: nat, feeBps: nat)
    requires feeBps < BPS
    ensures Net((floor * BPS + (BPS - feeBps) - 1) / (BPS - feeBps), feeBps) >= floor
  {
    var d := BPS - feeBps;
    var estimate := (floor * BPS + d - 1) / d;
    assert estimate * d >= floor * BPS;
    EstimateCovers(floor, feeBps, estimate);
  }

  lemma NetAtLeast(toAmount: nat, gross: nat, floor: nat, feeBps: nat)
    requires feeBps < BPS && IsLeastGross(gross, floor, feeBps)
    ensures Net(toAmount, feeBps) >= floor <==> gross <= toAmount
  {
    if gross <= toAmount {
      NetMonotone(gross, toAmount, feeBps);
    }
  }

  /** `_slippage_bps_to_floor`. It divides by `toAmount`, so an expected output
      of zero against a floor of zero is outside it; its caller asks only when
      the quote's net is below the floor, which is then positive. */
  method SlippageBpsToFloor(toAmount: nat, floor: nat, feeBps: nat) returns (bps: Option<nat>)
    requires feeBps < BPS
    requires toAmount > 0 || floor > 0
    ensures bps == None <==> Net(toAmount, feeBps) < floor
    ensures bps.Some? ==>
              && bps.value <= BPS
              && Net(MinAt(toAmount, bps.value), feeBps) >= floor
              && forall s: nat :: bps.value < s <= BPS ==> Net(MinAt(toAmount, s), feeBps) < floor
  {
    EstimateStarts(floor, feeBps);
    var grossMin: nat := (floor * BPS + (BPS - feeBps) - 1) / (BPS - feeBps);
    while grossMin > 0 && Net(grossMin - 1, feeBps) >= floor
      invariant Net(grossMin, feeBps) >= floor
    {
      grossMin := grossMin - 1;
    }
    LeastFromBelow(grossMin, floor, feeBps);
    NetAtLeast(toAmount, grossMin, floor, feeBps);
    if toAmount < grossMin {
      return None;
    }
    assert Net(0, feeBps) == 0;
    SlippageFromLeast(toAmount, grossMin, floor, feeBps);
    return Some((toAmount - grossMin) * BPS / toAmount);
  }

  datatype Quote = Quote(toAmount: nat, toAmountMin: nat)

  datatype Execution = Accepted(quote: Quote) | BelowFloor

  /** LiFi priced the route alike both times and honours the slippage asked for. */
  ghost predicate Consistent(reply: nat -> Quote, again: nat -> Quote, toAmount: nat)
  {
    forall s: nat :: s <= BPS ==>
      reply(s) == again(s) == Quote(toAmount, MinAt(toAmount, s))
  }

  /** `_execution_quote`: `reply` is LiFi's answer to the first request by
      slippage and `again` its answer to the narrowed one. */
  method ExecutionQuote(reply: nat -> Quote, again: nat -> Quote, slippageBps: nat, floor: nat, feeBps: nat)
    returns (r: Execution)
    requires feeBps < BPS && slippageBps <= BPS
    ensures r.Accepted? ==> forall received: nat ::
              received >= r.quote.toAmountMin ==> Net(received, feeBps) >= floor
    ensures forall toAmount: nat :: Consistent(reply, again, toAmount) ==>
              (r == BelowFloor <==> Net(toAmount, feeBps) < floor)
    ensures r.Accepted? && Net(reply(slippageBps).toAmountMin, feeBps) >= floor ==> r.quote == reply(slippageBps)
  {
    var quote := reply(slippageBps);
    ghost var first := quote;
    if Net(quote.toAmountMin, feeBps) < floor {
      var narrowed := SlippageBpsToFloor(quote.toAmount, floor, feeBps);
      if narrowed.Some? {
        quote := again(narrowed.value);
      }
    }
    forall toAmount: nat | Consistent(reply, again, toAmount)
      ensures Net(quote.toAmountMin, feeBps) < floor <==> Net(toAmount, feeBps) < floor
    {
      assert MinAt(toAmount, slippageBps) <= toAmount by {
        assert toAmount * (BPS - slippageBps) <= toAmount * BPS;
      }
      assert first == Quote(toAmount, MinAt(toAmount, slippageBps));
      NetMonotone(MinAt(toAmount, slippageBps), toAmount, feeBps);
    }
    if Net(quote.toAmountMin, feeBps) < floor {
      return BelowFloor;
    }
    forall received: nat | received >= quote.toAmountMin ensures Net(received, feeBps) >= floor {
      NetMonotone(quote.toAmountMin, received, feeBps);
    }
    return Accepted(quote);
  }
}
