/** The fee arithmetic of src/core/fees.py. */
module Fees {

  const BPS := 10_000

  /** A fee rate in basis points. */
  type Rate = bps: nat | bps <= 10_000

  function Fee(gross: nat, feeBps: nat): (fee: nat)
  {
    gross * feeBps / BPS
  }

  /** What the payee receives: the gross amount less its floored fee. */
  function Net(gross: nat, feeBps: nat): (net: nat)
    requires feeBps <= BPS
    ensures net + Fee(gross, feeBps) == gross
  {
    FeeBound(gross, feeBps);
    gross - Fee(gross, feeBps)
  }

  lemma FeeBound(gross: nat, feeBps: nat)
    requires feeBps <= BPS
    ensures Fee(gross, feeBps) <= gross
  {
    assert gross * feeBps <= gross * BPS;
  }

  /** One more unit of gross pays zero or one more unit net. */
  lemma NetStep(gross: nat, feeBps: nat)
    requires feeBps <= BPS
    ensures Net(gross, feeBps) <= Net(gross + 1, feeBps) <= Net(gross, feeBps) + 1
  {
    assert (gross + 1) * feeBps == gross * feeBps + feeBps;
  }

  lemma NetMonotone(low: nat, high: nat, feeBps: nat)
    requires feeBps <= BPS && low <= high
    ensures Net(low, feeBps) <= Net(high, feeBps)
    decreases high - low
  {
    if low < high {
      NetMonotone(low, high - 1, feeBps);
      NetStep(high - 1, feeBps);
    }
  }
}
