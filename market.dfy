/** A property listed on the market: the base attributes plus the price it was
    acquired at and its current valuation, which moves by a multiplicative
    random walk. */
module Market {
  import opened Properties

  /** The growth multiplier of one valuation step: drift plus the scaled draw. */
  function GrowthFactor(inflationRate: real, shock: real): real
  {
    1.0 + inflationRate + shock
  }

  /** The valuation after one step of the random walk; nothing clamps it. */
  function Revalued(valuation: real, inflationRate: real, shock: real): real
  {
    valuation * GrowthFactor(inflationRate, shock)
  }

  /** A step with a negative multiplier turns a positive valuation negative. */
  lemma NegativeFactorMakesValuationNegative(valuation: real, inflationRate: real, shock: real)
    requires valuation > 0.0 && GrowthFactor(inflationRate, shock) < 0.0
    ensures Revalued(valuation, inflationRate, shock) < 0.0
  {
  }

  /** Whatever the inflation rate, some draw drives a positive valuation below zero. */
  lemma ValuationIsNotClamped(valuation: real, inflationRate: real)
    requires valuation > 0.0
    ensures exists shock :: Revalued(valuation, inflationRate, shock) < 0.0
  {
    var shock := -2.0 - inflationRate;
    NegativeFactorMakesValuationNegative(valuation, inflationRate, shock);
  }

  class MarketProperty {
    /** The identifier, type and size this property shares with every `Property`. */
    const base: Property
    /** The cost basis; no method assigns it after construction. */
    const initialPrice: real
    var currentValuation: real

    constructor (id: Int32, kind: string, size: real, initialPrice: real)
      ensures fresh(base)
      ensures base.id == id && base.kind == kind && base.size == size
      ensures this.initialPrice == initialPrice && currentValuation == initialPrice
      ensures TotalProfit() == 0.0
    {
      base := new Property(id, kind, size);
      this.initialPrice := initialPrice;
      currentValuation := initialPrice;
    }

    /** One step of the random walk; `shock` is the standard-normal draw already
        scaled by the square root of the volatility coefficient. */
    method UpdateValuation(inflationRate: real, shock: real)
      modifies this`currentValuation
      ensures currentValuation == Revalued(old(currentValuation), inflationRate, shock)
      ensures unchanged(base)
    {
      currentValuation := currentValuation * (1.0 + inflationRate + shock);
    }

    /** The gain (or loss, when negative) of selling at the current valuation. */
    function TotalProfit(): (profit: real)
      reads this
      ensures initialPrice + profit == currentValuation
      ensures profit > 0.0 <==> currentValuation > initialPrice
      ensures profit == 0.0 <==> currentValuation == initialPrice
    {
      currentValuation - initialPrice
    }

    /** The gain as a fraction of the cost basis. */
    function RelativeProfit(): (ratio: real)
      reads this
      requires initialPrice != 0.0
      ensures ratio * initialPrice == TotalProfit()
      ensures initialPrice > 0.0 ==> (ratio > 0.0 <==> currentValuation > initialPrice)
    {
      TotalProfit() / initialPrice
    }
  }
}
