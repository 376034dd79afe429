/** Exchange fees by fee tier (utils/fee_model.py). */
module FeeModel {
  import opened Wrappers

  /** The maker and taker rates of one fee tier. */
  datatype TierRates = TierRates(maker: real, taker: real)

  /** The `ValueError` raised for a tier name the table does not know. */
  datatype FeeError = UnknownFeeTier(tier: string)

  /** The static fee tier table `FEE_TIERS`. */
  const FeeTiers: map<string, TierRates> := map[
    "Tier 0" := TierRates(0.0010, 0.0020),
    "Tier 1" := TierRates(0.0008, 0.0018),
    "Tier 2" := TierRates(0.0006, 0.0016)
  ]

  /** `calculate_fee`: price times quantity times the tier's taker rate when
      `isTaker` (the default), else its maker rate; an unknown tier fails. */
  function CalculateFee(price: real, quantity: real, feeTier: string, isTaker: bool := true)
    : (r: Result<real, FeeError>)
    ensures r.Failure? <==> feeTier !in FeeTiers
    ensures r.Failure? ==> r.error == UnknownFeeTier(feeTier)
    ensures r.Success? && isTaker ==> r.value == price * quantity * FeeTiers[feeTier].taker
    ensures r.Success? && !isTaker ==> r.value == price * quantity * FeeTiers[feeTier].maker
  {
    if feeTier !in FeeTiers then
      Failure(UnknownFeeTier(feeTier))
    else
      var tier := FeeTiers[feeTier];
      var rate := if isTaker then tier.taker else tier.maker;
      Success(price * quantity * rate)
  }

  /** The table holds exactly three tiers, and in each the maker rate is
      non-negative and strictly below the taker rate. */
  lemma TableShape()
    ensures FeeTiers.Keys == {"Tier 0", "Tier 1", "Tier 2"}
    ensures forall t :: t in FeeTiers ==> 0.0 <= FeeTiers[t].maker < FeeTiers[t].taker
  {
  }

  /** For a non-negative price and quantity every known tier gives a
      non-negative fee, and the taker fee is never below the maker fee. */
  lemma FeeNonNegative(price: real, quantity: real, feeTier: string, isTaker: bool)
    requires price >= 0.0 && quantity >= 0.0
    requires feeTier in FeeTiers
    ensures CalculateFee(price, quantity, feeTier, isTaker).Success?
    ensures CalculateFee(price, quantity, feeTier, isTaker).value >= 0.0
    ensures CalculateFee(price, quantity, feeTier, false).value
         <= CalculateFee(price, quantity, feeTier, true).value
  {
    TableShape();
    var notional := price * quantity;
    assert notional >= 0.0;
    var t := FeeTiers[feeTier];
    assert notional * t.maker <= notional * t.taker;
    assert notional * t.maker >= 0.0;
  }

  /** Omitting the flag gives the taker fee. */
  lemma DefaultIsTaker(price: real, quantity: real, feeTier: string)
    ensures CalculateFee(price, quantity, feeTier) == CalculateFee(price, quantity, feeTier, true)
  {
  }

  /** Price 100 and quantity 2 in Tier 0 cost 0.40 as taker and 0.20 as
      maker; an unknown tier name fails. */
  lemma ConcreteFees()
    ensures CalculateFee(100.0, 2.0, "Tier 0", true) == Success(100.0 * 2.0 * 0.0020)
    ensures CalculateFee(100.0, 2.0, "Tier 0", true) == Success(0.40)
    ensures CalculateFee(100.0, 2.0, "Tier 0", false) == Success(0.20)
    ensures CalculateFee(100.0, 1.0, "InvalidTier", true) == Failure(UnknownFeeTier("InvalidTier"))
  {
  }
}
