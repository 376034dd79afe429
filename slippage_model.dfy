/** Linear slippage estimate (models/slippage_model.py). */
module SlippageModel {
  import opened Wrappers

  /** The optional `model_params` dictionary: `None` or a dict of named
      numeric parameters. */
  type ModelParams = Option<map<string, real>>

  const DefaultCoefficient: real := 1.0

  /** Whether `model_params and 'coefficient' in model_params` holds: the
      dictionary is present, non-empty (truthy) and has the key. The
      truthiness test adds nothing: a dictionary holding the key is never
      empty. */
  predicate HasCoefficient(params: ModelParams)
    ensures HasCoefficient(params) <==> params.Some? && "coefficient" in params.value
  {
    params.Some? && |params.value| > 0 && "coefficient" in params.value
  }

  /** The coefficient in force: the supplied one whenever the dictionary
      names it (a dictionary holding the key is never empty), else 1.0. */
  function Coefficient(params: ModelParams): (c: real)
    ensures params.Some? && "coefficient" in params.value ==> c == params.value["coefficient"]
    ensures !(params.Some? && "coefficient" in params.value) ==> c == DefaultCoefficient
  {
    if HasCoefficient(params) then params.value["coefficient"] else DefaultCoefficient
  }

  /** `estimate_slippage`: coefficient times spread times quantity, with
      the supplied coefficient when the dictionary names one, else 1.0. */
  function EstimateSlippage(spread: real, quantity: real, params: ModelParams := None): (r: real)
    ensures params.Some? && "coefficient" in params.value ==>
              r == params.value["coefficient"] * spread * quantity
    ensures !(params.Some? && "coefficient" in params.value) ==> r == spread * quantity
  {
    Coefficient(params) * spread * quantity
  }

  /** With no dictionary, an empty one, or one without the key, the default
      coefficient applies, whatever other keys the dictionary holds. */
  lemma DefaultCoefficientApplies(spread: real, quantity: real, params: ModelParams)
    requires params.None? || "coefficient" !in params.value
    ensures EstimateSlippage(spread, quantity, params) == EstimateSlippage(spread, quantity)
    ensures EstimateSlippage(spread, quantity, Some(map[])) == spread * quantity
  {
  }

  /** Only the "coefficient" entry matters: adding or changing other keys
      leaves the estimate unchanged. */
  lemma OtherKeysIgnored(spread: real, quantity: real, params: map<string, real>, key: string, v: real)
    requires key != "coefficient"
    ensures EstimateSlippage(spread, quantity, Some(params[key := v]))
         == EstimateSlippage(spread, quantity, Some(params))
  {
  }

  /** The estimate is linear in the spread and in the quantity; a zero
      spread or a zero quantity gives zero slippage. */
  lemma {:induction false} SlippageLinear(spread: real, quantity: real, k: real, params: ModelParams)
    ensures EstimateSlippage(k * spread, quantity, params) == k * EstimateSlippage(spread, quantity, params)
    ensures EstimateSlippage(spread, k * quantity, params) == k * EstimateSlippage(spread, quantity, params)
    ensures EstimateSlippage(0.0, quantity, params) == 0.0
    ensures EstimateSlippage(spread, 0.0, params) == 0.0
  {
    var c := Coefficient(params);
    assert EstimateSlippage(k * spread, quantity, params) == c * (k * spread) * quantity;
    assert c * (k * spread) * quantity == k * (c * spread * quantity);
    assert EstimateSlippage(spread, k * quantity, params) == c * spread * (k * quantity);
    assert c * spread * (k * quantity) == k * (c * spread * quantity);
  }

  /** Spread 0.1 and quantity 10 give 1.0 by default; spread 0.2, quantity
      5 and coefficient 2.5 give 2.5. */
  lemma ConcreteSlippage()
    ensures EstimateSlippage(0.1, 10.0) == 1.0
    ensures EstimateSlippage(0.2, 5.0, Some(map["coefficient" := 2.5])) == 2.5
  {
  }
}
