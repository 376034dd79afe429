/** Almgren-Chriss style impact estimate (models/market_impact_model.py). */
module MarketImpactModel {

  /** `x ** n` for a natural-number exponent. */
  function Pow(x: real, n: nat): (r: real)
    ensures x >= 0.0 ==> r >= 0.0
    ensures x == 0.0 && n >= 1 ==> r == 0.0
    ensures n == 1 ==> r == x
  {
    if n == 0 then 1.0 else x * Pow(x, n - 1)
  }

  /** Temporary impact `eta * (quantity / T) ** alpha`: non-negative for a
      positive horizon and non-negative quantity and coefficient, zero for
      a zero quantity once `alpha >= 1`, `eta * q / T` at `alpha = 1` and
      the bare coefficient at `alpha = 0`. */
  function TemporaryImpact(quantity: real, timeHorizon: real, alpha: nat, eta: real): (r: real)
    requires timeHorizon != 0.0
    ensures timeHorizon > 0.0 && quantity >= 0.0 && eta >= 0.0 ==> r >= 0.0
    ensures quantity == 0.0 && alpha >= 1 ==> r == 0.0
    ensures alpha == 1 ==> r == eta * quantity / timeHorizon
    ensures alpha == 0 ==> r == eta
  {
    var rate := quantity / timeHorizon;
    assert timeHorizon > 0.0 && quantity >= 0.0 ==> rate >= 0.0;
    assert quantity == 0.0 ==> rate == 0.0;
    eta * Pow(rate, alpha)
  }

  /** Permanent impact `gamma * (quantity / T) ** beta`, with the same
      facts as the temporary impact for its own exponent and coefficient. */
  function PermanentImpact(quantity: real, timeHorizon: real, beta: nat, gamma: real): (r: real)
    requires timeHorizon != 0.0
    ensures timeHorizon > 0.0 && quantity >= 0.0 && gamma >= 0.0 ==> r >= 0.0
    ensures quantity == 0.0 && beta >= 1 ==> r == 0.0
    ensures beta == 1 ==> r == gamma * quantity / timeHorizon
    ensures beta == 0 ==> r == gamma
  {
    var rate := quantity / timeHorizon;
    assert timeHorizon > 0.0 && quantity >= 0.0 ==> rate >= 0.0;
    assert quantity == 0.0 ==> rate == 0.0;
    gamma * Pow(rate, beta)
  }

  /** Execution risk term `0.5 * lambda * sigma ** 2 * quantity ** 2 / T`:
      a variance penalty, non-negative whatever the sign of quantity and
      volatility for a positive horizon and non-negative risk aversion, and
      zero when any of quantity, volatility or risk aversion is zero. */
  function RiskTerm(quantity: real, timeHorizon: real, volatility: real, riskAversion: real): (r: real)
    requires timeHorizon != 0.0
    ensures timeHorizon > 0.0 && riskAversion >= 0.0 ==> r >= 0.0
    ensures quantity == 0.0 || volatility == 0.0 || riskAversion == 0.0 ==> r == 0.0
  {
    var s2 := volatility * volatility;
    var q2 := quantity * quantity;
    assert s2 >= 0.0 && q2 >= 0.0;
    assert riskAversion >= 0.0 ==> 0.5 * riskAversion * s2 * q2 >= 0.0;
    0.5 * riskAversion * s2 * q2 / timeHorizon
  }

  /** `almgren_chriss_impact`. Every term divides by the horizon, so a zero
      horizon is excluded (the source raises ZeroDivisionError there). For a
      positive horizon and non-negative quantity and coefficients the impact
      is non-negative, and a zero quantity costs nothing once both exponents
      are at least one. */
  function AlmgrenChrissImpact(quantity: real, timeHorizon: real, alpha: nat, beta: nat,
                               gamma: real, eta: real, volatility: real, riskAversion: real): (r: real)
    requires timeHorizon != 0.0
    ensures timeHorizon > 0.0 && quantity >= 0.0 && gamma >= 0.0 && eta >= 0.0 && riskAversion >= 0.0 ==>
              r >= 0.0
    ensures quantity == 0.0 && alpha >= 1 && beta >= 1 ==> r == 0.0
  {
    TemporaryImpact(quantity, timeHorizon, alpha, eta)
      + PermanentImpact(quantity, timeHorizon, beta, gamma)
      + RiskTerm(quantity, timeHorizon, volatility, riskAversion)
  }

  /** With both exponents 1 the impact is `(eta + gamma) * q / T` plus the
      risk term `0.5 * lambda * sigma^2 * q^2 / T`. */
  lemma LinearExponents(quantity: real, timeHorizon: real, gamma: real, eta: real,
                        volatility: real, riskAversion: real)
    requires timeHorizon != 0.0
    ensures TemporaryImpact(quantity, timeHorizon, 1, eta) == eta * quantity / timeHorizon
    ensures PermanentImpact(quantity, timeHorizon, 1, gamma) == gamma * quantity / timeHorizon
    ensures AlmgrenChrissImpact(quantity, timeHorizon, 1, 1, gamma, eta, volatility, riskAversion)
         == (eta + gamma) * quantity / timeHorizon
            + 0.5 * riskAversion * volatility * volatility * quantity * quantity / timeHorizon
  {
    assert Pow(quantity / timeHorizon, 1) == quantity / timeHorizon;
    assert eta * (quantity / timeHorizon) == eta * quantity / timeHorizon;
    assert gamma * (quantity / timeHorizon) == gamma * quantity / timeHorizon;
  }

  /** q = 10, T = 2, alpha = beta = 1, gamma = eta = 1, sigma = 2,
      lambda = 0.5: the terms are 5, 5 and 50, the impact 60. */
  lemma ConcreteImpact()
    ensures TemporaryImpact(10.0, 2.0, 1, 1.0) == 5.0
    ensures PermanentImpact(10.0, 2.0, 1, 1.0) == 5.0
    ensures RiskTerm(10.0, 2.0, 2.0, 0.5) == 50.0
    ensures AlmgrenChrissImpact(10.0, 2.0, 1, 1, 1.0, 1.0, 2.0, 0.5) == 60.0
  {
    LinearExponents(10.0, 2.0, 1.0, 1.0, 2.0, 0.5);
  }
}
