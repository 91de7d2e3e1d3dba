/** The estimated shipping cost range (`estimateShippingCost`): a base cost
    per kilogram scaled by a risk premium, plus 0.1% of the declared value
    for insurance, with a 30% spread on top; always quoted in rials. */
module CostEstimator {
  import opened Php

  datatype CostEstimate = CostEstimate(min: int, max: int, currency: string)

  const BaseCostPerKg: real := 5000.0
  const InsuranceRate: real := 0.001
  const Variance: real := 1.3
  /** The quote's currency, whatever currency the value was declared in. */
  const QuoteCurrency: string := "IRR"

  /** The premium on the base cost. Only the exact strings "high" and
      "medium" carry one; "low" and every other string leave it unchanged. */
  function RiskMultiplier(riskLevel: string): real {
    if riskLevel == "high" then 1.5
    else if riskLevel == "medium" then 1.2
    else 1.0
  }

  /** The unrounded lower end of the range. */
  function TotalMin(weight: real, value: real, riskLevel: string): real {
    weight * BaseCostPerKg * RiskMultiplier(riskLevel) + value * InsuranceRate
  }

  /** The estimate for a weight, a declared value and a risk level. The
      upper end is rounded from the unrounded lower end times the spread,
      not from the rounded lower end. */
  function CostRange(weight: real, value: real, riskLevel: string): (e: CostEstimate)
    ensures e.currency == "IRR"
  {
    var total := TotalMin(weight, value, riskLevel);
    CostEstimate(Round(total), Round(total * Variance), QuoteCurrency)
  }

  /** With a non-negative weight and value, the range is non-negative and
      its lower end does not exceed its upper end. */
  lemma RangeOrdered(weight: real, value: real, riskLevel: string)
    requires 0.0 <= weight && 0.0 <= value
    ensures 0 <= CostRange(weight, value, riskLevel).min <= CostRange(weight, value, riskLevel).max
  {
    var total := TotalMin(weight, value, riskLevel);
    assert 0.0 <= weight * BaseCostPerKg * RiskMultiplier(riskLevel);
    RoundMonotone(total, total * Variance);
  }

  /** `estimateShippingCost`, step by step: the base cost is scaled in place
      by the risk premium before the insurance premium is added. */
  method EstimateShippingCost(weight: real, value: real, riskLevel: string)
    returns (estimate: CostEstimate)
    ensures estimate == CostRange(weight, value, riskLevel)
  {
    var baseCost := weight * 5000.0;
    if riskLevel == "high" {
      baseCost := baseCost * 1.5;
    } else if riskLevel == "medium" {
      baseCost := baseCost * 1.2;
    }
    var insurancePremium := value * 0.001;
    var totalMin := baseCost + insurancePremium;
    var totalMax := totalMin * 1.3;
    estimate := CostEstimate(Round(totalMin), Round(totalMax), "IRR");
  }

  /** Any risk string other than "high" and "medium" is charged as "low";
      the comparison is exact, so "High" is charged as "low" too. */
  lemma UnrecognisedRiskChargedAsLow(weight: real, value: real, riskLevel: string)
    requires riskLevel != "high" && riskLevel != "medium"
    ensures CostRange(weight, value, riskLevel) == CostRange(weight, value, "low")
    ensures CostRange(weight, value, "High") == CostRange(weight, value, "low")
  {
  }

  /** The risk premium is half the base cost for "high" and a fifth of it
      for "medium"; the insurance premium does not depend on risk. */
  lemma RiskPremiums(weight: real, value: real)
    ensures TotalMin(weight, value, "high") == TotalMin(weight, value, "low") + weight * 2500.0
    ensures TotalMin(weight, value, "medium") == TotalMin(weight, value, "low") + weight * 1000.0
    ensures TotalMin(weight, value, "low") == TotalMin(weight, 0.0, "low") + value / 1000.0
  {
  }

  /** For a non-negative weight, a higher risk never lowers either end of
      the range. */
  lemma RiskOrdersCost(weight: real, value: real)
    requires 0.0 <= weight
    ensures CostRange(weight, value, "low").min <= CostRange(weight, value, "medium").min
    ensures CostRange(weight, value, "medium").min <= CostRange(weight, value, "high").min
    ensures CostRange(weight, value, "low").max <= CostRange(weight, value, "medium").max
    ensures CostRange(weight, value, "medium").max <= CostRange(weight, value, "high").max
  {
    var low, medium, high :=
      TotalMin(weight, value, "low"), TotalMin(weight, value, "medium"), TotalMin(weight, value, "high");
    RoundMonotone(low, medium);
    RoundMonotone(medium, high);
    RoundMonotone(low * Variance, medium * Variance);
    RoundMonotone(medium * Variance, high * Variance);
  }

  /** Each end is the nearest integer to its exact amount, for every sign
      of weight and value; a half is rounded up for a non-negative amount
      and down for a negative one. */
  lemma RangeWithinHalfUnit(weight: real, value: real, riskLevel: string)
    ensures var e, t := CostRange(weight, value, riskLevel), TotalMin(weight, value, riskLevel);
      && e.min as real - 0.5 <= t <= e.min as real + 0.5
      && e.max as real - 0.5 <= t * 1.3 <= e.max as real + 0.5
      && (0.0 <= t ==> t < e.min as real + 0.5 && t * 1.3 < e.max as real + 0.5)
      && (t < 0.0 ==> e.min as real - 0.5 < t && e.max as real - 0.5 < t * 1.3)
  {
  }

  /** Two worked quotes: 2 kg of low-risk cargo declared at 0, and 2 kg of
      high-risk cargo declared at 1,000,000. */
  lemma WorkedQuotes()
    ensures CostRange(2.0, 0.0, "low") == CostEstimate(10000, 13000, "IRR")
    ensures CostRange(2.0, 1000000.0, "high") == CostEstimate(16000, 20800, "IRR")
  {
    assert Round(10000.0) == 10000;
    assert Round(13000.0) == 13000;
    assert Round(16000.0) == 16000;
    assert Round(20800.0) == 20800;
  }

  /** The upper end is not the rounded lower end times the spread: a cargo
      whose exact cost is 0.4 is quoted from 0 to 1, while 0 × 1.3 rounds
      to 0. */
  lemma MaxNotFromRoundedMin()
    ensures CostRange(0.0, 400.0, "low") == CostEstimate(0, 1, "IRR")
    ensures Round(CostRange(0.0, 400.0, "low").min as real * Variance) == 0
  {
    assert Round(0.4) == 0;
    assert Round(0.52) == 1;
  }
}
