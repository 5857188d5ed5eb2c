// core/analysis/risk_factors.py: the earnings-risk buckets and the
// position-sizing arithmetic.
module RiskFactors {
  import opened Common

  /** _analyze_earnings_risk's bucket for a number of days to the next earnings date. */
  function EarningsImpact(daysToEarnings: int): (r: string)
    ensures r in {"Very High", "High", "Medium", "Low"}
    ensures r == "Very High" <==> daysToEarnings < 5
    ensures r == "High" <==> 5 <= daysToEarnings < 14
    ensures r == "Medium" <==> 14 <= daysToEarnings < 30
    ensures r == "Low" <==> daysToEarnings >= 30
  {
    if daysToEarnings < 5 then "Very High"
    else if daysToEarnings < 14 then "High"
    else if daysToEarnings < 30 then "Medium"
    else "Low"
  }

  /** The bucket's severity: 3 for "Very High" down to 0 for "Low". */
  function Severity(impact: string): nat
  {
    if impact == "Very High" then 3 else if impact == "High" then 2 else if impact == "Medium" then 1 else 0
  }

  /** The risk never rises as the earnings date moves further away. */
  lemma EarningsImpactMonotone(d1: int, d2: int)
    requires d1 <= d2
    ensures Severity(EarningsImpact(d2)) <= Severity(EarningsImpact(d1))
  {
  }

  const DefaultAccountSize: real := 100000.0
  const DefaultRiskPercentage: real := 2.0

  /**
   * _calculate_position_sizing's numbers; the recommendation text renders
   * them. Unable stands for "Unable to calculate position sizing", the answer
   * when a division raises.
   */
  datatype Sizing = Sizing(maxShares: int, positionSize: real, positionPercentage: real) | Unable

  /** The risk per share: the distance to the stop, or 1% of the price when that distance is 0. */
  function RiskPerShare(price: real, stopLoss: real): (r: real)
    ensures Abs(price - stopLoss) != 0.0 ==> r == Abs(price - stopLoss)
    ensures Abs(price - stopLoss) == 0.0 ==> r == price * 0.01
  {
    if Abs(price - stopLoss) == 0.0 then price * 0.01 else Abs(price - stopLoss)
  }

  function MaxRiskAmount(accountSize: real, riskPercentage: real): real
  {
    accountSize * (riskPercentage / 100.0)
  }

  lemma DefaultMaxRisk()
    ensures MaxRiskAmount(DefaultAccountSize, DefaultRiskPercentage) == 2000.0
  {
  }

  function PositionSizing(price: real, stopLoss: real, accountSize: real, riskPercentage: real): (r: Sizing)
    ensures r.Unable? <==> RiskPerShare(price, stopLoss) == 0.0 || accountSize == 0.0
    ensures r.Sizing? ==>
      r.maxShares == TruncateTowardZero(MaxRiskAmount(accountSize, riskPercentage) / RiskPerShare(price, stopLoss))
    ensures r.Sizing? ==> r.positionSize == r.maxShares as real * price
    ensures r.Sizing? ==> r.positionPercentage * accountSize == r.positionSize * 100.0
  {
    var riskPerShare := RiskPerShare(price, stopLoss);
    if riskPerShare == 0.0 then Unable
    else
      var maxShares := TruncateTowardZero(MaxRiskAmount(accountSize, riskPercentage) / riskPerShare);
      var positionSize := maxShares as real * price;
      if accountSize == 0.0 then Unable
      else Sizing(maxShares, positionSize, positionSize / accountSize * 100.0)
  }

  lemma MulLe(a: real, b: real, c: real)
    requires a <= b && c > 0.0
    ensures a * c <= b * c
  {
    assert b * c - a * c == (b - a) * c;
  }

  lemma MulLt(a: real, b: real, c: real)
    requires a < b && c > 0.0
    ensures a * c < b * c
  {
    assert b * c - a * c == (b - a) * c;
  }

  /** int(budget / rps) shares cost at most the budget in risk, and one more would exceed it. */
  lemma TruncatedShares(budget: real, rps: real)
    requires budget > 0.0 && rps > 0.0
    ensures var n := TruncateTowardZero(budget / rps);
      n >= 0 && n as real * rps <= budget < (n + 1) as real * rps
  {
    var q := budget / rps;
    assert q * rps == budget;
    if q <= 0.0 {
      MulLe(q, 0.0, rps);
      assert false;
    }
    var n := TruncateTowardZero(q);
    MulLe(n as real, q, rps);
    assert q < (n + 1) as real;
    MulLt(q, (n + 1) as real, rps);
    assert q * rps < (n + 1) as real * rps;
    assert budget < (n + 1) as real * rps;
  }

  /**
   * With a positive risk budget and a positive risk per share, the shares
   * bought never risk more than the budget, and one more share would.
   */
  lemma PositionWithinRiskBudget(price: real, stopLoss: real, accountSize: real, riskPercentage: real)
    requires accountSize > 0.0 && riskPercentage > 0.0 && RiskPerShare(price, stopLoss) > 0.0
    ensures var r := PositionSizing(price, stopLoss, accountSize, riskPercentage);
      var rps := RiskPerShare(price, stopLoss);
      var budget := MaxRiskAmount(accountSize, riskPercentage);
      r.Sizing? && r.maxShares >= 0 &&
      r.maxShares as real * rps <= budget < (r.maxShares + 1) as real * rps
  {
    var budget := MaxRiskAmount(accountSize, riskPercentage);
    MulLt(0.0, riskPercentage / 100.0, accountSize);
    TruncatedShares(budget, RiskPerShare(price, stopLoss));
  }

  /** The dictionary analyze_risk_factors returns: always these three entries. */
  datatype RiskAssessment = RiskAssessment(earningsImpactRisk: string, daysToEarnings: int, positionSizing: Sizing)

  /**
   * analyze_risk_factors; `daysToEarnings` stands for the random draw of
   * _analyze_earnings_risk, and the default account and risk percentage apply.
   */
  function AnalyzeRiskFactors(price: real, stopLoss: real, daysToEarnings: int): (r: RiskAssessment)
    ensures r.earningsImpactRisk == EarningsImpact(daysToEarnings) && r.daysToEarnings == daysToEarnings
    ensures r.positionSizing == PositionSizing(price, stopLoss, DefaultAccountSize, DefaultRiskPercentage)
    ensures r.positionSizing.Unable? <==> price == 0.0 && stopLoss == 0.0
  {
    RiskAssessment(EarningsImpact(daysToEarnings), daysToEarnings,
                   PositionSizing(price, stopLoss, DefaultAccountSize, DefaultRiskPercentage))
  }
}
