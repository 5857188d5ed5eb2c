// core/analysis/price_targets.py: target and stop selection from the
// support/resistance lists with percentage fallbacks, the risk/reward ratio,
// and the days-to-target estimate.
module PriceTargets {
  import opened Common

  /** min([x for x in xs if x > p]), or None when no element exceeds p. */
  function MinAbove(xs: seq<real>, p: real): (r: Option<real>)
    ensures r.None? <==> forall i :: 0 <= i < |xs| ==> xs[i] <= p
    ensures r.Some? ==> r.value in xs && r.value > p
    ensures r.Some? ==> forall i :: 0 <= i < |xs| && xs[i] > p ==> r.value <= xs[i]
  {
    if xs == [] then None
    else
      var rest := MinAbove(xs[1..], p);
      assert forall i :: 1 <= i < |xs| ==> xs[i] == xs[1..][i - 1];
      if xs[0] <= p then rest
      else if rest.None? || xs[0] <= rest.value then Some(xs[0])
      else rest
  }

  /** max([x for x in xs if x < p]), or None when no element is below p. */
  function MaxBelow(xs: seq<real>, p: real): (r: Option<real>)
    ensures r.None? <==> forall i :: 0 <= i < |xs| ==> xs[i] >= p
    ensures r.Some? ==> r.value in xs && r.value < p
    ensures r.Some? ==> forall i :: 0 <= i < |xs| && xs[i] < p ==> r.value >= xs[i]
  {
    if xs == [] then None
    else
      var rest := MaxBelow(xs[1..], p);
      assert forall i :: 1 <= i < |xs| ==> xs[i] == xs[1..][i - 1];
      if xs[0] >= p then rest
      else if rest.None? || xs[0] >= rest.value then Some(xs[0])
      else rest
  }

  function OrElse(x: Option<real>, fallback: real): real
  {
    if x.Some? then x.value else fallback
  }

  /** The target and the stop loss, before the ratio and the days are worked out. */
  datatype Levels = Levels(target: real, stop: real)

  /**
   * The level choice of calculate_price_targets: percentage levels when
   * either list is empty, otherwise the nearest resistance above and support
   * below the price, each with its percentage fallback.
   */
  function ChooseLevels(supports: seq<real>, resistances: seq<real>, price: real, direction: string): (r: Levels)
    ensures (supports == [] || resistances == []) && direction == "UP" ==> r == Levels(price * 1.05, price * 0.97)
    ensures (supports == [] || resistances == []) && direction != "UP" ==> r == Levels(price * 0.95, price * 1.03)
    ensures supports != [] && resistances != [] && direction == "UP" ==>
      r == Levels(OrElse(MinAbove(resistances, price), price * 1.05), OrElse(MaxBelow(supports, price), price * 0.97))
    ensures supports != [] && resistances != [] && direction != "UP" ==>
      r == Levels(OrElse(MaxBelow(supports, price), price * 0.95), OrElse(MinAbove(resistances, price), price * 1.03))
  {
    if supports == [] || resistances == [] then
      if direction == "UP" then Levels(price * 1.05, price * 0.97) else Levels(price * 0.95, price * 1.03)
    else if direction == "UP" then
      Levels(OrElse(MinAbove(resistances, price), price * 1.05), OrElse(MaxBelow(supports, price), price * 0.97))
    else
      Levels(OrElse(MaxBelow(supports, price), price * 0.95), OrElse(MinAbove(resistances, price), price * 1.03))
  }

  /** For a positive price an "UP" call brackets the price with target above and stop below, "DOWN" the reverse. */
  lemma LevelsBracketPrice(supports: seq<real>, resistances: seq<real>, price: real, direction: string)
    ensures var r := ChooseLevels(supports, resistances, price, direction);
      price > 0.0 && direction == "UP" ==> r.stop < price < r.target
    ensures var r := ChooseLevels(supports, resistances, price, direction);
      price > 0.0 && direction != "UP" ==> r.target < price < r.stop
  {
  }

  /** reward / risk, or 0 when the risk is 0. */
  function RiskReward(price: real, levels: Levels): (r: real)
    ensures r >= 0.0
    ensures Abs(price - levels.stop) == 0.0 ==> r == 0.0
    ensures Abs(price - levels.stop) != 0.0 ==> r * Abs(price - levels.stop) == Abs(price - levels.target)
  {
    var risk := Abs(price - levels.stop);
    var reward := Abs(price - levels.target);
    if risk == 0.0 then 0.0 else reward / risk
  }

  const DefaultDays: int := 10
  const NoMovementDays: int := 30

  /**
   * _estimate_days_to_target: 10 with fewer than 30 rows (or none); 10 also
   * for a zero price, whose division raises before anything else; 30 when
   * the average absolute daily change is 0; otherwise the rounded ratio of
   * the distance to the target over the average change, clamped to [1, 60].
   */
  function EstimateDaysToTarget(rowCount: Option<nat>, price: real, target: real, avgDailyChange: real): (r: int)
    requires avgDailyChange >= 0.0
    ensures 1 <= r <= 60
    ensures rowCount.None? || rowCount.value < 30 || price == 0.0 ==> r == DefaultDays
    ensures rowCount.Some? && rowCount.value >= 30 && price != 0.0 && avgDailyChange == 0.0 ==> r == NoMovementDays
  {
    if rowCount.None? || rowCount.value < 30 then DefaultDays
    else if price == 0.0 then DefaultDays
    else
      var pctDiff := Abs(target - price) / price;
      if avgDailyChange == 0.0 then NoMovementDays
      else
        var days := RoundHalfEven(pctDiff / avgDailyChange);
        if days < 1 then 1 else if days > 60 then 60 else days
  }

  /** A farther target never gives fewer days, for a positive price and a moving market. */
  lemma DaysMonotoneInDistance(rowCount: Option<nat>, price: real, t1: real, t2: real, avgDailyChange: real)
    requires avgDailyChange > 0.0 && price > 0.0
    requires Abs(t1 - price) <= Abs(t2 - price)
    ensures EstimateDaysToTarget(rowCount, price, t1, avgDailyChange) <= EstimateDaysToTarget(rowCount, price, t2, avgDailyChange)
  {
    var a := Abs(t1 - price) / price;
    var b := Abs(t2 - price) / price;
    DivMonotone(Abs(t1 - price), Abs(t2 - price), price);
    DivMonotone(a, b, avgDailyChange);
    RoundHalfEvenMonotone(a / avgDailyChange, b / avgDailyChange);
  }

  lemma DivMonotone(x: real, y: real, d: real)
    requires d > 0.0 && x <= y
    ensures x / d <= y / d
  {
    assert y / d - x / d == (y - x) / d;
  }

  /** The dictionary calculate_price_targets returns. */
  datatype Targets = Targets(targetPrice: real, stopLossPrice: real, riskRewardRatio: real, daysToTarget: int)

  /**
   * calculate_price_targets: {} (None) without data or with fewer than 50
   * rows. `supports` and `resistances` are what calculate_support_resistance
   * gives; `avgDailyChange` is the mean absolute percentage change of the
   * last 30 closes.
   */
  function CalculatePriceTargets(rowCount: Option<nat>, supports: seq<real>, resistances: seq<real>,
                                 price: real, direction: string, avgDailyChange: real): (r: Option<Targets>)
    requires avgDailyChange >= 0.0
    ensures r.None? <==> rowCount.None? || rowCount.value < 50
    ensures r.Some? ==> r.value.riskRewardRatio >= 0.0 && 1 <= r.value.daysToTarget <= 60
    ensures r.Some? && price > 0.0 && direction == "UP" ==> r.value.stopLossPrice < price < r.value.targetPrice
    ensures r.Some? && price > 0.0 && direction != "UP" ==> r.value.targetPrice < price < r.value.stopLossPrice
  {
    if rowCount.None? || rowCount.value < 50 then None
    else
      var levels := ChooseLevels(supports, resistances, price, direction);
      LevelsBracketPrice(supports, resistances, price, direction);
      Some(Targets(levels.target, levels.stop, RiskReward(price, levels),
                   EstimateDaysToTarget(rowCount, price, levels.target, avgDailyChange)))
  }
}
