// core/analysis/model.py: the guards of generate_prediction, the bucketed
// direction/confidence model of _predict_direction, _generate_signal and
// _calculate_profit_probability.
module PredictionModel {
  import opened Common

  /**
   * An indicator dictionary restricted to its numeric entries: a key maps to
   * Some(number) or to None (a Python None value); an absent key is absent.
   */
  type Indicators = map<string, Option<real>>

  /** indicators.get(key, default). */
  function Get(indicators: Indicators, key: string, default: real): (r: Option<real>)
    ensures key !in indicators ==> r == Some(default)
    ensures key in indicators ==> r == indicators[key]
  {
    if key in indicators then indicators[key] else Some(default)
  }

  /** The RSI bucket: strict thresholds at 70, 60, 50, 40 and 30. */
  function RsiPoints(rsi: real): (r: real)
    ensures r in {90.0, 75.0, 60.0, 40.0, 25.0, 10.0}
    ensures r > 50.0 <==> rsi > 50.0
    ensures r == 90.0 <==> rsi > 70.0
    ensures r == 75.0 <==> 60.0 < rsi <= 70.0
    ensures r == 60.0 <==> 50.0 < rsi <= 60.0
    ensures r == 40.0 <==> 40.0 < rsi <= 50.0
    ensures r == 25.0 <==> 30.0 < rsi <= 40.0
    ensures r == 10.0 <==> rsi <= 30.0
  {
    if rsi > 70.0 then 90.0
    else if rsi > 60.0 then 75.0
    else if rsi > 50.0 then 60.0
    else if rsi > 40.0 then 40.0
    else if rsi > 30.0 then 25.0
    else 10.0
  }

  lemma RsiPointsMonotone(a: real, b: real)
    requires a <= b
    ensures RsiPoints(a) <= RsiPoints(b)
  {
  }

  /** The MACD bucket: a zero line or histogram value counts as neither side and lands in 20. */
  function MacdPoints(macd: real, hist: real): (r: real)
    ensures r == 80.0 <==> macd > 0.0 && hist > 0.0
    ensures r == 60.0 <==> macd > 0.0 && hist < 0.0
    ensures r == 40.0 <==> macd < 0.0 && hist > 0.0
    ensures r == 20.0 <==> !(macd > 0.0 && hist != 0.0) && !(macd < 0.0 && hist > 0.0)
  {
    if macd > 0.0 && hist > 0.0 then 80.0
    else if macd > 0.0 && hist < 0.0 then 60.0
    else if macd < 0.0 && hist > 0.0 then 40.0
    else 20.0
  }

  /** Momentum counts on the 0-100 scale; a None momentum counts as 50. */
  function Momentum100(indicators: Indicators): real
  {
    var m := Get(indicators, "momentum_score", 0.5);
    if m.Some? then m.value * 100.0 else 50.0
  }

  /** The sum of the contributions of the present components. */
  function ScoreSum(indicators: Indicators): real
  {
    var rsi := Get(indicators, "rsi", 50.0);
    var macd := Get(indicators, "macd", 0.0);
    var hist := Get(indicators, "macd_histogram", 0.0);
    var trend := Get(indicators, "technical_trend_score", 50.0);
    (if rsi.Some? then RsiPoints(rsi.value) else 0.0)
    + (if macd.Some? && hist.Some? then MacdPoints(macd.value, hist.value) else 0.0)
    + (if trend.Some? then trend.value else 0.0)
    + Momentum100(indicators)
  }

  /** The number of present components. */
  function ComponentCount(indicators: Indicators): (r: nat)
    ensures 1 <= r <= 4
  {
    var rsi := Get(indicators, "rsi", 50.0);
    var macd := Get(indicators, "macd", 0.0);
    var hist := Get(indicators, "macd_histogram", 0.0);
    var trend := Get(indicators, "technical_trend_score", 50.0);
    (if rsi.Some? then 1 else 0) + (if macd.Some? && hist.Some? then 1 else 0)
    + (if trend.Some? then 1 else 0) + 1
  }

  /** The averaged prediction score (the neutral 50 for no components never applies). */
  function PredictionScore(indicators: Indicators): (r: real)
    ensures r * ComponentCount(indicators) as real == ScoreSum(indicators)
  {
    ScoreSum(indicators) / ComponentCount(indicators) as real
  }

  /** The ADX scaling of the confidence: 0.8 below 20, 1.2 above 40. */
  function AdxScaled(confidence: real, adx: Option<real>): (r: real)
    ensures adx.Some? && adx.value < 20.0 ==> r == 0.8 * confidence
    ensures adx.Some? && adx.value > 40.0 ==> r == 1.2 * confidence
    ensures adx.None? || 20.0 <= adx.value <= 40.0 ==> r == confidence
    ensures confidence >= 0.0 ==> 0.8 * confidence <= r <= 1.2 * confidence
  {
    if adx.Some? && adx.value < 20.0 then confidence * 0.8
    else if adx.Some? && adx.value > 40.0 then confidence * 1.2
    else confidence
  }

  /**
   * _predict_direction: the components are added up one by one and averaged;
   * "UP" exactly when the average exceeds 50, and the confidence is twice the
   * distance from 50, scaled by ADX and clamped to [0, 100].
   */
  method PredictDirection(indicators: Indicators) returns (direction: string, confidence: real)
    ensures direction == "UP" <==> PredictionScore(indicators) > 50.0
    ensures direction == "UP" || direction == "DOWN"
    ensures 0.0 <= confidence <= 100.0
    ensures confidence == Clamp(0.0, 100.0, AdxScaled(2.0 * Abs(PredictionScore(indicators) - 50.0),
                                                    Get(indicators, "adx", 20.0)))
  {
    var rsi := Get(indicators, "rsi", 50.0);
    var macd := Get(indicators, "macd", 0.0);
    var macdHist := Get(indicators, "macd_histogram", 0.0);
    var adx := Get(indicators, "adx", 20.0);
    var trendScore := Get(indicators, "technical_trend_score", 50.0);
    var momentumScore := Get(indicators, "momentum_score", 0.5);
    var momentum100 := if momentumScore.Some? then momentumScore.value * 100.0 else 50.0;

    var predictionScore: real := 0.0;
    var components: nat := 0;
    if rsi.Some? {
      predictionScore := predictionScore + RsiPoints(rsi.value);
      components := components + 1;
    }
    if macd.Some? && macdHist.Some? {
      predictionScore := predictionScore + MacdPoints(macd.value, macdHist.value);
      components := components + 1;
    }
    if trendScore.Some? {
      predictionScore := predictionScore + trendScore.value;
      components := components + 1;
    }
    predictionScore := predictionScore + momentum100;
    components := components + 1;
    assert predictionScore == ScoreSum(indicators) && components == ComponentCount(indicators);

    if components > 0 {
      predictionScore := predictionScore / components as real;
    } else {
      predictionScore := 50.0;
    }

    if predictionScore > 50.0 {
      direction := "UP";
      confidence := (predictionScore - 50.0) * 2.0;
    } else {
      direction := "DOWN";
      confidence := (50.0 - predictionScore) * 2.0;
    }
    if adx.Some? {
      if adx.value < 20.0 {
        confidence := confidence * 0.8;
      } else if adx.value > 40.0 {
        confidence := confidence * 1.2;
      }
    }
    confidence := Clamp(0.0, 100.0, confidence);
  }

  /** A score of exactly 50 is "DOWN" with no confidence. */
  lemma NeutralScoreIsDownWithZeroConfidence(indicators: Indicators)
    requires PredictionScore(indicators) == 50.0
    ensures !(PredictionScore(indicators) > 50.0)
    ensures Clamp(0.0, 100.0, AdxScaled(2.0 * Abs(PredictionScore(indicators) - 50.0), Get(indicators, "adx", 20.0))) == 0.0
  {
  }

  /**
   * With a trend score in [0, 100] and a momentum score in [0, 1] every
   * component lies in [0, 100], and so does their average.
   */
  lemma PredictionScoreBounded(indicators: Indicators)
    requires Get(indicators, "technical_trend_score", 50.0).Some? ==>
      0.0 <= Get(indicators, "technical_trend_score", 50.0).value <= 100.0
    requires Get(indicators, "momentum_score", 0.5).Some? ==>
      0.0 <= Get(indicators, "momentum_score", 0.5).value <= 1.0
    ensures 0.0 <= PredictionScore(indicators) <= 100.0
  {
    var n := ComponentCount(indicators) as real;
    var s := ScoreSum(indicators);
    assert 0.0 <= s <= 100.0 * n;
    assert s / n * n == s;
  }

  /** _generate_signal. */
  function GenerateSignal(direction: string): (r: string)
    ensures direction == "UP" ==> r == "Buy CALL Option"
    ensures direction != "UP" ==> r == "Buy PUT Option"
  {
    if direction == "UP" then "Buy CALL Option" else "Buy PUT Option"
  }

  /** The ADX factor of the profit probability: 0.9 below 20, 1.1 above 40, otherwise 1. */
  function AdxFactor(adx: real): (r: real)
    ensures r in {0.9, 1.0, 1.1}
    ensures r == 0.9 <==> adx < 20.0
    ensures r == 1.1 <==> adx > 40.0
    ensures r == 1.0 <==> 20.0 <= adx <= 40.0
  {
    if adx < 20.0 then 0.9 else if adx > 40.0 then 1.1 else 1.0
  }

  /**
   * The probability before clamping, or None when a "volatility" entry holds
   * None (the division by 100 raises; generate_prediction then returns {}).
   */
  function RawProfitProbability(confidence: real, indicators: Indicators): (r: Option<real>)
    ensures r.None? <==> "volatility" in indicators && indicators["volatility"].None?
  {
    var adx := Get(indicators, "adx", 20.0);
    var scaled := if adx.Some? then confidence * AdxFactor(adx.value) else confidence;
    if "volatility" !in indicators then Some(scaled)
    else if indicators["volatility"].None? then None
    else Some(scaled * (1.0 - indicators["volatility"].value / 100.0 * 0.3))
  }

  /** _calculate_profit_probability: confidence times the ADX and volatility factors, clamped to [0, 100]. */
  method CalculateProfitProbability(confidence: real, indicators: Indicators) returns (probability: Option<real>)
    ensures probability.None? <==> RawProfitProbability(confidence, indicators).None?
    ensures probability.Some? ==>
      0.0 <= probability.value <= 100.0 &&
      probability.value == Clamp(0.0, 100.0, RawProfitProbability(confidence, indicators).value)
  {
    var baseProbability := confidence;
    var adx := Get(indicators, "adx", 20.0);
    if adx.Some? {
      var adxFactor: real;
      if adx.value < 20.0 {
        adxFactor := 0.9;
      } else if adx.value > 40.0 {
        adxFactor := 1.1;
      } else {
        adxFactor := 1.0;
      }
      baseProbability := baseProbability * adxFactor;
    }
    if "volatility" in indicators {
      var volatility := indicators["volatility"];
      if volatility.None? {
        return None;
      }
      var volFactor := 1.0 - volatility.value / 100.0 * 0.3;
      baseProbability := baseProbability * volFactor;
    }
    probability := Some(Clamp(0.0, 100.0, baseProbability));
  }

  /** Without a volatility entry and with a moderate ADX the probability is the confidence itself. */
  lemma ModerateTrendKeepsConfidence(confidence: real, indicators: Indicators)
    requires 0.0 <= confidence <= 100.0
    requires "volatility" !in indicators
    requires "adx" !in indicators || (indicators["adx"].Some? && 20.0 <= indicators["adx"].value <= 40.0)
    ensures RawProfitProbability(confidence, indicators) == Some(confidence)
  {
  }

  /** The (numeric part of the) dictionary generate_prediction returns. */
  datatype Prediction = Prediction(signal: string, direction: string, confidencePercent: real,
                                   profitProbabilityPercent: real, modelAccuracy: real)

  /**
   * generate_prediction: {} (None) without data, with fewer than 50 rows, for
   * an empty indicator dictionary, or when the profit probability raises.
   * `rowCount` is None when there is no data; `modelAccuracy` stands for the
   * random placeholder of _calculate_model_accuracy.
   */
  method GeneratePrediction(rowCount: Option<nat>, indicators: Indicators, modelAccuracy: real)
    returns (prediction: Option<Prediction>)
    ensures prediction.Some? <==>
      rowCount.Some? && rowCount.value >= 50 && indicators != map[] &&
      RawProfitProbability(Clamp(0.0, 100.0, AdxScaled(2.0 * Abs(PredictionScore(indicators) - 50.0),
                                                      Get(indicators, "adx", 20.0))), indicators).Some?
    ensures prediction.Some? ==>
      && (prediction.value.direction == "UP" <==> PredictionScore(indicators) > 50.0)
      && prediction.value.signal == GenerateSignal(prediction.value.direction)
      && prediction.value.confidencePercent ==
           Clamp(0.0, 100.0, AdxScaled(2.0 * Abs(PredictionScore(indicators) - 50.0), Get(indicators, "adx", 20.0)))
      && prediction.value.profitProbabilityPercent ==
           Clamp(0.0, 100.0, RawProfitProbability(prediction.value.confidencePercent, indicators).value)
      && 0.0 <= prediction.value.confidencePercent <= 100.0
      && 0.0 <= prediction.value.profitProbabilityPercent <= 100.0
      && prediction.value.modelAccuracy == modelAccuracy
  {
    if rowCount.None? || rowCount.value < 50 {
      return None;
    }
    if indicators == map[] {
      return None;
    }
    var direction, confidence := PredictDirection(indicators);
    var signal := GenerateSignal(direction);
    var probability := CalculateProfitProbability(confidence, indicators);
    if probability.None? {
      return None;
    }
    prediction := Some(Prediction(signal, direction, confidence, probability.value, modelAccuracy));
  }
}
