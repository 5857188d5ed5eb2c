// core/analysis/stock_analyzer.py: analyze_stock chains the stages (market
// data, indicators, prediction, targets, options, risk) with an early error
// record at each failure, and analyze_multiple_stocks collects one result per
// symbol. Each stage's outcome is an input here; the stages themselves are
// the other modules.
module StockAnalyzer {
  import opened Common
  import Sequences
  import Indicators
  import PredictionModel
  import PriceTargets
  import OptionAnalysis
  import RiskFactors

  /** A stage either returns a value or raises an exception with a message. */
  datatype Step<T> = Done(value: T) | Threw(message: string)

  /** The fields of the get_market_data dictionary analyze_stock reads. */
  datatype MarketSnapshot = MarketSnapshot(currentPrice: Option<real>, previousClose: Option<real>,
                                           history: Option<seq<Candle>>, volatilityPercent: Option<real>,
                                           volumeChangePercent: Option<real>, marketStatus: string)

  /**
   * What each stage gives for one symbol. `fetched` is Done(None) for a falsy
   * (empty) market-data dictionary; `indicators` is None for the {} of
   * calculate_all_indicators, `options` None for the {} of analyze_options.
   */
  datatype Stages = Stages(
    fetched: Step<Option<MarketSnapshot>>,
    indicators: Step<Option<Indicators.IndicatorSet>>,
    prediction: Step<Option<PredictionModel.Prediction>>,
    targets: Step<Option<PriceTargets.Targets>>,
    options: Step<Option<OptionAnalysis.OptionAnalysisResult>>,
    risk: Step<RiskFactors.RiskAssessment>)

  /** The compiled result dictionary (timestamp left out). */
  datatype StockRecord = StockRecord(
    symbol: string, previousClose: Option<real>, currentPrice: real, volatilityPercent: Option<real>,
    prediction: PredictionModel.Prediction, targets: PriceTargets.Targets,
    technical: Option<Indicators.IndicatorSet>, volumeChangePercent: Option<real>,
    majorSupports: seq<Option<real>>, majorResistances: seq<Option<real>>,
    options: Option<OptionAnalysis.OptionAnalysisResult>, risk: RiskFactors.RiskAssessment,
    marketStatus: string)

  datatype AnalysisResult = Failed(error: string) | Analyzed(record: StockRecord)

  function FetchFailed(symbol: string): string { "Failed to fetch market data for " + symbol }
  function Insufficient(symbol: string): string { "Insufficient market data for " + symbol }
  function PredictionFailed(symbol: string): string { "Failed to generate prediction for " + symbol }
  function TargetsFailed(symbol: string): string { "Failed to calculate price targets for " + symbol }
  function ErrorAnalyzing(symbol: string, message: string): string { "Error analyzing " + symbol + ": " + message }

  /** The text of the ValueError raised by `not` applied to a pandas Series. */
  const SeriesTruthError := "The truth value of a Series is ambiguous. Use a.empty, a.bool(), a.item(), a.any() or a.all()."
  /** The text of the AttributeError raised by `.any()` on None. */
  const NoneAnyError := "'NoneType' object has no attribute 'any'"

  /** A Python truth test of an optional number: None and 0 are falsy. */
  predicate Truthy(x: Option<real>)
  {
    x.Some? && x.value != 0.0
  }

  /**
   * technical_indicators.get(levels)[k] if the list has more than k elements,
   * else None (a missing list is None too).
   */
  function MajorLevel(levels: Option<seq<real>>, k: nat): (r: Option<real>)
    ensures r.Some? <==> levels.Some? && k < |levels.value|
    ensures r.Some? ==> r.value == levels.value[k]
  {
    if levels.Some? && k < |levels.value| then Some(levels.value[k]) else None
  }

  function SupportsOf(technical: Option<Indicators.IndicatorSet>): Option<seq<real>>
  {
    if technical.Some? then Some(technical.value.supportLevels) else None
  }

  function ResistancesOf(technical: Option<Indicators.IndicatorSet>): Option<seq<real>>
  {
    if technical.Some? then Some(technical.value.resistanceLevels) else None
  }

  /** major_*_1 .. major_*_3. */
  function MajorLevels(levels: Option<seq<real>>): (r: seq<Option<real>>)
    ensures |r| == 3 && forall k :: 0 <= k < 3 ==> r[k] == MajorLevel(levels, k)
  {
    [MajorLevel(levels, 0), MajorLevel(levels, 1), MajorLevel(levels, 2)]
  }

  /**
   * The three sorted levels an indicator set always carries fill all three
   * major fields, in ascending order; without indicators all three are None.
   */
  lemma MajorLevelsOfThreeSorted(levels: Option<seq<real>>)
    requires levels.Some? ==> |levels.value| == 3 && Sequences.Sorted(levels.value)
    ensures var m := MajorLevels(levels);
      && (levels.None? ==> m == [None, None, None])
      && (levels.Some? ==>
            m[0].Some? && m[1].Some? && m[2].Some? && m[0].value <= m[1].value <= m[2].value)
  {
    if levels.Some? {
      assert levels.value[0] <= levels.value[1];
      assert levels.value[1] <= levels.value[2];
    }
  }

  /** The record compiled once every stage has returned. */
  function Compile(symbol: string, m: MarketSnapshot, technical: Option<Indicators.IndicatorSet>,
                   prediction: PredictionModel.Prediction, targets: PriceTargets.Targets,
                   options: Option<OptionAnalysis.OptionAnalysisResult>, risk: RiskFactors.RiskAssessment): (r: StockRecord)
    requires m.currentPrice.Some?
    ensures r.symbol == symbol && r.currentPrice == m.currentPrice.value && r.marketStatus == m.marketStatus
    ensures r.prediction == prediction && r.targets == targets && r.options == options && r.risk == risk
    ensures |r.majorSupports| == 3 && |r.majorResistances| == 3
    ensures technical.None? ==> r.majorSupports == [None, None, None] && r.majorResistances == [None, None, None]
    ensures technical.Some? ==> forall k :: 0 <= k < 3 ==>
      (r.majorSupports[k].Some? <==> k < |technical.value.supportLevels|) &&
      (r.majorResistances[k].Some? <==> k < |technical.value.resistanceLevels|)
  {
    StockRecord(symbol, m.previousClose, m.currentPrice.value, m.volatilityPercent, prediction, targets,
                technical, m.volumeChangePercent, MajorLevels(SupportsOf(technical)),
                MajorLevels(ResistancesOf(technical)), options, risk, m.marketStatus)
  }

  /**
   * analyze_stock with the test of line 64 as written: `not` applied to the
   * Series that DataFrame.any() returns always raises (and `.any()` on None
   * raises too), so a truthy price always ends in the except clause.
   */
  function AnalyzeStockAsWritten(symbol: string, stages: Stages): (r: AnalysisResult)
    ensures r.Failed?
  {
    match stages.fetched
    case Threw(e) => Failed(ErrorAnalyzing(symbol, e))
    case Done(None) => Failed(FetchFailed(symbol))
    case Done(Some(m)) =>
      if !Truthy(m.currentPrice) then Failed(Insufficient(symbol))
      else if m.history.None? then Failed(ErrorAnalyzing(symbol, NoneAnyError))
      else Failed(ErrorAnalyzing(symbol, SeriesTruthError))
  }

  /** The history is missing or has no rows: what the test of line 64 evidently means. */
  predicate NoHistory(m: MarketSnapshot)
  {
    m.history.None? || m.history.value == []
  }

  /** The indicators returned and the prediction returned a non-empty dictionary: the targets stage runs. */
  predicate ReachesTargets(stages: Stages)
  {
    stages.indicators.Done? && stages.prediction.Done? && stages.prediction.value.Some?
  }

  /** The targets stage returned a non-empty dictionary as well: the options stage runs. */
  predicate ReachesOptions(stages: Stages)
  {
    ReachesTargets(stages) && stages.targets.Done? && stages.targets.value.Some?
  }

  /** The options stage returned as well: the risk stage runs. */
  predicate ReachesRisk(stages: Stages)
  {
    ReachesOptions(stages) && stages.options.Done?
  }

  /** Every stage after the price test has returned, with a non-empty prediction and targets. */
  predicate StagesSucceed(stages: Stages)
  {
    ReachesRisk(stages) && stages.risk.Done?
  }

  /**
   * The stages after the price test, run in order: the first that raises
   * gives "Error analyzing" with its message, an empty prediction or empty
   * targets give their own record, and otherwise the record is compiled.
   */
  function LaterStages(symbol: string, m: MarketSnapshot, stages: Stages): (r: AnalysisResult)
    requires m.currentPrice.Some?
    ensures r.Analyzed? <==> StagesSucceed(stages)
    ensures stages.indicators.Threw? ==> r == Failed(ErrorAnalyzing(symbol, stages.indicators.message))
    ensures stages.indicators.Done? && stages.prediction.Threw? ==>
      r == Failed(ErrorAnalyzing(symbol, stages.prediction.message))
    ensures stages.indicators.Done? && stages.prediction == Done(None) ==> r == Failed(PredictionFailed(symbol))
    ensures ReachesTargets(stages) && stages.targets.Threw? ==>
      r == Failed(ErrorAnalyzing(symbol, stages.targets.message))
    ensures ReachesTargets(stages) && stages.targets == Done(None) ==> r == Failed(TargetsFailed(symbol))
    ensures ReachesOptions(stages) && stages.options.Threw? ==>
      r == Failed(ErrorAnalyzing(symbol, stages.options.message))
    ensures ReachesRisk(stages) && stages.risk.Threw? ==> r == Failed(ErrorAnalyzing(symbol, stages.risk.message))
    ensures StagesSucceed(stages) ==>
      r == Analyzed(Compile(symbol, m, stages.indicators.value, stages.prediction.value.value,
                            stages.targets.value.value, stages.options.value, stages.risk.value))
  {
    if stages.indicators.Threw? then Failed(ErrorAnalyzing(symbol, stages.indicators.message))
    else if stages.prediction.Threw? then Failed(ErrorAnalyzing(symbol, stages.prediction.message))
    else if stages.prediction.value.None? then Failed(PredictionFailed(symbol))
    else if stages.targets.Threw? then Failed(ErrorAnalyzing(symbol, stages.targets.message))
    else if stages.targets.value.None? then Failed(TargetsFailed(symbol))
    else if stages.options.Threw? then Failed(ErrorAnalyzing(symbol, stages.options.message))
    else if stages.risk.Threw? then Failed(ErrorAnalyzing(symbol, stages.risk.message))
    else Analyzed(Compile(symbol, m, stages.indicators.value, stages.prediction.value.value,
                          stages.targets.value.value, stages.options.value, stages.risk.value))
  }

  /**
   * analyze_stock with the emptiness test of line 64 corrected: an error
   * record for a raising stage, a falsy market-data dictionary, a falsy price
   * or no history, an empty prediction or empty targets; otherwise the
   * compiled record.
   */
  function AnalyzeStock(symbol: string, stages: Stages): (r: AnalysisResult)
    ensures stages.fetched == Done(None) ==> r == Failed(FetchFailed(symbol))
    ensures stages.fetched.Threw? ==> r == Failed(ErrorAnalyzing(symbol, stages.fetched.message))
    ensures stages.fetched.Done? && stages.fetched.value.Some? &&
            (!Truthy(stages.fetched.value.value.currentPrice) || NoHistory(stages.fetched.value.value)) ==>
              r == Failed(Insufficient(symbol))
    ensures stages.fetched.Done? && stages.fetched.value.Some? && Truthy(stages.fetched.value.value.currentPrice) &&
            !NoHistory(stages.fetched.value.value) ==>
              r == LaterStages(symbol, stages.fetched.value.value, stages)
    ensures r.Analyzed? <==>
      (stages.fetched.Done? && stages.fetched.value.Some? && Truthy(stages.fetched.value.value.currentPrice) &&
       !NoHistory(stages.fetched.value.value) && StagesSucceed(stages))
    ensures r.Analyzed? ==>
      && r.record.symbol == symbol
      && Truthy(Some(r.record.currentPrice))
      && r.record.prediction == stages.prediction.value.value
      && r.record.targets == stages.targets.value.value
      && r.record.majorSupports == MajorLevels(SupportsOf(stages.indicators.value))
      && r.record.majorResistances == MajorLevels(ResistancesOf(stages.indicators.value))
  {
    match stages.fetched
    case Threw(e) => Failed(ErrorAnalyzing(symbol, e))
    case Done(None) => Failed(FetchFailed(symbol))
    case Done(Some(m)) =>
      if !Truthy(m.currentPrice) || NoHistory(m) then Failed(Insufficient(symbol))
      else LaterStages(symbol, m, stages)
  }

  /**
   * Line 64 as written rejects every symbol whose stages would all succeed:
   * the corrected analysis compiles a record where the written one returns
   * the Series truth-value error.
   */
  lemma AsWrittenRejectsEverySuccess(symbol: string, stages: Stages)
    requires AnalyzeStock(symbol, stages).Analyzed?
    ensures AnalyzeStockAsWritten(symbol, stages) == Failed(ErrorAnalyzing(symbol, SeriesTruthError))
  {
  }

  /** Position i holds the last occurrence of its symbol. */
  predicate LastOccurrence(symbols: seq<string>, i: nat)
    requires i < |symbols|
  {
    forall j :: i < j < |symbols| ==> symbols[j] != symbols[i]
  }

  /**
   * analyze_multiple_stocks: one entry per distinct symbol, a later
   * occurrence overwriting an earlier one. outcomes[i] is what the stages
   * give when symbols[i] is analysed.
   */
  method AnalyzeMultipleStocks(symbols: seq<string>, outcomes: seq<Stages>)
    returns (results: map<string, AnalysisResult>)
    requires |outcomes| == |symbols|
    ensures forall s :: s in results <==> s in symbols
    ensures forall i :: 0 <= i < |symbols| && LastOccurrence(symbols, i) ==>
      results[symbols[i]] == AnalyzeStock(symbols[i], outcomes[i])
  {
    ghost var expected := seq(|symbols|, i requires 0 <= i < |symbols| => AnalyzeStock(symbols[i], outcomes[i]));
    results := map[];
    var k := 0;
    while k < |symbols|
      invariant 0 <= k <= |symbols|
      invariant LatestUpTo(symbols, expected, results, k)
    {
      var result := AnalyzeStock(symbols[k], outcomes[k]);
      assert result == expected[k];
      LatestStep(symbols, expected, results, k);
      results := results[symbols[k] := result];
      k := k + 1;
    }
    assert symbols[..k] == symbols;
    forall i | 0 <= i < |symbols| && LastOccurrence(symbols, i)
      ensures results[symbols[i]] == AnalyzeStock(symbols[i], outcomes[i])
    {
      assert expected[i] == AnalyzeStock(symbols[i], outcomes[i]);
    }
  }

  /**
   * After k steps of the loop, results holds the symbols seen so far, each
   * mapped to the value of its latest occurrence.
   */
  ghost predicate LatestUpTo<V>(symbols: seq<string>, vals: seq<V>, results: map<string, V>, k: nat)
    requires k <= |symbols| == |vals|
  {
    && (forall s :: s in results <==> s in symbols[..k])
    && forall i :: 0 <= i < k && (forall j :: i < j < k ==> symbols[j] != symbols[i]) ==>
         symbols[i] in results && results[symbols[i]] == vals[i]
  }

  lemma LatestStep<V>(symbols: seq<string>, vals: seq<V>, results: map<string, V>, k: nat)
    requires k < |symbols| == |vals| && LatestUpTo(symbols, vals, results, k)
    ensures LatestUpTo(symbols, vals, results[symbols[k] := vals[k]], k + 1)
  {
    assert symbols[..k + 1] == symbols[..k] + [symbols[k]];
  }
}
