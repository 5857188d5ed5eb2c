// core/analysis/technical_indicators.py: the column check, the 50-row guard,
// _normalize, the momentum and trend-score compositions over the values
// pandas-ta computes, the local-extrema support/resistance scan with its
// padding and slicing, and the volume change against its moving average.
module Indicators {
  import opened Common
  import opened Sequences

  const RequiredColumns: seq<string> := ["open", "high", "low", "close", "volume"]
  const MinimumRows: nat := 50

  /** A DataFrame as handed to the constructor: its column names and its rows. */
  datatype Table = Table(columns: set<string>, rows: seq<Candle>)

  /** The constructor: the data is dropped (None) when any OHLCV column is missing. */
  function LoadData(table: Option<Table>): (r: Option<seq<Candle>>)
    ensures r.Some? <==> table.Some? && forall c :: c in RequiredColumns ==> c in table.value.columns
    ensures r.Some? ==> r.value == table.value.rows
  {
    if table.None? then None
    else if forall c :: c in RequiredColumns ==> c in table.value.columns then Some(table.value.rows)
    else None
  }

  // ---------------------------------------------------------------- normalisation

  /** _normalize: 0.5 for None, 0 at or below min, 1 at or above max, linear between. */
  function Normalize(value: Option<real>, minVal: real, maxVal: real): (r: real)
    ensures 0.0 <= r <= 1.0
    ensures value.None? ==> r == 0.5
    ensures value.Some? && value.value <= minVal ==> r == 0.0
    ensures value.Some? && minVal < value.value && maxVal <= value.value ==> r == 1.0
    ensures value.Some? && minVal < value.value < maxVal ==> r * (maxVal - minVal) == value.value - minVal
  {
    if value.None? then 0.5
    else if value.value <= minVal then 0.0
    else if value.value >= maxVal then 1.0
    else
      var a := value.value - minVal;
      var d := maxVal - minVal;
      DivisionInUnitInterval(a, d);
      a / d
  }

  lemma DivisionInUnitInterval(a: real, d: real)
    requires 0.0 < a < d
    ensures 0.0 < a / d < 1.0
  {
    var q := a / d;
    assert q * d == a;
    if q >= 1.0 {
      assert false;
    }
  }

  lemma NormalizeMonotone(v: real, w: real, minVal: real, maxVal: real)
    requires minVal < maxVal
    requires v <= w
    ensures Normalize(Some(v), minVal, maxVal) <= Normalize(Some(w), minVal, maxVal)
  {
    if minVal < v && w < maxVal {
      var d := maxVal - minVal;
      assert (v - minVal) / d <= (w - minVal) / d by {
        assert (w - minVal) / d - (v - minVal) / d == (w - v) / d;
      }
    }
  }

  // ---------------------------------------------------------------- momentum

  /** 0.3 / 0.3 / 0.2 / 0.2 of the four normalised parts. */
  function MomentumBlend(roc: real, vsSma20: real, vsSma50: real, rsi: real): real
  {
    0.3 * Normalize(Some(roc), -10.0, 10.0) + 0.3 * Normalize(Some(vsSma20), -0.1, 0.1) +
    0.2 * Normalize(Some(vsSma50), -0.2, 0.2) + 0.2 * Normalize(Some(rsi), 30.0, 70.0)
  }

  /**
   * calculate_momentum_score from the latest rate of change, close, 20- and
   * 50-period averages and 14-period RSI: the blend, clamped to [0, 1].
   */
  function MomentumScore(roc: real, close: real, sma20: real, sma50: real, rsi: real): (r: real)
    requires sma20 > 0.0 && sma50 > 0.0
    ensures 0.0 <= r <= 1.0
    ensures r == MomentumBlend(roc, close / sma20 - 1.0, close / sma50 - 1.0, rsi)
  {
    Clamp(0.0, 1.0, MomentumBlend(roc, close / sma20 - 1.0, close / sma50 - 1.0, rsi))
  }

  /** The clamp never bites: the weights sum to 1 over parts in [0, 1]. */
  lemma MomentumBlendInUnitInterval(roc: real, vsSma20: real, vsSma50: real, rsi: real)
    ensures 0.0 <= MomentumBlend(roc, vsSma20, vsSma50, rsi) <= 1.0
  {
  }

  /** A close at or above twice both averages, a strong ROC and an RSI of 70 or more give the maximum. */
  lemma MomentumSaturates(roc: real, close: real, sma: real, rsi: real)
    requires sma > 0.0 && roc >= 10.0 && rsi >= 70.0 && close >= 2.0 * sma
    ensures MomentumScore(roc, close, sma, sma, rsi) == 1.0
  {
    assert close / sma >= 2.0;
  }

  // ---------------------------------------------------------------- trend score

  /** The moving-average regime: the first matching branch of the chain. */
  function MaScore(price: real, sma20: real, sma50: real, sma200: real): (r: real)
    ensures r in {0.0, 25.0, 40.0, 50.0, 60.0, 75.0, 100.0}
    ensures price > sma20 > sma50 > sma200 ==> r == 100.0
    ensures price < sma20 < sma50 < sma200 ==> r == 0.0
    ensures price > sma20 ==> r >= 60.0
    ensures price < sma20 ==> r <= 40.0
    ensures price == sma20 <==> r == 50.0
  {
    if price > sma20 && sma20 > sma50 && sma50 > sma200 then 100.0
    else if price > sma20 && price > sma50 then 75.0
    else if price > sma20 then 60.0
    else if price < sma20 && sma20 < sma50 && sma50 < sma200 then 0.0
    else if price < sma20 && price < sma50 then 25.0
    else if price < sma20 then 40.0
    else 50.0
  }

  /** Volume above its 20-day average confirms (100) or opposes (0) the histogram; otherwise 60. */
  function VolumeScore(volume: real, volumeMa: real, hist: real): (r: real)
    ensures r in {0.0, 60.0, 100.0}
    ensures r == 100.0 <==> volume > volumeMa && hist > 0.0
    ensures r == 0.0 <==> volume > volumeMa && hist < 0.0
  {
    if volume > volumeMa && hist > 0.0 then 100.0
    else if volume > volumeMa && hist < 0.0 then 0.0
    else 60.0
  }

  /** The latest values calculate_technical_trend_score reads. */
  datatype TrendInputs = TrendInputs(
    rsi: Option<real>,       // calculate_rsi, None when pandas-ta failed
    hist: Option<real>,      // the MACD histogram of calculate_macd
    adx: Option<real>,       // calculate_adx
    price: real, sma20: real, sma50: real,
    sma200: Option<real>,    // None when pandas-ta's sma has fewer than 200 closes to average
    volume: real, volumeMa: real)

  function TrendBlend(rsiScore: real, macdUp: real, adxScore: real, maScore: real, volumeScore: real): real
  {
    0.2 * rsiScore + 0.2 * macdUp + 0.2 * adxScore + 0.3 * maScore + 0.1 * volumeScore
  }

  /**
   * calculate_technical_trend_score: a missing RSI counts as neutral, while a
   * missing histogram, ADX or 200-period average raises inside the try and
   * gives None. The blend is rounded with round(x, 0), half to even.
   */
  function TrendScore(t: TrendInputs): (r: Option<real>)
    ensures r.None? <==> t.hist.None? || t.adx.None? || t.sma200.None?
    ensures r.Some? && t.adx.value >= 0.0 ==> 0.0 <= r.value <= 100.0 && IsWhole(r.value)
    ensures r.Some? ==> Abs(r.value - TrendBlend(Normalize(t.rsi, 30.0, 70.0) * 100.0,
                                                  if t.hist.value > 0.0 then 100.0 else 0.0,
                                                  MinReal(100.0, t.adx.value),
                                                  MaScore(t.price, t.sma20, t.sma50, t.sma200.value),
                                                  VolumeScore(t.volume, t.volumeMa, t.hist.value))) <= 0.5
  {
    if t.hist.None? || t.adx.None? || t.sma200.None? then None
    else
      var blend := TrendBlend(Normalize(t.rsi, 30.0, 70.0) * 100.0,
                              if t.hist.value > 0.0 then 100.0 else 0.0,
                              MinReal(100.0, t.adx.value),
                              MaScore(t.price, t.sma20, t.sma50, t.sma200.value),
                              VolumeScore(t.volume, t.volumeMa, t.hist.value));
      Some(RoundHalfEven(blend) as real)
  }

  /** Every part is in [0, 100] once adx >= 0, and the weights sum to 1. */
  lemma TrendBlendBounded(rsiScore: real, macdUp: real, adxScore: real, maScore: real, volumeScore: real)
    requires 0.0 <= rsiScore <= 100.0 && 0.0 <= macdUp <= 100.0 && 0.0 <= adxScore <= 100.0
    requires 0.0 <= maScore <= 100.0 && 0.0 <= volumeScore <= 100.0
    ensures 0.0 <= TrendBlend(rsiScore, macdUp, adxScore, maScore, volumeScore) <= 100.0
  {
  }

  // ---------------------------------------------------------------- support and resistance

  /** values[i] is no greater (lows) or no smaller (highs) than both values j places away. */
  predicate DominatesAt(values: seq<real>, i: nat, j: nat, lows: bool)
    requires j <= i && i + j < |values|
  {
    if lows then values[i] <= values[i - j] && values[i] <= values[i + j]
    else values[i] >= values[i - j] && values[i] >= values[i + j]
  }

  /** values[i] is a local low (or high) against every value within `window` on both sides. */
  predicate IsExtremum(values: seq<real>, i: nat, window: nat, lows: bool)
    requires window <= i && i + window < |values|
  {
    forall j :: 1 <= j <= window ==> DominatesAt(values, i, j, lows)
  }

  /** The extrema found among the indices window .. n-1, in index order. */
  function ExtremaBelow(values: seq<real>, window: nat, lows: bool, n: nat): (r: seq<real>)
    ensures |r| <= n
    ensures forall x :: x in r ==> x in values
  {
    if n <= window then []
    else
      var i := n - 1;
      var rest := ExtremaBelow(values, window, lows, n - 1);
      if i + window < |values| && IsExtremum(values, i, window, lows) then rest + [values[i]] else rest
  }

  /** The scan of range(window, len - window). */
  function Extrema(values: seq<real>, window: nat, lows: bool): seq<real>
  {
    ExtremaBelow(values, window, lows, if |values| >= window then |values| - window else 0)
  }

  /** Index i lies inside the scanned range and holds a local extremum. */
  predicate ExtremumAt(values: seq<real>, i: nat, window: nat, lows: bool)
  {
    window <= i && i + window < |values| && IsExtremum(values, i, window, lows)
  }

  /** A level is reported below n exactly when some extremum index under n holds it. */
  lemma {:induction false} ExtremaBelowMembers(values: seq<real>, window: nat, lows: bool, n: nat)
    ensures forall x :: x in ExtremaBelow(values, window, lows, n) <==>
      exists i :: 0 <= i < n && ExtremumAt(values, i, window, lows) && values[i] == x
  {
    if n > window {
      ExtremaBelowMembers(values, window, lows, n - 1);
    }
  }

  /** The scan reports exactly the values at local extrema, the levels the source collects. */
  lemma ExtremaAreLocalExtrema(values: seq<real>, window: nat, lows: bool)
    ensures forall x :: x in Extrema(values, window, lows) <==>
      exists i :: 0 <= i < |values| && ExtremumAt(values, i, window, lows) && values[i] == x
  {
    var n := if |values| >= window then |values| - window else 0;
    ExtremaBelowMembers(values, window, lows, n);
    forall i | 0 <= i < |values| && ExtremumAt(values, i, window, lows)
      ensures i < n
    {
    }
  }

  /** The two for-loops of calculate_support_resistance (one call per list). */
  method ScanExtrema(values: seq<real>, window: nat, lows: bool) returns (levels: seq<real>)
    ensures levels == Extrema(values, window, lows)
  {
    var hi := if |values| >= window then |values| - window else 0;
    levels := [];
    var i := window;
    while i < hi
      invariant window <= i
      invariant i <= hi || i == window
      invariant levels == ExtremaBelow(values, window, lows, i)
    {
      if IsExtremum(values, i, window, lows) {
        levels := levels + [values[i]];
      }
      i := i + 1;
    }
  }

  /** The k-th percentage level: 2k% below the price for supports, 2k% above for resistances. */
  function Candidate(price: real, k: nat, below: bool): real
  {
    if below then price * (1.0 - 0.02 * k as real) else price * (1.0 + 0.02 * k as real)
  }

  /** Each step moves the candidate 2% of the price further from it. */
  lemma CandidateStep(price: real, k: nat, below: bool)
    ensures below ==> Candidate(price, k + 1, below) == Candidate(price, k, below) - 0.02 * price
    ensures !below ==> Candidate(price, k + 1, below) == Candidate(price, k, below) + 0.02 * price
  {
  }

  /** Every candidate lies on its side of a positive price. */
  lemma CandidateSide(price: real, k: nat, below: bool)
    requires price > 0.0 && k >= 1
    ensures below ==> Candidate(price, k, below) < price
    ensures !below ==> Candidate(price, k, below) > price
    decreases k
  {
    if k > 1 {
      CandidateSide(price, k - 1, below);
      CandidateStep(price, k - 1, below);
    }
  }

  /** A set that misses one element of a superset is smaller than it. */
  lemma StrictSubsetSmaller(a: set<real>, b: set<real>, x: real)
    requires a <= b && x in b && x !in a
    ensures |a| < |b|
  {
    assert b == a + (b - a);
    assert a * (b - a) == {};
    assert x in b - a;
  }

  /** Skipping a candidate already present shrinks the set of levels beyond the candidate. */
  lemma BeyondShrinks(levels: seq<real>, price: real, k: nat, below: bool)
    requires price > 0.0
    requires Candidate(price, k, below) in levels
    ensures |Beyond(levels, Candidate(price, k + 1, below), below)| < |Beyond(levels, Candidate(price, k, below), below)|
  {
    var c := Candidate(price, k, below);
    CandidateStep(price, k, below);
    var a := Beyond(levels, Candidate(price, k + 1, below), below);
    var b := Beyond(levels, c, below);
    assert c in b && c !in a;
    StrictSubsetSmaller(a, b, c);
  }

  /** The levels on the far side of c, which shrink as the candidates move away from the price. */
  function Beyond(levels: seq<real>, c: real, below: bool): set<real>
  {
    set x | x in levels && (if below then x <= c else x >= c)
  }

  /** One pass of the padding while-loop exactly as the source writes it. */
  function PadStepAsWritten(levels: seq<real>, price: real, below: bool): seq<real>
  {
    var c := Candidate(price, |levels| + 1, below);
    if c in levels then levels else levels + [c]
  }

  /**
   * The padding loop as written cannot finish when a detected level equals
   * the next candidate: a close of 100 with one detected support at 96 has
   * candidate 100 * (1 - 0.02 * 2) = 96, so the pass changes nothing and the
   * list stays shorter than 3 forever.
   */
  lemma PaddingAsWrittenStalls()
    ensures PadStepAsWritten([96.0], 100.0, true) == [96.0]
    ensures |PadStepAsWritten([96.0], 100.0, true)| < 3
  {
  }

  /**
   * The corrected padding: the percentage step k advances on every pass, so
   * a candidate already present is skipped instead of retried forever. It
   * yields the same candidates as the source whenever no candidate collides.
   */
  function Pad(levels: seq<real>, price: real, k: nat, below: bool): (r: seq<real>)
    requires price > 0.0 && k >= 1
    ensures |levels| >= 3 ==> r == levels
    ensures |r| == if |levels| >= 3 then |levels| else 3
    ensures r[..|levels|] == levels
    ensures forall i :: |levels| <= i < |r| ==> r[i] !in r[..i]
    ensures forall i :: |levels| <= i < |r| ==> if below then r[i] < price else r[i] > price
    decreases 3 - |levels|, |Beyond(levels, Candidate(price, k, below), below)|
  {
    if |levels| >= 3 then levels
    else
      var c := Candidate(price, k, below);
      if c in levels then
        BeyondShrinks(levels, price, k, below);
        Pad(levels, price, k + 1, below)
      else
        CandidateSide(price, k, below);
        var r := Pad(levels + [c], price, k + 1, below);
        AppendKeepsPadding(levels, c, r, price, below);
        r
  }

  /** Padding levels + [c] with fresh levels on the right side also pads levels. */
  lemma AppendKeepsPadding(levels: seq<real>, c: real, r: seq<real>, price: real, below: bool)
    requires c !in levels && (if below then c < price else c > price)
    requires |levels| < |r| && r[..|levels| + 1] == levels + [c]
    requires forall i :: |levels| + 1 <= i < |r| ==> r[i] !in r[..i]
    requires forall i :: |levels| + 1 <= i < |r| ==> if below then r[i] < price else r[i] > price
    ensures r[..|levels|] == levels
    ensures forall i :: |levels| <= i < |r| ==> r[i] !in r[..i]
    ensures forall i :: |levels| <= i < |r| ==> if below then r[i] < price else r[i] > price
  {
    assert r[..|levels|] == r[..|levels| + 1][..|levels|];
    assert r[|levels|] == c;
  }

  /** The padding while-loop, corrected as above. */
  method PadLevels(levels: seq<real>, price: real, below: bool) returns (padded: seq<real>)
    requires price > 0.0
    ensures padded == Pad(levels, price, |levels| + 1, below)
  {
    padded := levels;
    var k := |levels| + 1;
    while |padded| < 3
      invariant k >= 1
      invariant Pad(padded, price, k, below) == Pad(levels, price, |levels| + 1, below)
      decreases 3 - |padded|, |Beyond(padded, Candidate(price, k, below), below)|
    {
      var c := Candidate(price, k, below);
      if c !in padded {
        padded := padded + [c];
      } else {
        BeyondShrinks(padded, price, k, below);
      }
      k := k + 1;
    }
  }

  datatype Levels = Levels(supports: seq<real>, resistances: seq<real>)

  function LowsOf(rows: seq<Candle>): (r: seq<real>)
    ensures |r| == |rows| && forall i :: 0 <= i < |rows| ==> r[i] == rows[i].low
  {
    seq(|rows|, i requires 0 <= i < |rows| => rows[i].low)
  }

  function HighsOf(rows: seq<Candle>): (r: seq<real>)
    ensures |r| == |rows| && forall i :: 0 <= i < |rows| ==> r[i] == rows[i].high
  {
    seq(|rows|, i requires 0 <= i < |rows| => rows[i].high)
  }

  /** The last `lookback` rows, as iloc[-lookback:] takes them (all rows when lookback is 0). */
  function Recent(rows: seq<Candle>, lookback: nat): (r: seq<Candle>)
    requires lookback <= |rows|
  {
    if lookback == 0 then rows else rows[|rows| - lookback..]
  }

  /** The corrected padding needs a positive latest close. */
  predicate LastClosePositive(data: Option<seq<Candle>>)
  {
    data.None? || data.value == [] || data.value[|data.value| - 1].close > 0.0
  }

  /** The detected supports of the recent rows, padded below the latest close. */
  function PaddedSupports(rows: seq<Candle>, lookback: nat, window: nat): (r: seq<real>)
    requires lookback <= |rows| && rows != [] && rows[|rows| - 1].close > 0.0
    ensures |r| >= 3
  {
    var found := Extrema(LowsOf(Recent(rows, lookback)), window, true);
    Pad(found, rows[|rows| - 1].close, |found| + 1, true)
  }

  /** The detected resistances of the recent rows, padded above the latest close. */
  function PaddedResistances(rows: seq<Candle>, lookback: nat, window: nat): (r: seq<real>)
    requires lookback <= |rows| && rows != [] && rows[|rows| - 1].close > 0.0
    ensures |r| >= 3
  {
    var found := Extrema(HighsOf(Recent(rows, lookback)), window, false);
    Pad(found, rows[|rows| - 1].close, |found| + 1, false)
  }

  /**
   * calculate_support_resistance: fewer rows than `lookback` give two empty
   * lists (so does an empty frame, whose last close raises); otherwise the
   * three smallest supports and the three largest resistances, ascending.
   */
  function SupportResistance(data: Option<seq<Candle>>, lookback: nat, window: nat): (r: Levels)
    requires LastClosePositive(data)
    ensures data.None? || |data.value| < lookback || data.value == [] ==> r == Levels([], [])
  {
    if data.None? || |data.value| < lookback || data.value == [] then Levels([], [])
    else
      var p := PaddedSupports(data.value, lookback, window);
      var q := PaddedResistances(data.value, lookback, window);
      var s := SortAscending(p);
      var t := SortAscending(q);
      assert |s| == |p| >= 3 && |t| == |q| >= 3;
      Levels(s[..3], t[|t| - 3..])
  }

  /** The scan, padding and slicing of calculate_support_resistance. */
  method CalculateSupportResistance(data: Option<seq<Candle>>, lookback: nat, window: nat) returns (levels: Levels)
    requires LastClosePositive(data)
    ensures levels == SupportResistance(data, lookback, window)
  {
    if data.None? || |data.value| < lookback || data.value == [] {
      return Levels([], []);
    }
    var recent := Recent(data.value, lookback);
    var supports := ScanExtrema(LowsOf(recent), window, true);
    var resistances := ScanExtrema(HighsOf(recent), window, false);
    var price := data.value[|data.value| - 1].close;
    supports := PadLevels(supports, price, true);
    resistances := PadLevels(resistances, price, false);
    assert supports == PaddedSupports(data.value, lookback, window);
    assert resistances == PaddedResistances(data.value, lookback, window);
    var s := SortAscending(supports);
    var t := SortAscending(resistances);
    levels := Levels(s[..3], t[|t| - 3..]);
  }

  /**
   * Whenever there is data, the supports are three levels in ascending order:
   * the three smallest of the padded supports, none of the others below them.
   */
  lemma SupportsAreSmallestThree(data: Option<seq<Candle>>, lookback: nat, window: nat)
    requires LastClosePositive(data)
    requires data.Some? && |data.value| >= lookback && data.value != []
    ensures SmallestK(SupportResistance(data, lookback, window).supports, PaddedSupports(data.value, lookback, window), 3)
  {
    var p := PaddedSupports(data.value, lookback, window);
    assert SupportResistance(data, lookback, window).supports == SortAscending(p)[..3];
    SortedPrefixSmallest(p, 3);
  }

  /**
   * Whenever there is data, the resistances are three levels in ascending
   * order: the three largest of the padded resistances, none of the others above them.
   */
  lemma ResistancesAreLargestThree(data: Option<seq<Candle>>, lookback: nat, window: nat)
    requires LastClosePositive(data)
    requires data.Some? && |data.value| >= lookback && data.value != []
    ensures LargestK(SupportResistance(data, lookback, window).resistances, PaddedResistances(data.value, lookback, window), 3)
  {
    var q := PaddedResistances(data.value, lookback, window);
    assert SupportResistance(data, lookback, window).resistances == SortAscending(q)[|q| - 3..];
    SortedSuffixLargest(q, 3);
  }

  // ---------------------------------------------------------------- volume change

  /**
   * calculate_volume_change: the percentage of the latest volume over its
   * moving average, 0 when that average is 0, None without data.
   */
  function VolumeChangePercent(hasData: bool, current: real, average: real): (r: Option<real>)
    ensures r.None? <==> !hasData
    ensures hasData && average == 0.0 ==> r == Some(0.0)
    ensures hasData && average != 0.0 ==> average + average * r.value / 100.0 == current
  {
    if !hasData then None
    else if average == 0.0 then Some(0.0)
    else Some((current - average) / average * 100.0)
  }

  // ---------------------------------------------------------------- all indicators

  /** Closes that ta.sma(close, length=200) needs before it returns a series rather than None. */
  const SlowAverageLength := 200

  /**
   * The latest pandas-ta outputs calculate_all_indicators combines. sma200 is
   * the value the 200-period average would have; it exists only for a history
   * of at least SlowAverageLength rows.
   */
  datatype LibraryValues = LibraryValues(
    rsi: Option<real>, macd: Option<real>, macdSignal: Option<real>, macdHist: Option<real>,
    adx: Option<real>, roc: real, rsi14: real,
    sma20: real, sma50: real, sma200: real, volumeSma20: real)

  /** The dictionary calculate_all_indicators returns. */
  datatype IndicatorSet = IndicatorSet(
    rsi: Option<real>, macd: Option<real>, macdSignal: Option<real>, macdHistogram: Option<real>,
    adx: Option<real>, momentumScore: real, technicalTrendScore: Option<real>,
    volumeChangePercent: Option<real>, supportLevels: seq<real>, resistanceLevels: seq<real>)

  /** calculate_all_indicators: {} (None) for missing data or fewer than 50 rows. */
  function CalculateAllIndicators(data: Option<seq<Candle>>, lib: LibraryValues): (r: Option<IndicatorSet>)
    requires LastClosePositive(data)
    requires lib.sma20 > 0.0 && lib.sma50 > 0.0
    ensures r.None? <==> data.None? || |data.value| < MinimumRows
    ensures r.Some? ==> 0.0 <= r.value.momentumScore <= 1.0
    ensures r.Some? ==> |r.value.supportLevels| == 3 && |r.value.resistanceLevels| == 3
    ensures r.Some? ==> Sorted(r.value.supportLevels) && Sorted(r.value.resistanceLevels)
    ensures r.Some? ==> (r.value.technicalTrendScore.Some? <==>
                          lib.macdHist.Some? && lib.adx.Some? && |data.value| >= SlowAverageLength)
  {
    if data.None? || |data.value| < MinimumRows then None
    else
      var rows := data.value;
      var last := rows[|rows| - 1];
      SupportsAreSmallestThree(data, 30, 5);
      ResistancesAreLargestThree(data, 30, 5);
      var levels := SupportResistance(data, 30, 5);
      var sma200 := if |rows| < SlowAverageLength then None else Some(lib.sma200);
      Some(IndicatorSet(
        lib.rsi, lib.macd, lib.macdSignal, lib.macdHist, lib.adx,
        MomentumScore(lib.roc, last.close, lib.sma20, lib.sma50, lib.rsi14),
        TrendScore(TrendInputs(lib.rsi, lib.macdHist, lib.adx, last.close,
                               lib.sma20, lib.sma50, sma200, last.volume, lib.volumeSma20)),
        VolumeChangePercent(true, last.volume, lib.volumeSma20),
        levels.supports, levels.resistances))
  }
}
