# trade-analysis-bot: a verified model of the signal engine

trade-analysis-bot analyses NSE stocks with data from Zerodha Kite. For each
symbol it does the following:

- fetches the price history through a rate-limited client;
- computes technical indicators and local support and resistance levels;
- turns them into an UP/DOWN prediction with a confidence;
- chooses a price target and a stop loss;
- chooses an option strike, max pain and estimated option prices;
- sizes a position.

A command-line driver reads a symbols file, slices it with `--skip` and
`--limit`, and runs the analysis with a per-symbol retry loop.

This Dafny project models that core, one module per source file:

| module | source file |
|---|---|
| `Validators` | `utils/validators.py` |
| `Helpers` | `utils/helpers.py` |
| `Settings` | the market-hours constants of `config/settings.py` |
| `MarketData` | `core/data/market_data.py` |
| `Indicators` | `core/analysis/technical_indicators.py` |
| `PredictionModel` | `core/analysis/model.py` |
| `PriceTargets` | `core/analysis/price_targets.py` |
| `RiskFactors` | `core/analysis/risk_factors.py` |
| `OptionAnalysis` | `core/analysis/option_analysis.py` |
| `StockAnalyzer` | `core/analysis/stock_analyzer.py` |
| `Cli` | `main.py` |

Three modules hold the parts of the Python runtime that the code relies on:

- `Common`: Option; `abs`, `max` and `min` clamping; `round()` to an integer (round half to even); `int()` (truncation toward zero).
- `Text`: character classes, ASCII `lower()`, `in` on strings, `strip()`, `split()`, `splitlines()` and `str(int)`.
- `Sequences`: `sorted()`.

The code keeps its own form:

- Pure code becomes functions and lemmas.
- Loops become methods with loop invariants, each proved against a specification: the max-pain scan against the `IsMaxPain` predicate (a strike of least total loss, the first such), the other loops equal to a specification function:
  - the extrema scan and the padding loops;
  - the strike-digit scan;
  - the token lookup;
  - the symbols-file loop;
  - the per-symbol retry loop.
- The rate-limited fetcher is a class. Its fields are the class-wide last-request time, the pickle cache and the in-memory cache.

Prices are `real`, and `round(x, 2)` is left out throughout.

## Model

| member | source | states |
|---|---|---|
| `Validators.ValidateSymbol` | utils/validators.py:20-27 | true exactly when the symbol, or the symbol minus one trailing newline (what `$` admits), is 2 to 20 characters from A-Z0-9; the empty string is rejected |
| `Validators.ValidateSymbolCharacterisation` | utils/validators.py:20-27 | the same as a direct two-case statement; any valid word followed by "\n" is also accepted |
| `Validators.ValidateSymbolRejectsLowerCase` | utils/validators.py:25-27 | a symbol containing a lower-case letter is never valid |
| `Validators.ValidateSymbolsList` | utils/validators.py:40-49 | the result holds exactly the valid input symbols, all valid and drawn from the input; an all-valid list comes back unchanged |
| `Validators.ValidateSymbolsListKeepsOrder` | utils/validators.py:46-49 | the result is an order-preserving subsequence of the input |
| `Validators.ValidateSymbolsListCounts` | utils/validators.py:46-49 | a valid symbol is kept exactly as many times as it occurs in the input; an invalid one never |
| `Validators.ValidateSymbolsListAppend` | utils/validators.py:46-49 | the filter distributes over concatenation, so kept symbols keep their order and their duplicates |
| `Validators.ValidateSymbolsListSingle` | utils/validators.py:46-49 | a one-symbol list is kept when that symbol is valid and dropped otherwise |
| `Validators.ValidateApiKey` | utils/validators.py:83-90 | true exactly when the key, or the key minus one trailing newline, is 16 ASCII letters or digits, so the key has length 16 or 17 |
| `Validators.ValidateDateRange` | utils/validators.py:64-70 | true exactly when both strings are shaped dddd-dd-dd (with the trailing-newline allowance) and the start is lexicographically at most the end |
| `Validators.DateOrderIsFieldOrder` | utils/validators.py:68-70 | on dddd-dd-dd words, lexicographic order equals (year, month, day) order |
| `Validators.DateRangeAcceptsImpossibleDates` | utils/validators.py:64-70 | "2024-13-99" passes, because there is no calendar check |
| `Validators.ValidateNumericRange` | utils/validators.py:106-109 | false for None, otherwise min <= value <= max inclusive |
| `Validators.AllRequiredPresent` | utils/validators.py:128-132 | true exactly when every required field is a key of the data |
| `Validators.AllTypesMatch` | utils/validators.py:134-154 | true exactly when no present, non-None field has a value of the wrong mapped type |
| `Validators.ValidateJsonSchema` | utils/validators.py:128-154 | false exactly when a required field is absent or a listed property has the wrong type |
| `Validators.JsonSchemaQuirks` | utils/validators.py:140-154 | a bool passes as "integer"; None and absent fields are not type-checked; a missing required field fails |
| `Validators.FindNoCase` | utils/validators.py:174 | the first case-insensitive occurrence at or after a position, or None when there is none |
| `Validators.FindChar` | utils/validators.py:175 | the first occurrence of a character at or after a position, or None |
| `Validators.TagMatchEnd` | utils/validators.py:175 | the lazy match of `<.*?>` starts with '<', ends at the first '>' and spans no newline |
| `Validators.RemoveScripts` | utils/validators.py:174 | never longer than the input and adds no character; text without '<' is unchanged |
| `Validators.StripTags` | utils/validators.py:175 | never longer than the input and adds no character; text without '<' is unchanged |
| `Validators.EscapeHtml` | utils/validators.py:178-184 | no '<', '>', '"' or '\'' is left after the five replacements |
| `Validators.SanitizeInput` | utils/validators.py:170-186 | "" for "", and the output never contains '<', '>', '"' or "'" |
| `Validators.EscapeHtmlIsEscapeEach` | utils/validators.py:178-184 | the five chained replacements, '&' first, equal escaping each character on its own |
| `Validators.UnescapeEscapeEach` | utils/validators.py:178-184 | the escaping is undone by the independently defined HTML unescape |
| `Validators.SanitizeInputRoundTrip` | utils/validators.py:170-186 | unescaping the result gives back the input with script blocks and tags removed |
| `Validators.SanitizeExamples` | utils/validators.py:174-175 | a script block disappears completely; a tag disappears and its text is kept |
| `Helpers.IsMarketOpen` | utils/helpers.py:14-38 | closed on weekdays above 4; otherwise open exactly when 09:15:00 <= now <= 15:30:00, both ends inclusive |
| `Helpers.MarketHoursBoundaries` | utils/helpers.py:28-38 | the open and close instants are inside the session; one microsecond outside them, and Saturday, are not |
| `Helpers.FormatCurrency` | utils/helpers.py:51-54 | "N/A" for None, otherwise the rupee sign and the rendering |
| `Helpers.FormatPercentage` | utils/helpers.py:67-70 | "N/A" for None, otherwise the rendering and "%" |
| `Helpers.FormatNumber` | utils/helpers.py:84-88 | "N/A" for None, otherwise the rendering |
| `Helpers.FormatNotAvailableOnlyForNone` | utils/helpers.py:51-88 | the currency and percentage texts are "N/A" exactly for None, and so is the number text whenever the rendering is a fixed-point number (digits, ',', '.', '-') |
| `Helpers.SafeDivide` | utils/helpers.py:102-105 | None exactly when the denominator is 0, otherwise the quotient (r * d == n) |
| `Helpers.StrikeText` | utils/helpers.py:122-125 | a whole strike prints as str(int(strike)); any other strike prints with its float repr |
| `Helpers.GenerateOptionSymbol` | utils/helpers.py:122-127 | symbol + expiry + strike text + type; a whole non-negative strike appears as plain decimal digits |
| `MarketData.MarketStatusAt` | core/data/market_data.py:61-77 | weekend exactly when weekday > 4; before opening and after closing exactly when a weekday falls outside the session |
| `MarketData.IsMarketOpen` | core/data/market_data.py:54-77 | open exactly when weekday <= 4 and 09:15:00 <= now <= 15:30:00 (config/settings.py:31-34) |
| `MarketData.IsMarketOpenAgreesWithHelpers` | core/data/market_data.py:54-77 | the class method and `is_market_open` of utils/helpers.py agree on every local weekday and time |
| `MarketData.FirstToken` | core/data/market_data.py:104-108 | the token of the first instrument whose trading symbol matches; None exactly when none matches |
| `MarketData.GetInstrumentTokens` | core/data/market_data.py:88-117 | {} when the listing fails; otherwise the keys are exactly the symbols that have a match, each mapped to its first match's token |
| `MarketData.StripOptionType` | core/data/market_data.py:461-462 | drops one trailing "PE" or "CE" and nothing else |
| `MarketData.TrailingDigitCount` | core/data/market_data.py:465-470 | the length of the maximal trailing digit run |
| `MarketData.TrailingDigitsUnique` | core/data/market_data.py:465-470 | any all-digit suffix preceded by a non-digit is that run |
| `MarketData.ExtractStrikePrice` | core/data/market_data.py:457-476 | the loop over the reversed symbol returns the value of the trailing digits after the suffix is stripped, 0 when there are none |
| `MarketData.OptionSymbolStrikeRoundTrip` | core/data/market_data.py:457-476 | the strike of a contract symbol built by generate_option_symbol from a whole strike is read back |
| `MarketData.ExtractExpiry` | core/data/market_data.py:478-493 | the first month in JAN..DEC list order that occurs in the stripped symbol; "Unknown" exactly when none occurs |
| `MarketData.ExpiryListOrderWins` | core/data/market_data.py:489-491 | list order wins over position: "XFEBJAN" gives JAN |
| `MarketData.VolumeChange` | core/data/market_data.py:707-726 | None exactly for fewer than 2 rows or a zero previous volume; otherwise the percentage change from the previous volume to the current one |
| `MarketData.GateOpensAt` | core/data/market_data.py:215-224 | the request waits until at least 60 s after the last request, and no longer |
| `MarketData.LastAttempt` | core/data/market_data.py:230-305 | at most 3 attempts; every attempt before the last was a retryable rate-limit error, and a non-retryable outcome ends the loop |
| `MarketData.AttemptValue` | core/data/market_data.py:236-285 | a frame comes back exactly when the client is available, the symbol has a non-zero token and the data is non-empty |
| `MarketData.RateLimitPhraseDetected` | core/data/market_data.py:292 | any message containing "too many requests" or "rate limit", in any ASCII case, is a rate-limit message |
| `MarketData.BackoffWait` | core/data/market_data.py:293-296 | 60 s for attempt 0 and double the previous wait for each later attempt (60 · 2^attempt) |
| `MarketData.HistoricalFetcher.constructor` | core/data/market_data.py:37-48 | the class attribute starts at 0 and both caches start as given |
| `MarketData.HistoricalFetcher.FetchHistoricalDataRateLimited` | core/data/market_data.py:182-305 | a readable cache file is returned with no state change. Otherwise: gate; attempts with 120 s and 240 s backoffs; last := now + wait - 60 during backoff; both caches filled on success. Uncached fetches that pass the gate stay at least 60 s apart (Valid) |
| `MarketData.HistoricalFetcher.PassGate` | core/data/market_data.py:214-227 | the clock moves to 60 s after the last request when that is later, the request is recorded at that instant, and the 60 s spacing of gate passages (Valid) is kept |
| `MarketData.HistoricalFetcher.RunAttempts` | core/data/market_data.py:229-305 | the attempt that ends the loop is the first one not rate-limited, or the third; each earlier one added its 60·2^n s backoff to the clock; the result and both caches are what that attempt gives |
| `MarketData.HistoricalFetcher.Settle` | core/data/market_data.py:236-285 | a non-empty frame for a found, non-zero token is returned and cached in memory, and pickled when writing succeeds; anything else returns None and changes nothing |
| `MarketData.BackoffSchedule` | core/data/market_data.py:293-301 | waits are 120 s then 240 s; all attempts start within 360 s of the gate, so the 480 s wait never happens |
| `MarketData.NextGateOpensWhenBackoffEnds` | core/data/market_data.py:299 | after a backoff, the next fetch's gate opens exactly when the backoff ends |
| `MarketData.OnlyRateLimitsAreRetried` | core/data/market_data.py:292-305 | an outcome that is not a retryable rate-limit error is the last attempt |
| `Indicators.LoadData` | core/analysis/technical_indicators.py:41-52 | the data survives exactly when every OHLCV column is present |
| `Indicators.Normalize` | core/analysis/technical_indicators.py:405-415 | 0.5 for None, 0 at or below min, 1 at or above max, and linear between; always in [0,1] |
| `Indicators.NormalizeMonotone` | core/analysis/technical_indicators.py:405-415 | monotone in the value |
| `Indicators.MomentumScore` | core/analysis/technical_indicators.py:211-232 | in [0,1], and equal to the unclamped 0.3/0.3/0.2/0.2 blend of the normalised parts |
| `Indicators.MomentumBlendInUnitInterval` | core/analysis/technical_indicators.py:224-232 | the blend already lies in [0,1] |
| `Indicators.MomentumSaturates` | core/analysis/technical_indicators.py:217-232 | saturated inputs give exactly 1 |
| `Indicators.MaScore` | core/analysis/technical_indicators.py:268-293 | in {0,25,40,50,60,75,100}; 100 for the strict uptrend and 0 for the strict downtrend; 50 exactly when price == sma20 |
| `Indicators.VolumeScore` | core/analysis/technical_indicators.py:295-303 | in {0,60,100}; 100 and 0 exactly in their confirming and opposing cases |
| `Indicators.TrendScore` | core/analysis/technical_indicators.py:239-317 | None exactly when the histogram, ADX or 200-period average is missing (the raise caught at 315-317); otherwise the blend rounded to a whole number, in [0,100] when adx >= 0 |
| `Indicators.TrendBlendBounded` | core/analysis/technical_indicators.py:306-312 | weights summing to 1 over parts in [0,100] stay in [0,100] |
| `Indicators.ExtremaBelow` | core/analysis/technical_indicators.py:339-349 | the levels found below an index are values of the series, at most one per index |
| `Indicators.ExtremaBelowMembers` | core/analysis/technical_indicators.py:339-349 | a level is found below an index exactly when an index in the scanned range holds it as a local extremum |
| `Indicators.ExtremaAreLocalExtrema` | core/analysis/technical_indicators.py:339-349 | the scan reports exactly the values that are <= (for lows) or >= (for highs) every value within the window on both sides |
| `Indicators.ScanExtrema` | core/analysis/technical_indicators.py:337-349 | the for-loop computes the extrema function |
| `Indicators.CandidateStep` | core/analysis/technical_indicators.py:356-357 | each padding candidate moves 2% of the price further away |
| `Indicators.CandidateSide` | core/analysis/technical_indicators.py:355-366 | support candidates are below the price and resistance candidates above it |
| `Indicators.BeyondShrinks` | core/analysis/technical_indicators.py:355-366 | a colliding candidate shrinks the set of levels still ahead, so the corrected padding terminates |
| `Indicators.PaddingAsWrittenStalls` | core/analysis/technical_indicators.py:355-359 | as written, one detected support 96 at close 100 makes the padding step add nothing forever |
| `Indicators.Pad` | core/analysis/technical_indicators.py:352-366 | pads to exactly 3 levels (untouched if already 3 or more); keeps the detected levels as a prefix; adds only new levels on the correct side of the price |
| `Indicators.PadLevels` | core/analysis/technical_indicators.py:355-366 | the while-loop computes Pad |
| `Indicators.LowsOf` | core/analysis/technical_indicators.py:340-342 | the low column, row by row |
| `Indicators.HighsOf` | core/analysis/technical_indicators.py:347-349 | the high column, row by row |
| `Indicators.PaddedSupports` | core/analysis/technical_indicators.py:335-359 | at least 3 supports after padding |
| `Indicators.PaddedResistances` | core/analysis/technical_indicators.py:335-366 | at least 3 resistances after padding |
| `Indicators.SupportResistance` | core/analysis/technical_indicators.py:330-331 | ([], []) when the data is missing or shorter than the lookback |
| `Indicators.CalculateSupportResistance` | core/analysis/technical_indicators.py:319-375 | the scans and padding loops compute SupportResistance |
| `Indicators.SupportsAreSmallestThree` | core/analysis/technical_indicators.py:369 | exactly 3 supports, sorted; with the rest they are a permutation of the padded list, and none exceeds a dropped one |
| `Indicators.ResistancesAreLargestThree` | core/analysis/technical_indicators.py:370 | exactly 3 resistances, sorted; with the rest they are a permutation of the padded list, and none is below a dropped one |
| `Indicators.VolumeChangePercent` | core/analysis/technical_indicators.py:377-403 | None without volume data; 0 when the average is 0; otherwise the percentage change from the average to the current volume |
| `Indicators.CalculateAllIndicators` | core/analysis/technical_indicators.py:54-94 | {} exactly for missing data or fewer than 50 rows. Otherwise: momentum in [0,1]; exactly 3 supports and 3 resistances, each sorted; a trend score exactly when the histogram and ADX exist and there are at least 200 rows (below that pandas-ta's 200-period SMA is None) |
| `PredictionModel.Get` | core/analysis/model.py:93-98 | dict.get: the default for an absent key, the stored value otherwise |
| `PredictionModel.RsiPoints` | core/analysis/model.py:108-121 | 90 exactly when rsi > 70, 75 exactly for 60 < rsi <= 70, 60 for 50 < rsi <= 60, 40 for 40 < rsi <= 50, 25 for 30 < rsi <= 40, 10 exactly when rsi <= 30; above 50 exactly when rsi > 50 |
| `PredictionModel.RsiPointsMonotone` | core/analysis/model.py:108-121 | the RSI bucket is monotone in the RSI |
| `PredictionModel.MacdPoints` | core/analysis/model.py:124-133 | 80, 60, 40 exactly in their branches, and 20 otherwise, including a zero histogram or MACD |
| `PredictionModel.ComponentCount` | core/analysis/model.py:101-152 | between 1 and 4, since momentum always counts, so the neutral fallback is unreachable |
| `PredictionModel.PredictionScore` | core/analysis/model.py:150-154 | the average: the score times the number of counted components is their sum |
| `PredictionModel.PredictDirection` | core/analysis/model.py:82-174 | UP exactly when the averaged score is > 50 (50 gives DOWN); confidence is 2·abs(score − 50), scaled by 0.8 or 1.2 by ADX, and clamped to [0,100] |
| `PredictionModel.NeutralScoreIsDownWithZeroConfidence` | core/analysis/model.py:157-172 | a score of exactly 50 gives DOWN with confidence 0 |
| `PredictionModel.PredictionScoreBounded` | core/analysis/model.py:104-154 | with trend and momentum scores in range, the averaged score lies in [0,100] |
| `PredictionModel.GenerateSignal` | core/analysis/model.py:176-189 | "Buy CALL Option" for UP, "Buy PUT Option" for anything else |
| `PredictionModel.AdxScaled` | core/analysis/model.py:165-170 | 0.8 × confidence when adx < 20, 1.2 × when adx > 40, unchanged for a missing ADX or 20..40; between 0.8 and 1.2 times a non-negative confidence |
| `PredictionModel.AdxFactor` | core/analysis/model.py:209-215 | 0.9 exactly when adx < 20, 1.1 exactly when adx > 40, 1.0 exactly for 20 <= adx <= 40 |
| `PredictionModel.RawProfitProbability` | core/analysis/model.py:203-224 | undefined (the source raises) exactly when a volatility key holds None |
| `PredictionModel.CalculateProfitProbability` | core/analysis/model.py:191-229 | the clamp of confidence × ADX factor × volatility factor to [0,100] |
| `PredictionModel.ModerateTrendKeepsConfidence` | core/analysis/model.py:203-227 | a moderate ADX and no volatility key keep the confidence unchanged |
| `PredictionModel.GeneratePrediction` | core/analysis/model.py:39-80 | {} for fewer than 50 rows, an empty indicator map or a raised error. Otherwise: direction UP exactly when the score is > 50; the matching signal; confidence = clamp(0,100) of the ADX-scaled 2·|score − 50|; profit probability = clamp(0,100) of the raw probability at that confidence |
| `PriceTargets.MinAbove` | core/analysis/price_targets.py:69-70 | the smallest level strictly above the price, None exactly when there is none |
| `PriceTargets.MaxBelow` | core/analysis/price_targets.py:73-74 | the largest level strictly below the price, None exactly when there is none |
| `PriceTargets.ChooseLevels` | core/analysis/price_targets.py:56-82 | percentage levels without supports or resistances. Otherwise UP takes the nearest resistance above as target and the nearest support below as stop; DOWN mirrors this; percentage fallbacks apply |
| `PriceTargets.LevelsBracketPrice` | core/analysis/price_targets.py:56-82 | for a positive price, UP gives stop < price < target and DOWN gives target < price < stop |
| `PriceTargets.RiskReward` | core/analysis/price_targets.py:85-91 | reward / risk, or 0 when the risk is 0; never negative |
| `PriceTargets.EstimateDaysToTarget` | core/analysis/price_targets.py:111-146 | 10 with fewer than 30 rows (or a zero price, where the source raises), 30 without movement, and always in [1,60] |
| `PriceTargets.DaysMonotoneInDistance` | core/analysis/price_targets.py:131-140 | a farther target never needs fewer days |
| `PriceTargets.CalculatePriceTargets` | core/analysis/price_targets.py:37-109 | {} exactly for fewer than 50 rows; otherwise risk/reward >= 0, days in [1,60], and the target and stop bracket a positive price on the right sides |
| `RiskFactors.EarningsImpact` | core/analysis/risk_factors.py:88-95 | Very High exactly below 5 days, High exactly for 5..13, Medium exactly for 14..29, Low exactly from 30 days |
| `RiskFactors.EarningsImpactMonotone` | core/analysis/risk_factors.py:88-95 | the severity never grows as the earnings date moves away |
| `RiskFactors.RiskPerShare` | core/analysis/risk_factors.py:119-123 | abs(price − stop), replaced by 1% of the price when it is 0 |
| `RiskFactors.DefaultMaxRisk` | core/analysis/risk_factors.py:104-105 | the defaults allow a maximum risk of 2000 |
| `RiskFactors.PositionSizing` | core/analysis/risk_factors.py:104-147 | "Unable" exactly when the division by risk per share or by account size raises. Otherwise max_shares = int(max_risk / risk_per_share), position = shares × price, percentage = position / account × 100 |
| `RiskFactors.TruncatedShares` | core/analysis/risk_factors.py:129 | for positive inputs, shares × risk <= budget < (shares + 1) × risk |
| `RiskFactors.PositionWithinRiskBudget` | core/analysis/risk_factors.py:126-129 | the recommended shares never risk more than the budget, and one more share would |
| `RiskFactors.AnalyzeRiskFactors` | core/analysis/risk_factors.py:35-64 | the earnings bucket, the days and the default-account sizing, which is unable exactly when price and stop are both 0 |
| `OptionAnalysis.RowsOfType` | core/analysis/option_analysis.py:113 | the rows of the requested type, and only those |
| `OptionAnalysis.RowsOfTypeAppend` | core/analysis/option_analysis.py:113 | the filter distributes over concatenation, so rows keep their order and duplicates |
| `OptionAnalysis.RowsOfTypeSingle` | core/analysis/option_analysis.py:113 | a single row is kept exactly when it has the requested type |
| `OptionAnalysis.RoundedToFive` | core/analysis/option_analysis.py:118 | a multiple of 5 within 2.5 of the price |
| `OptionAnalysis.Dedup` | core/analysis/option_analysis.py:121 | a sorted list loses its duplicates and keeps its elements |
| `OptionAnalysis.SortedUnique` | core/analysis/option_analysis.py:121-122 | strictly ascending with exactly the input's elements |
| `OptionAnalysis.NearestIndex` | core/analysis/option_analysis.py:125 | argmin: no strike is nearer, and every earlier strike is strictly farther |
| `OptionAnalysis.FirstRowAt` | core/analysis/option_analysis.py:146 | a row of the chain at that strike, the first one when the chain starts there |
| `OptionAnalysis.FirstRowAtIsFirst` | core/analysis/option_analysis.py:146 | `.iloc[0]`: when row j has the strike and no earlier row does, the row found is row j |
| `OptionAnalysis.SelectStrike` | core/analysis/option_analysis.py:98-157 | (0, "Unknown") without a chain; (round(price/5)·5, "ATM") without rows of the type; otherwise a strike of that type tagged OTM, ATM or ITM |
| `OptionAnalysis.StrikeChoice` | core/analysis/option_analysis.py:128-155 | ATM only without an OTM neighbour; an illiquid ATM row gives (strike below, ITM) for CE when there is one and (strike above, ITM) for PE when there is one; otherwise (strike above, OTM) for CE and (strike below, OTM) for PE when it exists |
| `OptionAnalysis.NearestIsLowest` | core/analysis/option_analysis.py:121-126 | the chosen ATM strike is the lowest of the nearest strikes |
| `OptionAnalysis.AtmStrike` | core/analysis/option_analysis.py:121-126 | a strike of the rows, no farther from the price than any row's, and strictly nearer than every lower strike |
| `OptionAnalysis.Neighbours` | core/analysis/option_analysis.py:121-122 | adjacent sorted distinct strikes are neighbours: no strike of the rows lies between them |
| `OptionAnalysis.SelectedAtm` | core/analysis/option_analysis.py:128-143 | an ATM result is the ATM strike, and no strike lies on its OTM side |
| `OptionAnalysis.SelectedOtm` | core/analysis/option_analysis.py:128-143 | an OTM result is the neighbour just above ATM for CE and just below for PE |
| `OptionAnalysis.SelectedItm` | core/analysis/option_analysis.py:145-155 | an ITM result comes only from an illiquid ATM row, and is the neighbour just below ATM for CE and just above for PE |
| `OptionAnalysis.IlliquidAtmMovesItm` | core/analysis/option_analysis.py:145-155 | conversely, an illiquid ATM row with a strike below it (CE) or above it (PE) always gives ITM, at the neighbouring strike |
| `OptionAnalysis.TotalLossAt` | core/analysis/option_analysis.py:207-227 | the two inner loops sum the CE and PE losses at one settlement strike |
| `OptionAnalysis.CalculateMaxPain` | core/analysis/option_analysis.py:186-234 | 0 for a missing or empty chain. Otherwise a strike of the chain with the least total loss, below every strike with an equal loss (the first minimiser) |
| `OptionAnalysis.MaxPainUnique` | core/analysis/option_analysis.py:229-232 | the max-pain strike is determined uniquely |
| `OptionAnalysis.LossOfTypePermutation` | core/analysis/option_analysis.py:211-227 | a strike's summed loss does not depend on the row order |
| `OptionAnalysis.MaxPainOrderIndependent` | core/analysis/option_analysis.py:198-228 | reordering the chain does not change max pain |
| `OptionAnalysis.WriterPayoutNonNegative` | core/analysis/option_analysis.py:211-227 | with the writer-payout rule, every total loss is >= 0 for non-negative open interest |
| `OptionAnalysis.RowLossIsIntrinsic` | core/analysis/option_analysis.py:211-227 | a row contributes intrinsic value × open interest under the writer-payout rule; as written a CE row is charged −(PE intrinsic) × oi and a PE row −(CE intrinsic) × oi; other types contribute 0 |
| `OptionAnalysis.LossOfTypeOnlyItsType` | core/analysis/option_analysis.py:211-227 | a chain with no rows of a type has loss 0 for that type |
| `OptionAnalysis.TotalPayoutNonNegative` | core/analysis/option_analysis.py:207-227 | with non-negative open interest, the writer-payout total at any settlement is >= 0 |
| `OptionAnalysis.MaxPainAsWrittenCounterexample` | core/analysis/option_analysis.py:211-227 | on the finding chain, the code as written picks 100, where writers pay 600; the payout minimiser is 300, where they pay 200 |
| `OptionAnalysis.Intrinsic` | core/analysis/option_analysis.py:323-337 | max(0, S − K) for CE and max(0, K − S) otherwise |
| `OptionAnalysis.CalculateOptionPrices` | core/analysis/option_analysis.py:295-350 | (0,0,0) without a chain. Current price = last_price of the first row with that strike and type, else intrinsic + 3% of the price; target = intrinsic at the target + 2% of the target; stop = intrinsic at the stop + 2% of the price when below the current price, else 70% of the current price |
| `OptionAnalysis.GenerateOptionSymbol` | core/analysis/option_analysis.py:356-392 | "" for a missing or empty chain; otherwise the helper's symbol from the first row's symbol and expiry, or "UNKNOWN" and the current month when the column is absent |
| `OptionAnalysis.OptionTypeFor` | core/analysis/option_analysis.py:56 | CE exactly for UP, PE otherwise |
| `OptionAnalysis.AnalyzeOptions` | core/analysis/option_analysis.py:37-96 | {} exactly for a missing or empty chain; otherwise the selected strike, max pain (corrected rule), option prices and contract symbol as specified above |
| `StockAnalyzer.MajorLevel` | core/analysis/stock_analyzer.py:135-140 | level k of the list when it has more than k elements, else None |
| `StockAnalyzer.MajorLevels` | core/analysis/stock_analyzer.py:135-140 | the three major_* entries, one per position |
| `StockAnalyzer.MajorLevelsOfThreeSorted` | core/analysis/stock_analyzer.py:135-140 | three sorted levels give three present, ascending major levels |
| `StockAnalyzer.AnalyzeStockAsWritten` | core/analysis/stock_analyzer.py:64 | as written, every call fails; a truthy price always ends in "Error analyzing" from the Series truth test |
| `StockAnalyzer.AsWrittenRejectsEverySuccess` | core/analysis/stock_analyzer.py:64-67 | wherever the corrected analysis succeeds, the code as written reports the ambiguous-truth-value error |
| `StockAnalyzer.LaterStages` | core/analysis/stock_analyzer.py:69-169 | the first failing stage decides: a raised indicator, prediction, target, option or risk stage gives its error; an empty prediction gives the prediction failure; empty targets the targets failure; when all succeed, the compiled record |
| `StockAnalyzer.Compile` | core/analysis/stock_analyzer.py:99-166 | the record carries the symbol, price, market status and the stage results; three major supports and resistances, all None without indicators, otherwise present exactly at positions below the list length |
| `StockAnalyzer.AnalyzeStock` | core/analysis/stock_analyzer.py:37-174 | the fetch failure, exception and insufficient-data errors; past them, exactly the later-stage outcome. A record exactly when every stage succeeds, carrying the symbol, the prediction, the targets and the major levels |
| `StockAnalyzer.AnalyzeMultipleStocks` | core/analysis/stock_analyzer.py:176-195 | one entry per distinct symbol; the last occurrence's analysis wins |
| `Cli.CleanSymbol` | main.py:238-250 | skipped exactly when the stripped piece is empty; otherwise the stripped piece's second ':'-field (the whole piece when it has no ':'), cut before its first '-'; no result contains ':' or '-' |
| `Cli.CleanAll` | main.py:237-250 | no more symbols than pieces, none containing a separator |
| `Cli.CleanAllAppend` | main.py:237-250 | cleaning distributes over concatenation, so symbols keep their order and duplicates |
| `Cli.CleanAllSingle` | main.py:237-250 | one piece gives its cleaned symbol, or nothing when it is skipped |
| `Cli.Pieces` | main.py:225-233 | split on ',' when the stripped content has a comma, otherwise into lines |
| `Cli.LoadSymbolsFromFile` | main.py:213-257 | [] for an unreadable file; otherwise the loop computes the cleaned pieces |
| `Cli.PlainPiecesKept` | main.py:237-250 | pieces that are already clean come back unchanged and in order |
| `Cli.CommaSeparatedRoundTrip` | main.py:225-250 | loading the comma-join of clean symbols gives those symbols back |
| `Cli.BarePrefixYieldsEmpty` | main.py:238-250 | "NSE:" yields "", because emptiness is tested before the prefix is cut |
| `Cli.BareSuffixYieldsEmpty` | main.py:238-250 | "-EQ" yields "" for the same reason |
| `Cli.SkipLimit` | main.py:377-388 | exit exactly when 0 < skip >= len. Otherwise symbols[skip:], cut to the limit only when 0 < limit < remaining; a non-empty list stays non-empty |
| `Cli.Attempts` | main.py:105-152 | at most max_retries + 1 analyzer calls; at most one success-or-other count; a stored result whenever a call was made; a success stores a record |
| `Cli.CallsPerSymbolBounded` | main.py:105-152 | the analyzer is called at most max_retries + 1 times per symbol, and never for a negative limit |
| `Cli.AttemptOutcome` | main.py:107-152 | one call either ends the symbol or adds to the retries after it |
| `Cli.Run` | main.py:101-158 | keys come from the symbols and cover them all when max_retries >= 0; successful + other errors <= symbols; one inter-symbol sleep per symbol |
| `Cli.RetrySymbol` | main.py:105-152 | the while-loop computes the per-symbol attempt sequence |
| `Cli.AttemptOnce` | main.py:107-150 | one pass of the retry loop: whether it retries, and the tally it leaves, which with the run of the later attempts makes up the symbol's run from this attempt on |
| `Cli.RunAnalysis` | main.py:65-158 | the loop over symbols computes Run |
| `Cli.ResultsCoverSymbols` | main.py:116-150 | every symbol ends with an entry, none other does, and successful + other <= symbols |
| `Cli.NoEntriesWithoutAttempts` | main.py:106 | a negative max_retries makes no call and stores nothing |
| `Cli.ReturnedRateLimitExhausts` | main.py:123-128 | returned rate-limit errors on every attempt are counted in neither successful nor other, each sleeps, and the last is stored |
| `Cli.RateLimitedResultDetected` | main.py:123 | a returned error containing "rate limit" in any ASCII case is treated as a rate limit |
| `Cli.RateLimitedExceptionDetected` | main.py:141 | a raised message containing "rate limit" or "too many requests" in any ASCII case is treated as a rate limit |
| `Cli.RaisedRateLimitOnLastAttempt` | main.py:141-152 | a raised rate-limit error on the last attempt counts as both rate-limited and other |

## Left out

- Authentication, the HTTP API, the thread pools and the periodic task are I/O and concurrency and are not part of this model.
- Kite calls, pickle files, `time.time()`, `time.sleep` and `datetime.now()` are not modelled directly. Their outcomes are parameters:
  - attempt outcomes and the cache contents for the fetcher;
  - the analyzer's results for the CLI;
  - the local weekday and time for the market-hours checks.
  - The fetcher's sleeps advance a virtual clock field, and the CLI counts its sleeps instead of timing them.
- `Indicators.MomentumScore`, `Indicators.TrendScore` and `Indicators.CalculateAllIndicators` take the pandas-ta outputs (RSI, MACD, ADX, SMA, ROC) as parameters. The volume average, the pct_change mean and the standard deviation of volatility are parameters too.
- `Indicators.MomentumScore` requires positive 20- and 50-period averages. With a zero average pandas yields inf or NaN, and floating point is not modelled.
- `Indicators.SupportResistance` and `Indicators.CalculateAllIndicators` require a positive last close. The corrected padding terminates only then, and the as-written padding is the subject of a finding.
- `round(x, 2)`, `round(x, 1)` and float formatting are left out: prices are exact reals. `round()` to an integer is modelled in `Indicators.TrendScore`, `PriceTargets.EstimateDaysToTarget` and `OptionAnalysis.RoundedToFive`. NaN and infinities are not modelled.
- `Helpers.FormatCurrency`, `Helpers.FormatPercentage` and `Helpers.FormatNumber` take the `:,.2f` rendering as a parameter. `Helpers.StrikeText` takes the float repr as a parameter.
- `MarketData.ExtractStrikePrice` accepts only ASCII digits, where `str.isdigit()` also accepts other Unicode digits. `Text.Lower` folds only ASCII letters.
- `Indicators.TrendScore` reaches its `except` path (core/analysis/technical_indicators.py:315-317) only through a missing histogram, ADX or 200-period average. Other failures inside pandas-ta are not modelled, because its outputs are parameters.
- `Validators.ValidateDateRange` reads the regex `\d` as the ASCII digits 0-9 only (`DateWord`), where Python's `re` also matches other Unicode decimal digits.
- The class attribute `_last_historical_request` is modelled as a field of one `HistoricalFetcher` object, because there is only one object per process.
- The random placeholders are parameters or are not modelled:
  - IV percentile: a parameter of `OptionAnalysis.AnalyzeOptions`;
  - the open-interest text of `_analyze_open_interest` (core/analysis/option_analysis.py:240-293): not modelled, because it is random;
  - the simulated IV of core/data/market_data.py: not modelled, because it is random;
  - model accuracy: a parameter of `PredictionModel.GeneratePrediction`;
  - days to earnings: a parameter of `RiskFactors.AnalyzeRiskFactors`.
- main.py:109 calls `analyze_stock_with_rate_limits`, which `StockAnalyzer` does not define. In `Cli`, each call's outcome is a parameter (`Call`), not the analysis.
- `StockAnalyzer.AnalyzeStock` takes each stage's outcome (value, empty, or raised) as a parameter. The stages' own internals are the other modules.
- `StockAnalyzer.AnalyzeMultipleStocks` leaves out its `except` branch, because `analyze_stock` catches everything itself.
- `Cli.RunAnalysis` leaves out the outer `except` that exits the program (main.py:180-182), and the CSV and JSON output it then writes.
- Logging, progress bars and timestamps in the results are not modelled.
- `PriceTargets.EstimateDaysToTarget` returns the default 10 for a zero price, where the source divides by zero inside its `try` and falls back to 10.
- `RiskFactors.EarningsImpact` leaves out the "Unknown" fallback of `_analyze_earnings_risk`, which only `random.randint` could reach.

## Findings

| source | as written | input that shows it | evidently intended | confidence | as-written member | corrected member |
|---|---|---|---|---|---|---|
| core/analysis/option_analysis.py:211-227 | a call is charged 0 when the settlement is above its strike and (settle − K)·oi ≤ 0 otherwise; puts mirror this, so in-the-money options cost writers nothing | calls at 100 (oi 1) and 200 (oi 0), a put at 300 (oi 3): as written gives 100, where writers pay 600 | the strike minimising what writers pay out, max(0, S − K)·oi for calls and max(0, K − S)·oi for puts: 300, where they pay 200 | not executed | `OptionAnalysis.MaxPainAsWrittenCounterexample` | `OptionAnalysis.CalculateMaxPain` |
| core/analysis/technical_indicators.py:355-366 | the padding percentage depends only on the list length, so a candidate already in the list is never appended and the loop never ends | close 100 and a single detected support 96.0: the candidate at length 1 is 96.0 on every iteration | move to the next percentage step after a collision, so the loop always reaches three levels | not executed | `Indicators.PaddingAsWrittenStalls` | `Indicators.PadLevels` |
| core/analysis/stock_analyzer.py:64 | `not historical_data.any()` applies `not` to a pandas Series, which raises ValueError, so every stock with a price ends in "Error analyzing" | any symbol whose fetch returns a truthy price and a frame | test whether the frame is missing or empty | not executed | `StockAnalyzer.AnalyzeStockAsWritten` | `StockAnalyzer.AnalyzeStock` |
