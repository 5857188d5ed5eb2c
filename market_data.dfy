// core/data/market_data.py: market hours, instrument-token matching,
// trading-symbol parsing, the volume change of the last two rows, and the
// rate-limited historical-data fetch with its class-wide "last request" time.
module MarketData {
  import opened Common
  import opened Text
  import opened Settings
  import Helpers

  // ---------------------------------------------------------------- market hours

  /** Why is_market_open answers as it does (the reason is what it logs). */
  datatype MarketStatus = Open | ClosedWeekend | ClosedBeforeOpening | ClosedAfterClosing

  function MarketStatusAt(now: Helpers.LocalTime): (r: MarketStatus)
    ensures r == ClosedWeekend <==> now.weekday > 4
    ensures r == ClosedBeforeOpening <==> now.weekday <= 4 && now.micros < MarketOpenMicros
    ensures r == ClosedAfterClosing <==> now.weekday <= 4 && now.micros > MarketCloseMicros
  {
    if now.weekday > 4 then ClosedWeekend
    else if MarketOpenMicros <= now.micros <= MarketCloseMicros then Open
    else if now.micros < MarketOpenMicros then ClosedBeforeOpening
    else ClosedAfterClosing
  }

  /** MarketData.is_market_open. */
  function IsMarketOpen(now: Helpers.LocalTime): (r: bool)
    ensures r <==> now.weekday <= 4 && MarketOpenMicros <= now.micros <= MarketCloseMicros
  {
    MarketStatusAt(now) == Open
  }

  /** The class method and utils/helpers.py's is_market_open agree on every instant. */
  lemma IsMarketOpenAgreesWithHelpers(now: Helpers.LocalTime)
    ensures IsMarketOpen(now) == Helpers.IsMarketOpen(now)
  {
  }

  // ---------------------------------------------------------------- instrument tokens

  /** One row of kite.instruments("NSE"). */
  datatype Instrument = Instrument(tradingSymbol: string, token: int)

  /** The token of the first instrument listed under `symbol`. */
  function FirstToken(instruments: seq<Instrument>, symbol: string): (r: Option<int>)
    ensures r.None? <==> forall j :: 0 <= j < |instruments| ==> instruments[j].tradingSymbol != symbol
    ensures r.Some? ==>
      exists i ::
        (0 <= i < |instruments| && instruments[i].tradingSymbol == symbol && instruments[i].token == r.value &&
         forall j :: 0 <= j < i ==> instruments[j].tradingSymbol != symbol)
  {
    var i := FirstIndex(instruments, (x: Instrument) => x.tradingSymbol == symbol, 0);
    if i.None? then None else Some(instruments[i.value].token)
  }

  /**
   * get_instrument_tokens: `instruments` is None when the client is unavailable
   * or the listing raised; both give the empty map.
   */
  method GetInstrumentTokens(symbols: seq<string>, instruments: Option<seq<Instrument>>)
    returns (tokens: map<string, int>)
    ensures instruments.None? ==> tokens == map[]
    ensures instruments.Some? ==>
      forall s :: s in tokens <==> s in symbols && FirstToken(instruments.value, s).Some?
    ensures instruments.Some? ==>
      forall s :: s in tokens ==> FirstToken(instruments.value, s) == Some(tokens[s])
  {
    tokens := map[];
    if instruments.None? {
      return;
    }
    var listed := instruments.value;
    var n := 0;
    while n < |symbols|
      invariant 0 <= n <= |symbols|
      invariant forall s :: s in tokens <==> s in symbols[..n] && FirstToken(listed, s).Some?
      invariant forall s :: s in tokens ==> FirstToken(listed, s) == Some(tokens[s])
    {
      var symbol := symbols[n];
      var k := 0;
      while k < |listed|
        invariant 0 <= k <= |listed|
        invariant forall j :: 0 <= j < k ==> listed[j].tradingSymbol != symbol
      {
        if listed[k].tradingSymbol == symbol {
          tokens := tokens[symbol := listed[k].token];
          break;
        }
        k := k + 1;
      }
      assert symbols[..n + 1] == symbols[..n] + [symbol];
      n := n + 1;
    }
    assert symbols[..n] == symbols;
  }

  // ---------------------------------------------------------------- trading symbols

  /** Drop one trailing "PE" or "CE". */
  function StripOptionType(s: string): (r: string)
    ensures EndsWith(s, "PE") || EndsWith(s, "CE") ==> r == s[..|s| - 2]
    ensures !(EndsWith(s, "PE") || EndsWith(s, "CE")) ==> r == s
  {
    if EndsWith(s, "PE") || EndsWith(s, "CE") then s[..|s| - 2] else s
  }

  /** The length of the maximal run of digits at the end of s. */
  function TrailingDigitCount(s: string): (n: nat)
    ensures n <= |s|
    ensures AllDigits(s[|s| - n..])
    ensures n < |s| ==> !IsDigit(s[|s| - n - 1])
  {
    if s != [] && IsDigit(s[|s| - 1]) then
      var n := 1 + TrailingDigitCount(s[..|s| - 1]);
      assert s[|s| - n..] == s[..|s| - 1][|s| - n..] + [s[|s| - 1]];
      n
    else 0
  }

  /** A cut point with only digits after it and a non-digit (or nothing) before it is the maximal run. */
  lemma {:induction false} TrailingDigitsUnique(s: string, k: nat)
    requires k <= |s|
    requires AllDigits(s[k..])
    requires k > 0 ==> !IsDigit(s[k - 1])
    ensures TrailingDigitCount(s) == |s| - k
    decreases |s|
  {
    if k < |s| {
      var t := s[..|s| - 1];
      assert t[k..] == s[k..|s| - 1];
      assert k > 0 ==> t[k - 1] == s[k - 1];
      TrailingDigitsUnique(t, k);
    }
  }

  /** The value _extract_strike_price returns: the trailing digits after the option type is dropped, or 0. */
  function StrikeOf(tradingSymbol: string): (r: nat)
  {
    var s := StripOptionType(tradingSymbol);
    DigitsValue(s[|s| - TrailingDigitCount(s)..])
  }

  /** _extract_strike_price: collect digits from the end until the first non-digit. */
  method ExtractStrikePrice(tradingSymbol: string) returns (strike: real)
    ensures strike == StrikeOf(tradingSymbol) as real
  {
    var s := StripOptionType(tradingSymbol);
    var strikePart := "";
    var i := |s|;
    while i > 0
      invariant 0 <= i <= |s|
      invariant strikePart == s[i..]
      invariant AllDigits(strikePart)
    {
      var c := s[i - 1];
      if IsDigit(c) {
        strikePart := [c] + strikePart;
        i := i - 1;
      } else {
        break;
      }
    }
    TrailingDigitsUnique(s, i);
    if strikePart != "" {
      strike := DigitsValue(strikePart) as real;
    } else {
      strike := 0.0;
    }
  }

  /**
   * An option symbol built by generate_option_symbol from a whole,
   * non-negative strike parses back to that strike, provided the text before
   * the strike does not end in a digit.
   */
  lemma OptionSymbolStrikeRoundTrip(symbol: string, expiry: string, strike: nat, optionType: string, floatRepr: string)
    requires optionType == "CE" || optionType == "PE"
    requires symbol + expiry == [] || !IsDigit((symbol + expiry)[|symbol + expiry| - 1])
    ensures StrikeOf(Helpers.GenerateOptionSymbol(symbol, expiry, strike as real, optionType, floatRepr)) == strike
  {
    var prefix := symbol + expiry;
    var digits := NatToDecimal(strike);
    var x := strike as real;
    assert x.Floor == strike;
    assert Helpers.GenerateOptionSymbol(symbol, expiry, x, optionType, floatRepr) == prefix + digits + optionType;
    StripSuffixType(prefix + digits, optionType);
    DigitRunAfterPrefix(prefix, digits);
    DecimalRoundTrip(strike);
  }

  lemma StripSuffixType(s: string, optionType: string)
    requires optionType == "CE" || optionType == "PE"
    ensures StripOptionType(s + optionType) == s
  {
    var ts := s + optionType;
    assert ts[|ts| - 2..] == optionType;
    assert ts[..|ts| - 2] == s;
  }

  /** Digits after a prefix that does not end in a digit are exactly the trailing run. */
  lemma DigitRunAfterPrefix(prefix: string, digits: string)
    requires AllDigits(digits)
    requires prefix == [] || !IsDigit(prefix[|prefix| - 1])
    ensures var s := prefix + digits; s[|s| - TrailingDigitCount(s)..] == digits
  {
    var s := prefix + digits;
    assert s[|prefix|..] == digits;
    assert |prefix| > 0 ==> s[|prefix| - 1] == prefix[|prefix| - 1];
    TrailingDigitsUnique(s, |prefix|);
  }

  const Months: seq<string> := ["JAN", "FEB", "MAR", "APR", "MAY", "JUN",
                                "JUL", "AUG", "SEP", "OCT", "NOV", "DEC"]

  /**
   * _extract_expiry: the first month, in calendar list order, that occurs
   * anywhere in the symbol once the option type is dropped; else "Unknown".
   */
  function ExtractExpiry(tradingSymbol: string): (r: string)
    ensures r == "Unknown" <==>
      forall j :: 0 <= j < |Months| ==> !Contains(StripOptionType(tradingSymbol), Months[j])
    ensures r != "Unknown" ==>
      exists i :: 0 <= i < |Months| && r == Months[i] && Contains(StripOptionType(tradingSymbol), Months[i]) &&
        forall j :: 0 <= j < i ==> !Contains(StripOptionType(tradingSymbol), Months[j])
  {
    var s := StripOptionType(tradingSymbol);
    var i := FirstIndex(Months, (m: string) => Contains(s, m), 0);
    if i.None? then "Unknown" else Months[i.value]
  }

  /** List order wins over position: "FEB" comes first in the text but "JAN" is found. */
  lemma ExpiryListOrderWins()
    ensures ExtractExpiry("XFEBJAN") == "JAN"
  {
    var s := "XFEBJAN";
    assert StripOptionType(s) == s;
    assert s[4..][..3] == "JAN";
    assert Contains(s[4..], "JAN");
    assert Contains(s, "JAN");
  }

  // ---------------------------------------------------------------- volume change

  /** _calculate_volume_change: the percentage change of the last volume over the one before it. */
  function VolumeChange(frame: Option<seq<Candle>>): (r: Option<real>)
    ensures r.Some? <==> frame.Some? && |frame.value| >= 2 && frame.value[|frame.value| - 2].volume != 0.0
    ensures r.Some? ==>
      var prev := frame.value[|frame.value| - 2].volume;
      prev + prev * r.value / 100.0 == frame.value[|frame.value| - 1].volume
  {
    if frame.None? || |frame.value| < 2 then None
    else
      var current := frame.value[|frame.value| - 1].volume;
      var previous := frame.value[|frame.value| - 2].volume;
      if previous == 0.0 then None
      else Some((current - previous) / previous * 100.0)
  }

  // ---------------------------------------------------------------- rate-limited fetch

  /** What one attempt of the fetch meets. */
  datatype Attempt =
    | ClientUnavailable                                      // get_kite_client reported an error
    | Raised(message: string)                                // instruments() or historical_data() raised
    | Listed(instruments: seq<Instrument>, rows: seq<Candle>, pickled: bool)
      // the listing, the rows historical_data returned, and whether to_pickle succeeded

  /** A pickle cache file under output/historical_cache/ that exists. */
  datatype CacheFile = Readable(frame: seq<Candle>) | Corrupt

  const MaxRetries: nat := 3
  const GateSeconds: real := 60.0

  /** The message test of the except branch, case-insensitively. */
  predicate IsRateLimitMessage(message: string)
  {
    Contains(Lower(message), "too many requests") || Contains(Lower(message), "rate limit")
  }

  /** Either phrase, in any capitalisation and anywhere in the message, marks it as a rate limit. */
  lemma RateLimitPhraseDetected(before: string, phrase: string, after: string)
    requires Lower(phrase) == "too many requests" || Lower(phrase) == "rate limit"
    ensures IsRateLimitMessage(before + phrase + after)
  {
    LowerAppend(before + phrase, after);
    LowerAppend(before, phrase);
    ContainsInside(Lower(before), Lower(phrase), Lower(after));
  }

  predicate IsRetryable(a: Attempt)
  {
    a.Raised? && IsRateLimitMessage(a.message)
  }

  function Pow2(n: nat): (r: nat)
    ensures r >= 1
  {
    if n == 0 then 1 else 2 * Pow2(n - 1)
  }

  /** The backoff after a rate-limited attempt number `attempt` (1-based): 60 * 2^attempt seconds. */
  function BackoffWait(attempt: nat): (r: real)
    ensures r >= 60.0
    ensures attempt == 0 ==> r == 60.0
    ensures attempt > 0 ==> r == 2.0 * BackoffWait(attempt - 1)
  {
    60.0 * Pow2(attempt) as real
  }

  /** When the gate lets a request through: at once, or 60 s after the last recorded request. */
  function GateOpensAt(clock: real, lastRequest: real): (r: real)
    ensures r >= clock && r >= lastRequest + GateSeconds
    ensures r == clock || r == lastRequest + GateSeconds
  {
    if clock - lastRequest < GateSeconds then lastRequest + GateSeconds else clock
  }

  /** The instant of attempt number `n` of a fetch whose gate opened at t0. */
  function AttemptStart(t0: real, n: nat): (r: real)
    requires n >= 1
    ensures r >= t0
  {
    if n == 1 then t0 else AttemptStart(t0, n - 1) + BackoffWait(n - 1)
  }

  /** The number of the attempt that ends the loop. */
  function LastAttempt(outcomes: nat -> Attempt): (r: nat)
    ensures 1 <= r <= MaxRetries
    ensures forall j :: 1 <= j < r ==> IsRetryable(outcomes(j))
    ensures r < MaxRetries ==> !IsRetryable(outcomes(r))
  {
    if !IsRetryable(outcomes(1)) then 1
    else if !IsRetryable(outcomes(2)) then 2
    else 3
  }

  /** What an attempt that ends the loop returns. */
  function AttemptValue(symbol: string, a: Attempt): (r: Option<seq<Candle>>)
    ensures r.Some? <==> a.Listed? && a.rows != [] && FirstToken(a.instruments, symbol).Some? &&
                         FirstToken(a.instruments, symbol).value != 0
    ensures r.Some? ==> r.value == a.rows
  {
    match a
    case ClientUnavailable => None
    case Raised(_) => None
    case Listed(instruments, rows, _) =>
      var token := FirstToken(instruments, symbol);
      if token.None? || token.value == 0 then None
      else if rows == [] then None
      else Some(rows)
  }

  /**
   * The class-wide state of fetch_historical_data_rate_limited together with
   * its environment: the virtual clock time.time() reads, the cache files on
   * disk keyed by the lower-cased symbol, and the in-memory cache.
   */
  class HistoricalFetcher {
    var clock: real
    var lastRequest: real                    // MarketData._last_historical_request
    var cacheFiles: map<string, CacheFile>   // <symbol.lower()>_historical.pkl
    var memoryCache: map<string, seq<Candle>>  // historical_data_cache
    ghost var gateTimes: seq<real>           // when each uncached fetch passed the gate

    ghost predicate Valid()
      reads this
    {
      lastRequest <= clock &&
      (gateTimes != [] ==> gateTimes[|gateTimes| - 1] <= lastRequest) &&
      (forall i :: 0 < i < |gateTimes| ==> gateTimes[i - 1] + GateSeconds <= gateTimes[i])
    }

    /** The class attribute starts at 0; the clock reads a non-negative epoch time. */
    constructor(now: real, files: map<string, CacheFile>)
      requires now >= 0.0
      ensures Valid()
      ensures clock == now && lastRequest == 0.0 && cacheFiles == files && memoryCache == map[]
      ensures gateTimes == []
    {
      clock := now;
      lastRequest := 0.0;
      cacheFiles := files;
      memoryCache := map[];
      gateTimes := [];
    }

    /**
     * fetch_historical_data_rate_limited. A readable cache file is returned
     * before the gate is touched. Otherwise the gate waits until 60 s after
     * the last request, and up to three attempts are made; `outcomes(n)` is
     * what attempt n meets.
     */
    method FetchHistoricalDataRateLimited(symbol: string, outcomes: nat -> Attempt)
      returns (result: Option<seq<Candle>>)
      requires Valid()
      modifies this
      ensures Valid()
      ensures Lower(symbol) in old(cacheFiles) && old(cacheFiles)[Lower(symbol)].Readable? ==>
        result == Some(old(cacheFiles)[Lower(symbol)].frame) &&
        clock == old(clock) && lastRequest == old(lastRequest) && cacheFiles == old(cacheFiles) &&
        memoryCache == old(memoryCache) && gateTimes == old(gateTimes)
      ensures !(Lower(symbol) in old(cacheFiles) && old(cacheFiles)[Lower(symbol)].Readable?) ==>
        var t0 := GateOpensAt(old(clock), old(lastRequest));
        var last := LastAttempt(outcomes);
        var a := outcomes(last);
        && result == AttemptValue(symbol, a)
        && clock == AttemptStart(t0, last)
        && lastRequest == (if last == 1 then t0 else clock - GateSeconds)
        && gateTimes == old(gateTimes) + [t0]
        && memoryCache == (if result.Some? then old(memoryCache)[symbol := result.value] else old(memoryCache))
        && cacheFiles == (if result.Some? && a.pickled then old(cacheFiles)[Lower(symbol) := Readable(result.value)]
                          else old(cacheFiles))
    {
      var key := Lower(symbol);
      if key in cacheFiles && cacheFiles[key].Readable? {
        return Some(cacheFiles[key].frame);
      }
      PassGate();
      result := RunAttempts(symbol, key, outcomes);
    }

    /** The 60-second gate: wait until 60 s after the last request, then record this one. */
    method PassGate()
      requires Valid()
      modifies this
      ensures Valid()
      ensures clock == GateOpensAt(old(clock), old(lastRequest)) && lastRequest == clock
      ensures gateTimes == old(gateTimes) + [clock]
      ensures memoryCache == old(memoryCache) && cacheFiles == old(cacheFiles)
    {
      clock := GateOpensAt(clock, lastRequest);
      lastRequest := clock;
      gateTimes := gateTimes + [clock];
    }

    /**
     * The attempt loop once the gate has opened at the current clock: a
     * rate-limited attempt before the last one backs off 60 * 2^attempt
     * seconds (recording the request as ending then) and tries again.
     */
    method RunAttempts(symbol: string, key: string, outcomes: nat -> Attempt) returns (result: Option<seq<Candle>>)
      requires Valid() && lastRequest == clock && gateTimes != [] && gateTimes[|gateTimes| - 1] == clock
      modifies this
      ensures Valid()
      ensures var last := LastAttempt(outcomes);
        var a := outcomes(last);
        && result == AttemptValue(symbol, a)
        && clock == AttemptStart(old(clock), last)
        && lastRequest == (if last == 1 then old(clock) else clock - GateSeconds)
        && gateTimes == old(gateTimes)
        && memoryCache == (if result.Some? then old(memoryCache)[symbol := result.value] else old(memoryCache))
        && cacheFiles == (if result.Some? && a.pickled then old(cacheFiles)[key := Readable(result.value)]
                          else old(cacheFiles))
    {
      ghost var t0 := clock;
      var attempt := 1;
      while attempt < MaxRetries && IsRetryable(outcomes(attempt))
        invariant 1 <= attempt <= MaxRetries
        invariant forall j :: 1 <= j < attempt ==> IsRetryable(outcomes(j))
        invariant clock == AttemptStart(t0, attempt)
        invariant lastRequest == (if attempt == 1 then t0 else clock - GateSeconds)
        invariant gateTimes == old(gateTimes)
        invariant memoryCache == old(memoryCache) && cacheFiles == old(cacheFiles)
        decreases MaxRetries - attempt
      {
        var wait := BackoffWait(attempt);
        lastRequest := clock + wait - GateSeconds;
        clock := clock + wait;
        attempt := attempt + 1;
      }
      assert attempt == LastAttempt(outcomes);
      result := Settle(symbol, key, outcomes(attempt));
    }

    /**
     * The end of the attempt loop on an outcome that is not retried: a
     * listed, non-empty frame for a known token is pickled (when writing
     * succeeds), cached in memory and returned; anything else returns None.
     */
    method Settle(symbol: string, key: string, outcome: Attempt) returns (result: Option<seq<Candle>>)
      modifies this
      ensures result == AttemptValue(symbol, outcome)
      ensures memoryCache == (if result.Some? then old(memoryCache)[symbol := result.value] else old(memoryCache))
      ensures cacheFiles == (if result.Some? && outcome.pickled then old(cacheFiles)[key := Readable(result.value)]
                             else old(cacheFiles))
      ensures clock == old(clock) && lastRequest == old(lastRequest) && gateTimes == old(gateTimes)
    {
      result := None;
      match outcome
      case ClientUnavailable =>
      case Listed(instruments, rows, pickled) =>
        var token := FirstToken(instruments, symbol);
        if token.Some? && token.value != 0 && rows != [] {
          if pickled {
            cacheFiles := cacheFiles[key := Readable(rows)];
          }
          memoryCache := memoryCache[symbol := rows];
          result := Some(rows);
        }
      case Raised(message) =>
    }
  }

  /** The two backoffs are 120 s and 240 s, so a whole fetch spends at most 360 s after its gate. */
  lemma BackoffSchedule(t0: real)
    ensures BackoffWait(1) == 120.0 && BackoffWait(2) == 240.0
    ensures AttemptStart(t0, 2) == t0 + 120.0 && AttemptStart(t0, 3) == t0 + 360.0
    ensures forall n :: 1 <= n <= MaxRetries ==> AttemptStart(t0, n) <= t0 + 360.0
  {
    assert Pow2(2) == 4;
  }

  /**
   * After a fetch that backed off, the gate of the next fetch opens exactly
   * when the last backoff ended, that is, at the instant of the retry itself.
   */
  lemma NextGateOpensWhenBackoffEnds(t0: real, last: nat)
    requires 2 <= last <= MaxRetries
    ensures GateOpensAt(AttemptStart(t0, last), AttemptStart(t0, last) - GateSeconds) == AttemptStart(t0, last)
  {
  }

  /** Only rate-limit messages are retried: any other outcome ends the loop at that attempt. */
  lemma OnlyRateLimitsAreRetried(outcomes: nat -> Attempt, n: nat)
    requires 1 <= n <= MaxRetries
    requires !IsRetryable(outcomes(n))
    ensures LastAttempt(outcomes) <= n
  {
  }
}
