// main.py: the symbols-file tokenizer, the --skip/--limit slicing and the
// sequential retry loop of run_analysis with its counters and result map.
module Cli {
  import opened Common
  import opened Text
  import StockAnalyzer

  // ---------------------------------------------------------------- symbols file

  /**
   * One piece of the file after strip(): None when it is empty (skipped);
   * otherwise the part after the first ':' when there is one (the exchange
   * prefix), cut at its first '-' when there is one (the series suffix).
   */
  function CleanSymbol(piece: string): (r: Option<string>)
    ensures r.None? <==> Strip(piece) == []
    ensures r.Some? ==> ':' !in r.value && '-' !in r.value
    ensures r.Some? ==>
      var sym := Strip(piece);
      var field := if ':' in sym then PrefixBefore(sym[|PrefixBefore(sym, ':')| + 1..], ':') else sym;
      r.value == PrefixBefore(field, '-')
  {
    var sym := Strip(piece);
    if sym == [] then None
    else
      var unprefixed := if ':' in sym then Split(sym, ':')[1] else sym;
      var unsuffixed := if '-' in unprefixed then Split(unprefixed, '-')[0] else unprefixed;
      assert ':' in sym ==> unprefixed == PrefixBefore(sym[|PrefixBefore(sym, ':')| + 1..], ':') by {
        if ':' in sym {
          SplitSecondPiece(sym, ':');
        }
      }
      assert unsuffixed == PrefixBefore(unprefixed, '-') by {
        SplitFirstPiece(unprefixed, '-');
      }
      assert ':' !in unprefixed;
      assert ':' !in unsuffixed by {
        assert unsuffixed == unprefixed[..|unsuffixed|];
      }
      Some(unsuffixed)
  }

  /** The cleaned pieces, in order, with the empty ones dropped. */
  function CleanAll(pieces: seq<string>): (r: seq<string>)
    ensures |r| <= |pieces|
    ensures forall i :: 0 <= i < |r| ==> ':' !in r[i] && '-' !in r[i]
  {
    if pieces == [] then []
    else
      var last := CleanSymbol(pieces[|pieces| - 1]);
      CleanAll(pieces[..|pieces| - 1]) + (if last.Some? then [last.value] else [])
  }

  /** Cleaning a concatenation cleans each part on its own, so the kept symbols stay in file order. */
  lemma {:induction false} CleanAllAppend(a: seq<string>, b: seq<string>)
    ensures CleanAll(a + b) == CleanAll(a) + CleanAll(b)
  {
    if b == [] {
      assert a + b == a;
    } else {
      var n := |b| - 1;
      assert (a + b)[..|a + b| - 1] == a + b[..n];
      assert (a + b)[|a + b| - 1] == b[n];
      CleanAllAppend(a, b[..n]);
    }
  }

  /** One piece is kept, cleaned, exactly when it is not blank. */
  lemma CleanAllSingle(piece: string)
    ensures CleanAll([piece]) == if CleanSymbol(piece).Some? then [CleanSymbol(piece).value] else []
  {
    assert [piece][..0] == [];
  }

  /** The stripped content split on ',' when it has a comma, else into lines. */
  function Pieces(content: string): (r: seq<string>)
    ensures ',' in Strip(content) ==> r == Split(Strip(content), ',')
    ensures ',' !in Strip(content) ==> r == SplitLines(Strip(content))
  {
    var c := Strip(content);
    if ',' in c then Split(c, ',') else SplitLines(c)
  }

  /**
   * load_symbols_from_file. `content` is the text read from the file, None
   * when opening or reading raises (the except clause returns []).
   */
  method LoadSymbolsFromFile(content: Option<string>) returns (symbols: seq<string>)
    ensures content.None? ==> symbols == []
    ensures content.Some? ==> symbols == CleanAll(Pieces(content.value))
    ensures forall i :: 0 <= i < |symbols| ==> ':' !in symbols[i] && '-' !in symbols[i]
  {
    if content.None? {
      return [];
    }
    var pieces := Pieces(content.value);
    symbols := [];
    var k := 0;
    while k < |pieces|
      invariant 0 <= k <= |pieces|
      invariant symbols == CleanAll(pieces[..k])
    {
      CleanAllStep(pieces, k);
      var sym := Strip(pieces[k]);
      if sym == [] {
        k := k + 1;
        continue;
      }
      if ':' in sym {
        sym := Split(sym, ':')[1];
      }
      if '-' in sym {
        sym := Split(sym, '-')[0];
      }
      assert CleanSymbol(pieces[k]) == Some(sym);
      symbols := symbols + [sym];
      k := k + 1;
    }
    assert pieces[..k] == pieces;
  }

  /** One more piece extends the cleaned prefix by that piece's cleaned symbol, if any. */
  lemma CleanAllStep(pieces: seq<string>, k: nat)
    requires k < |pieces|
    ensures var c := CleanSymbol(pieces[k]);
      CleanAll(pieces[..k + 1]) == CleanAll(pieces[..k]) + (if c.Some? then [c.value] else [])
  {
    assert pieces[..k + 1][..k] == pieces[..k];
    CleanAllSnoc(pieces[..k + 1]);
  }

  /** A symbol the tokenizer passes through untouched. */
  predicate Plain(s: string)
  {
    s != [] && forall k :: 0 <= k < |s| ==> !IsSpace(s[k]) && s[k] != ':' && s[k] != '-' && s[k] != ','
  }

  lemma PlainIsKept(s: string)
    requires Plain(s)
    ensures CleanSymbol(s) == Some(s)
  {
  }

  lemma PlainPiecesKept(pieces: seq<string>)
    requires forall i :: 0 <= i < |pieces| ==> Plain(pieces[i])
    ensures CleanAll(pieces) == pieces
  {
    forall i | 0 <= i < |pieces| ensures CleanSymbol(pieces[i]) == Some(pieces[i]) {
      PlainIsKept(pieces[i]);
    }
    KeptPiecesKept(pieces);
  }

  lemma CleanAllSnoc(pieces: seq<string>)
    requires pieces != []
    ensures var last := CleanSymbol(pieces[|pieces| - 1]);
      CleanAll(pieces) == CleanAll(pieces[..|pieces| - 1]) + (if last.Some? then [last.value] else [])
  {
  }

  /** Pieces the tokenizer keeps unchanged one by one are kept unchanged together. */
  lemma {:induction false} KeptPiecesKept(pieces: seq<string>)
    requires forall i :: 0 <= i < |pieces| ==> CleanSymbol(pieces[i]) == Some(pieces[i])
    ensures CleanAll(pieces) == pieces
  {
    if pieces != [] {
      var n := |pieces| - 1;
      var init := pieces[..n];
      KeptPiecesKept(init);
      CleanAllSnoc(pieces);
      assert CleanSymbol(pieces[n]) == Some(pieces[n]);
      LastSplit(pieces);
    }
  }

  /**
   * A file holding plain symbols separated by commas loads back to exactly
   * those symbols, in order.
   */
  lemma CommaSeparatedRoundTrip(symbols: seq<string>)
    requires |symbols| >= 1 && forall i :: 0 <= i < |symbols| ==> Plain(symbols[i])
    ensures CleanAll(Pieces(Join(symbols, ','))) == symbols
  {
    var content := Join(symbols, ',');
    JoinOfPlain(symbols);
    PiecesOfJoin(symbols, content);
    PlainPiecesKept(symbols);
  }

  /** Plain symbols joined by commas hold no whitespace and no line break. */
  lemma JoinOfPlain(symbols: seq<string>)
    requires |symbols| >= 1 && forall i :: 0 <= i < |symbols| ==> Plain(symbols[i])
    ensures var content := Join(symbols, ',');
      Strip(content) == content && forall k :: 0 <= k < |content| ==> !IsLineBreak(content[k])
  {
    var content := Join(symbols, ',');
    forall k | 0 <= k < |content| ensures !IsSpace(content[k]) && !IsLineBreak(content[k]) {
      JoinChars(symbols, ',', content[k]);
    }
  }

  lemma PiecesOfJoin(symbols: seq<string>, content: string)
    requires |symbols| >= 1 && forall i :: 0 <= i < |symbols| ==> Plain(symbols[i])
    requires content == Join(symbols, ',') && Strip(content) == content
    requires forall k :: 0 <= k < |content| ==> !IsLineBreak(content[k])
    ensures Pieces(content) == symbols
  {
    if |symbols| >= 2 {
      FirstSeparator(symbols, ',');
      assert content[|symbols[0]|] == ',';
      SplitJoin(symbols, ',');
    } else {
      assert content == symbols[0];
      assert ',' !in content;
      assert SplitLines(content) == [content];
      assert [symbols[0]] == symbols;
    }
  }

  /** An exchange prefix with nothing after the colon still yields an empty symbol. */
  lemma BarePrefixYieldsEmpty()
    ensures CleanSymbol("NSE:") == Some("")
  {
    var s := "NSE:";
    assert forall k :: 0 <= k < |s| ==> !IsSpace(s[k]);
    assert Strip(s) == s;
    assert ':' in s && '-' !in "";
    assert Join(["NSE", ""], ':') == s;
    SplitJoin(["NSE", ""], ':');
  }

  /** A series suffix with nothing before the dash yields an empty symbol too. */
  lemma BareSuffixYieldsEmpty()
    ensures CleanSymbol("-EQ") == Some("")
  {
    var s := "-EQ";
    assert forall k :: 0 <= k < |s| ==> !IsSpace(s[k]);
    assert Strip(s) == s;
    assert ':' !in s && '-' in s;
    assert Join(["", "EQ"], '-') == s;
    SplitJoin(["", "EQ"], '-');
  }

  // ---------------------------------------------------------------- skip and limit

  /**
   * --skip and --limit in main: None when a positive skip reaches the end of
   * the list (the program exits); otherwise symbols[skip:] for a positive
   * skip, cut to the first `limit` when 0 < limit < the remaining length.
   */
  function SkipLimit(symbols: seq<string>, skip: int, limit: Option<int>): (r: Option<seq<string>>)
    ensures r.None? <==> skip > 0 && skip >= |symbols|
    ensures r.Some? ==>
      var start := if skip > 0 then skip else 0;
      var rest := |symbols| - start;
      var n := if limit.Some? && 0 < limit.value < rest then limit.value else rest;
      start + n <= |symbols| && r.value == symbols[start..start + n]
    ensures r.Some? && symbols != [] ==> r.value != []
  {
    if skip > 0 && skip >= |symbols| then None
    else
      var skipped := if skip > 0 then symbols[skip..] else symbols;
      Some(if limit.Some? && 0 < limit.value < |skipped| then skipped[..limit.value] else skipped)
  }

  // ---------------------------------------------------------------- run_analysis

  /** One call of the analyzer: a result dictionary, or an exception with its message. */
  datatype Call = Returned(result: StockAnalyzer.AnalysisResult) | Raised(message: string)

  /** "rate limit" in result["error"].lower() */
  predicate RateLimitedResult(error: string)
  {
    Contains(Lower(error), "rate limit")
  }

  /** "too many requests" or "rate limit" in str(e).lower() */
  predicate RateLimitedException(message: string)
  {
    Contains(Lower(message), "too many requests") || Contains(Lower(message), "rate limit")
  }

  /** A returned error naming a rate limit, in any capitalisation and anywhere, is retried. */
  lemma RateLimitedResultDetected(before: string, phrase: string, after: string)
    requires Lower(phrase) == "rate limit"
    ensures RateLimitedResult(before + phrase + after)
  {
    LowerAppend(before + phrase, after);
    LowerAppend(before, phrase);
    ContainsInside(Lower(before), Lower(phrase), Lower(after));
  }

  /** An exception naming either phrase, in any capitalisation and anywhere, is retried. */
  lemma RateLimitedExceptionDetected(before: string, phrase: string, after: string)
    requires Lower(phrase) == "too many requests" || Lower(phrase) == "rate limit"
    ensures RateLimitedException(before + phrase + after)
  {
    LowerAppend(before + phrase, after);
    LowerAppend(before, phrase);
    ContainsInside(Lower(before), Lower(phrase), Lower(after));
  }

  /**
   * The effect of one symbol's retry loop: the last result it stores (None
   * when it stores nothing), the analyzer calls made, the increments of the
   * three counters and the number of retry_delay sleeps.
   */
  datatype SymbolRun = SymbolRun(stored: Option<StockAnalyzer.AnalysisResult>, calls: nat,
                                 successes: nat, rateLimits: nat, others: nat, retrySleeps: nat)

  const NoRun := SymbolRun(None, 0, 0, 0, 0, 0)

  /**
   * The retry loop of symbol number i from retry_count == attempt on, where
   * calls(i, attempt) is what the analyzer does on that attempt.
   */
  function Attempts(calls: (nat, nat) -> Call, i: nat, attempt: nat, maxRetries: int): (r: SymbolRun)
    ensures attempt as int > maxRetries ==> r == NoRun
    ensures r.calls as int <= if attempt as int > maxRetries then 0 else maxRetries + 1 - attempt
    ensures r.successes + r.others <= 1
    ensures r.retrySleeps <= r.calls
    ensures attempt as int <= maxRetries ==> r.stored.Some?
    ensures r.successes == 1 ==> r.stored.Some? && r.stored.value.Analyzed?
    decreases maxRetries + 1 - attempt
  {
    if attempt as int > maxRetries then NoRun
    else AttemptOutcome(calls(i, attempt), attempt as int < maxRetries, Attempts(calls, i, attempt + 1, maxRetries))
  }

  /**
   * One pass of the loop body given what the analyzer does, whether a retry
   * after an exception is still allowed, and the run of the later attempts.
   */
  function AttemptOutcome(call: Call, retryAllowed: bool, rest: SymbolRun): (r: SymbolRun)
    ensures r.calls == rest.calls + 1 || r.calls == 1
    ensures r.successes + r.others <= 1 || r.successes + r.others == rest.successes + rest.others
    ensures r.stored.None? ==> r.stored == rest.stored
  {
    match call
    case Returned(result) =>
      if result.Analyzed? then SymbolRun(Some(result), 1, 1, 0, 0, 0)
      else if RateLimitedResult(result.error) then
        SymbolRun(if rest.stored.Some? then rest.stored else Some(result),
                  rest.calls + 1, rest.successes, rest.rateLimits + 1, rest.others, rest.retrySleeps + 1)
      else SymbolRun(Some(result), 1, 0, 0, 1, 0)
    case Raised(message) =>
      if RateLimitedException(message) && retryAllowed then
        SymbolRun(rest.stored, rest.calls + 1, rest.successes, rest.rateLimits + 1, rest.others, rest.retrySleeps + 1)
      else
        SymbolRun(Some(StockAnalyzer.Failed(message)), 1, 0, if RateLimitedException(message) then 1 else 0, 1, 0)
  }

  /**
   * all_results, the three counters, and the virtual clock: the number of
   * retry_delay sleeps and of other_delay sleeps taken.
   */
  datatype Tally = Tally(results: map<string, StockAnalyzer.AnalysisResult>, successful: nat,
                         rateLimited: nat, otherErrors: nat, retrySleeps: nat, otherSleeps: nat)

  /** The seconds the run spends sleeping. */
  function SleptSeconds(t: Tally, retryDelay: real, otherDelay: real): real
  {
    t.retrySleeps as real * retryDelay + t.otherSleeps as real * otherDelay
  }

  /** A symbol's run added to the tally, with the other_delay sleep that follows it. */
  function Combine(t: Tally, symbol: string, run: SymbolRun): Tally
  {
    Tally(if run.stored.Some? then t.results[symbol := run.stored.value] else t.results,
          t.successful + run.successes, t.rateLimited + run.rateLimits, t.otherErrors + run.others,
          t.retrySleeps + run.retrySleeps, t.otherSleeps + 1)
  }

  /** The tally after the first n symbols. */
  function Run(symbols: seq<string>, n: nat, calls: (nat, nat) -> Call, maxRetries: int): (t: Tally)
    requires n <= |symbols|
    ensures forall s :: s in t.results ==> s in symbols[..n]
    ensures maxRetries >= 0 ==> forall s :: s in symbols[..n] ==> s in t.results
    ensures t.successful + t.otherErrors <= n
    ensures t.otherSleeps == n
  {
    if n == 0 then Tally(map[], 0, 0, 0, 0, 0)
    else
      var prev := Run(symbols, n - 1, calls, maxRetries);
      assert symbols[..n] == symbols[..n - 1] + [symbols[n - 1]];
      Combine(prev, symbols[n - 1], Attempts(calls, n - 1, 0, maxRetries))
  }

  /**
   * The retry loop of run_analysis for symbol number i: the analyzer result
   * is stored and counted; a rate-limit result or exception sleeps
   * retry_delay and retries while retry_count <= max_retries (an exception
   * only while retry_count < max_retries); anything else stops the loop.
   */
  method RetrySymbol(tally: Tally, symbol: string, i: nat, calls: (nat, nat) -> Call, maxRetries: int)
    returns (after: Tally, ghost made: nat)
    ensures Combine(after, symbol, NoRun) ==
      Combine(tally, symbol, Attempts(calls, i, 0, maxRetries))
    ensures made == Attempts(calls, i, 0, maxRetries).calls
  {
    ghost var target := Combine(tally, symbol, Attempts(calls, i, 0, maxRetries));
    after := tally;
    made := 0;
    var retryCount := 0;
    while retryCount as int <= maxRetries
      invariant Combine(after, symbol, Attempts(calls, i, retryCount, maxRetries)) == target
      invariant made + Attempts(calls, i, retryCount, maxRetries).calls == Attempts(calls, i, 0, maxRetries).calls
      decreases maxRetries + 1 - retryCount
    {
      ghost var rest := Attempts(calls, i, retryCount + 1, maxRetries);
      var retry;
      after, retry := AttemptOnce(after, symbol, calls(i, retryCount), retryCount as int < maxRetries, rest);
      made := made + 1;
      if !retry {
        break;
      }
      retryCount := retryCount + 1;
    }
  }

  /**
   * One pass of the retry loop's body on the analyzer's call, with the run
   * of the later attempts as `rest`: whether the loop goes on, and the tally
   * that together with `rest` (or, when it stops, alone) makes up the
   * symbol's run from this attempt on.
   */
  method AttemptOnce(after: Tally, symbol: string, call: Call, retryAllowed: bool, ghost rest: SymbolRun)
    returns (next: Tally, retry: bool)
    ensures var here := AttemptOutcome(call, retryAllowed, rest);
      && (retry ==> Combine(next, symbol, rest) == Combine(after, symbol, here) && here.calls == rest.calls + 1)
      && (!retry ==> Combine(next, symbol, NoRun) == Combine(after, symbol, here) && here.calls == 1)
  {
    ghost var here := AttemptOutcome(call, retryAllowed, rest);
    match call
    case Returned(result) =>
      if result.Analyzed? {
        AnalyzedStops(after, symbol, result);
        next, retry := after.(results := after.results[symbol := result], successful := after.successful + 1), false;
      } else if RateLimitedResult(result.error) {
        LimitedResultRetries(after, symbol, result, rest);
        next := after.(results := after.results[symbol := result], rateLimited := after.rateLimited + 1,
                       retrySleeps := after.retrySleeps + 1);
        retry := true;
      } else {
        OtherStops(after, symbol, result);
        next, retry := after.(results := after.results[symbol := result], otherErrors := after.otherErrors + 1), false;
      }
    case Raised(message) =>
      if RateLimitedException(message) && retryAllowed {
        RaisedRetries(after, symbol, rest);
        next, retry := after.(rateLimited := after.rateLimited + 1, retrySleeps := after.retrySleeps + 1), true;
      } else {
        var limited := if RateLimitedException(message) then 1 else 0;
        RaisedStops(after, symbol, StockAnalyzer.Failed(message), limited);
        next := after.(results := after.results[symbol := StockAnalyzer.Failed(message)],
                       rateLimited := after.rateLimited + limited, otherErrors := after.otherErrors + 1);
        retry := false;
      }
  }

  // One lemma per exit of the loop body: the tally it leaves, combined with
  // what remains of the run, is the tally before it combined with the run
  // from this attempt on.

  lemma AnalyzedStops(after: Tally, symbol: string, result: StockAnalyzer.AnalysisResult)
    ensures Combine(after.(results := after.results[symbol := result], successful := after.successful + 1), symbol, NoRun)
      == Combine(after, symbol, SymbolRun(Some(result), 1, 1, 0, 0, 0))
  {
  }

  lemma OtherStops(after: Tally, symbol: string, result: StockAnalyzer.AnalysisResult)
    ensures Combine(after.(results := after.results[symbol := result], otherErrors := after.otherErrors + 1), symbol, NoRun)
      == Combine(after, symbol, SymbolRun(Some(result), 1, 0, 0, 1, 0))
  {
  }

  lemma RaisedStops(after: Tally, symbol: string, failed: StockAnalyzer.AnalysisResult, limited: nat)
    ensures Combine(after.(results := after.results[symbol := failed], rateLimited := after.rateLimited + limited,
                           otherErrors := after.otherErrors + 1), symbol, NoRun)
      == Combine(after, symbol, SymbolRun(Some(failed), 1, 0, limited, 1, 0))
  {
  }

  lemma LimitedResultRetries(after: Tally, symbol: string, result: StockAnalyzer.AnalysisResult, rest: SymbolRun)
    ensures Combine(after.(results := after.results[symbol := result], rateLimited := after.rateLimited + 1,
                           retrySleeps := after.retrySleeps + 1), symbol, rest)
      == Combine(after, symbol, SymbolRun(if rest.stored.Some? then rest.stored else Some(result), rest.calls + 1,
                                          rest.successes, rest.rateLimits + 1, rest.others, rest.retrySleeps + 1))
  {
    if rest.stored.Some? {
      Overwrite(after.results, symbol, result, rest.stored.value);
    }
  }

  lemma RaisedRetries(after: Tally, symbol: string, rest: SymbolRun)
    ensures Combine(after.(rateLimited := after.rateLimited + 1, retrySleeps := after.retrySleeps + 1), symbol, rest)
      == Combine(after, symbol, SymbolRun(rest.stored, rest.calls + 1, rest.successes, rest.rateLimits + 1,
                                          rest.others, rest.retrySleeps + 1))
  {
  }

  /** Storing twice under one key keeps the second value. */
  lemma Overwrite<K, V>(m: map<K, V>, k: K, first: V, second: V)
    ensures m[k := first][k := second] == m[k := second]
  {
  }

  /**
   * run_analysis with the configured delays and retry limit. The analyzer it
   * calls is calls(i, retry_count); instead of sleeping it counts the
   * sleeps of each kind (see SleptSeconds). Writing CSV and JSON output is left out.
   */
  method RunAnalysis(symbols: seq<string>, calls: (nat, nat) -> Call, maxRetries: int)
    returns (tally: Tally)
    ensures tally == Run(symbols, |symbols|, calls, maxRetries)
  {
    tally := Tally(map[], 0, 0, 0, 0, 0);
    var i := 0;
    while i < |symbols|
      invariant 0 <= i <= |symbols|
      invariant tally == Run(symbols, i, calls, maxRetries)
    {
      ghost var next := Combine(tally, symbols[i], Attempts(calls, i, 0, maxRetries));
      assert next == Run(symbols, i + 1, calls, maxRetries);
      var after, made := RetrySymbol(tally, symbols[i], i, calls, maxRetries);
      tally := after.(otherSleeps := after.otherSleeps + 1);
      assert tally == Combine(after, symbols[i], NoRun);
      i := i + 1;
    }
  }

  /** The analyzer is called at most max_retries + 1 times for a symbol (never for a negative limit). */
  lemma CallsPerSymbolBounded(calls: (nat, nat) -> Call, i: nat, maxRetries: int)
    ensures Attempts(calls, i, 0, maxRetries).calls as int <= if maxRetries < 0 then 0 else maxRetries + 1
  {
  }

  /**
   * Every symbol ends with an entry in all_results exactly when max_retries
   * is non-negative, and successes plus other errors never exceed the number
   * of symbols.
   */
  lemma ResultsCoverSymbols(symbols: seq<string>, calls: (nat, nat) -> Call, maxRetries: int)
    ensures var t := Run(symbols, |symbols|, calls, maxRetries);
      && (maxRetries >= 0 ==> forall s :: s in t.results <==> s in symbols)
      && (maxRetries < 0 ==> t.results == map[])
      && t.successful + t.otherErrors <= |symbols|
  {
    var t := Run(symbols, |symbols|, calls, maxRetries);
    assert symbols[..|symbols|] == symbols;
    if maxRetries < 0 {
      NoEntriesWithoutAttempts(symbols, |symbols|, calls, maxRetries);
    }
  }

  lemma {:induction false} NoEntriesWithoutAttempts(symbols: seq<string>, n: nat, calls: (nat, nat) -> Call,
                                                    maxRetries: int)
    requires n <= |symbols| && maxRetries < 0
    ensures Run(symbols, n, calls, maxRetries).results == map[]
  {
    if n > 0 {
      NoEntriesWithoutAttempts(symbols, n - 1, calls, maxRetries);
    }
  }

  /**
   * A rate-limit error *returned* on every attempt is counted max_retries + 1
   * times as rate limited and in neither successful nor other; the entry is
   * the last error, and the loop sleeps after the final attempt too.
   */
  lemma {:induction false} ReturnedRateLimitExhausts(calls: (nat, nat) -> Call, i: nat, attempt: nat, maxRetries: int)
    requires attempt as int <= maxRetries + 1
    requires forall k: nat :: attempt <= k && k as int <= maxRetries ==>
      calls(i, k).Returned? && calls(i, k).result.Failed? && RateLimitedResult(calls(i, k).result.error)
    ensures var r := Attempts(calls, i, attempt, maxRetries);
      && r.successes == 0 && r.others == 0
      && r.rateLimits == maxRetries + 1 - attempt
      && r.retrySleeps == maxRetries + 1 - attempt
      && (attempt as int <= maxRetries ==> r.stored == Some(calls(i, maxRetries as nat).result))
    decreases maxRetries + 1 - attempt
  {
    if attempt as int <= maxRetries {
      ReturnedRateLimitExhausts(calls, i, attempt + 1, maxRetries);
    }
  }

  /**
   * A rate-limit exception *raised* on the last attempt is counted both as
   * rate limited and as an other error, and stores {"error": message}.
   */
  lemma RaisedRateLimitOnLastAttempt(calls: (nat, nat) -> Call, i: nat, maxRetries: int)
    requires maxRetries >= 0
    requires calls(i, maxRetries as nat).Raised? && RateLimitedException(calls(i, maxRetries as nat).message)
    ensures Attempts(calls, i, maxRetries as nat, maxRetries) ==
      SymbolRun(Some(StockAnalyzer.Failed(calls(i, maxRetries as nat).message)), 1, 0, 1, 1, 0)
  {
  }
}
