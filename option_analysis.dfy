// core/analysis/option_analysis.py: the option type choice, strike
// selection (ATM, OTM or ITM neighbour), the max-pain minimiser, option
// price estimates and the contract symbol.
module OptionAnalysis {
  import opened Common
  import opened Sequences
  import Helpers

  /** One row of the option chain DataFrame built by fetch_option_chain. */
  datatype OptionRow = OptionRow(strike: real, optionType: string, iv: real, volume: real,
                                 openInterest: real, lastPrice: real, symbol: string, expiry: string)

  /** The chain with the set of its column names (only "symbol" and "expiry" are ever tested). */
  datatype OptionChain = OptionChain(columns: set<string>, rows: seq<OptionRow>)

  function StrikesOf(rows: seq<OptionRow>): (r: seq<real>)
    ensures |r| == |rows| && forall i :: 0 <= i < |rows| ==> r[i] == rows[i].strike
  {
    seq(|rows|, i requires 0 <= i < |rows| => rows[i].strike)
  }

  /** chain[chain["type"] == t]: the rows of one option type, in chain order. */
  function RowsOfType(rows: seq<OptionRow>, t: string): (r: seq<OptionRow>)
    ensures forall x :: x in r <==> x in rows && x.optionType == t
  {
    if rows == [] then []
    else (if rows[0].optionType == t then [rows[0]] else []) + RowsOfType(rows[1..], t)
  }

  /** Filtering a concatenation filters each part on its own, keeping the chain order and every duplicate. */
  lemma {:induction false} RowsOfTypeAppend(a: seq<OptionRow>, b: seq<OptionRow>, t: string)
    ensures RowsOfType(a + b, t) == RowsOfType(a, t) + RowsOfType(b, t)
  {
    if a == [] {
      assert a + b == b;
    } else {
      assert (a + b)[0] == a[0] && (a + b)[1..] == a[1..] + b;
      RowsOfTypeAppend(a[1..], b, t);
    }
  }

  /** On one row the filter keeps it exactly when it has the type. */
  lemma RowsOfTypeSingle(x: OptionRow, t: string)
    ensures RowsOfType([x], t) == if x.optionType == t then [x] else []
  {
    assert [x][1..] == [];
  }

  // ---------------------------------------------------------------- sorted unique strikes

  predicate StrictlySorted(s: seq<real>)
  {
    forall i, j :: 0 <= i < j < |s| ==> s[i] < s[j]
  }

  /** Drop the repeats of a sorted sequence. */
  function Dedup(s: seq<real>): (r: seq<real>)
    requires Sorted(s)
    ensures StrictlySorted(r)
    ensures forall x :: x in r <==> x in s
    ensures s != [] ==> r != [] && r[0] == s[0]
  {
    if |s| <= 1 then s
    else if s[0] == s[1] then
      var r := Dedup(s[1..]);
      assert forall x :: x in s <==> x in s[1..] by { assert s == [s[0]] + s[1..]; }
      r
    else
      var rest := Dedup(s[1..]);
      assert forall x :: x in s[1..] ==> s[0] < x;
      assert forall x :: x in s <==> x == s[0] || x in s[1..] by { assert s == [s[0]] + s[1..]; }
      [s[0]] + rest
  }

  /** sorted(x.unique()): the distinct values in ascending order. */
  function SortedUnique(xs: seq<real>): (r: seq<real>)
    ensures StrictlySorted(r)
    ensures forall x :: x in r <==> x in xs
    ensures xs != [] ==> r != []
  {
    var s := SortAscending(xs);
    assert forall x :: x in s <==> x in xs by {
      forall x ensures x in s <==> x in xs {
        assert x in s <==> x in multiset(s);
        assert x in xs <==> x in multiset(xs);
      }
    }
    Dedup(s)
  }

  // ---------------------------------------------------------------- strike selection

  /** numpy argmin of |strikes - price| over the first n strikes: the first minimiser. */
  function NearestBelow(strikes: seq<real>, price: real, n: nat): (r: nat)
    requires 1 <= n <= |strikes|
    ensures r < n
    ensures forall j :: 0 <= j < n ==> Abs(strikes[r] - price) <= Abs(strikes[j] - price)
    ensures forall j :: 0 <= j < r ==> Abs(strikes[r] - price) < Abs(strikes[j] - price)
  {
    if n == 1 then 0
    else
      var best := NearestBelow(strikes, price, n - 1);
      if Abs(strikes[n - 1] - price) < Abs(strikes[best] - price) then n - 1 else best
  }

  function NearestIndex(strikes: seq<real>, price: real): (r: nat)
    requires strikes != []
    ensures r < |strikes|
    ensures forall j :: 0 <= j < |strikes| ==> Abs(strikes[r] - price) <= Abs(strikes[j] - price)
    ensures forall j :: 0 <= j < r ==> Abs(strikes[r] - price) < Abs(strikes[j] - price)
  {
    NearestBelow(strikes, price, |strikes|)
  }

  /** The ATM row's implied volatility is high or its volume thin. */
  predicate Illiquid(row: OptionRow)
  {
    row.iv > 80.0 || row.volume < 50.0
  }

  /** The strike a Python round(price / 5) * 5 gives. */
  function RoundedToFive(price: real): (r: real)
    ensures IsWhole(r / 5.0)
    ensures Abs(r - price) <= 2.5
  {
    var q := price / 5.0;
    var n := RoundHalfEven(q);
    var r := (n * 5) as real;
    assert r == 5.0 * n as real;
    assert r / 5.0 == n as real;
    assert price == 5.0 * q;
    assert r - price == 5.0 * (n as real - q);
    AbsScale(n as real - q, 5.0);
    r
  }

  lemma AbsScale(x: real, c: real)
    requires c > 0.0
    ensures Abs(c * x) == c * Abs(x)
  {
    if x < 0.0 {
      assert c * x < 0.0;
    } else {
      assert c * x >= 0.0;
    }
  }

  /** The first row (of the filtered chain) carrying a given strike. */
  function FirstRowAt(rows: seq<OptionRow>, strike: real): (r: OptionRow)
    requires strike in StrikesOf(rows)
    ensures r in rows && r.strike == strike
    ensures rows[0].strike == strike ==> r == rows[0]
  {
    if rows[0].strike == strike then rows[0]
    else
      assert strike in StrikesOf(rows[1..]) by {
        var j :| 0 <= j < |rows| && StrikesOf(rows)[j] == strike;
        assert StrikesOf(rows[1..])[j - 1] == strike;
      }
      FirstRowAt(rows[1..], strike)
  }

  /** FirstRowAt is `.iloc[0]` of the strike filter: the row at the least index carrying the strike. */
  lemma {:induction false} FirstRowAtIsFirst(rows: seq<OptionRow>, strike: real, j: nat)
    requires j < |rows| && rows[j].strike == strike
    requires forall i :: 0 <= i < j ==> rows[i].strike != strike
    ensures strike in StrikesOf(rows) && FirstRowAt(rows, strike) == rows[j]
  {
    assert StrikesOf(rows)[j] == strike;
    if j > 0 {
      FirstRowAtIsFirst(rows[1..], strike, j - 1);
    }
  }

  /**
   * _select_strike. Without rows of the type: round(price / 5) * 5, "ATM".
   * Otherwise, from the sorted distinct strikes of that type and the index of
   * the nearest one: CE takes the next higher strike and PE the next lower
   * (OTM), ATM when there is none; if the first ATM row is illiquid, CE moves
   * to the strike below ATM and PE to the one above (ITM), when it exists.
   */
  function SelectStrike(chain: Option<seq<OptionRow>>, price: real, optionType: string): (r: (real, string))
    ensures chain.None? ==> r == (0.0, "Unknown")
    ensures chain.Some? && RowsOfType(chain.value, optionType) == [] ==> r == (RoundedToFive(price), "ATM")
    ensures chain.Some? && RowsOfType(chain.value, optionType) != [] ==>
      r.0 in StrikesOf(RowsOfType(chain.value, optionType)) && r.1 in {"OTM", "ATM", "ITM"}
  {
    if chain.None? then (0.0, "Unknown")
    else
      var filtered := RowsOfType(chain.value, optionType);
      if filtered == [] then (RoundedToFive(price), "ATM")
      else
        var strikes := SortedUnique(StrikesOf(filtered));
        var nearest := NearestIndex(strikes, price);
        StrikeChoice(strikes, nearest, optionType, Illiquid(FirstRowAt(filtered, strikes[nearest])))
  }

  /**
   * The choice among the sorted distinct strikes once the ATM index k is
   * known: the OTM neighbour (up for CE, down otherwise) or ATM without one,
   * overridden for an illiquid ATM row by the ITM neighbour when it exists.
   */
  function StrikeChoice(strikes: seq<real>, k: nat, optionType: string, illiquid: bool): (r: (real, string))
    requires k < |strikes|
    ensures r.1 == "ATM" ==> r.0 == strikes[k] && (optionType == "CE" ==> k + 1 == |strikes|) && (optionType != "CE" ==> k == 0)
    ensures r.1 == "OTM" && optionType == "CE" ==> k + 1 < |strikes| && r.0 == strikes[k + 1]
    ensures r.1 == "OTM" && optionType != "CE" ==> k > 0 && r.0 == strikes[k - 1]
    ensures r.1 == "ITM" ==> illiquid
    ensures r.1 == "ITM" && optionType == "CE" ==> k > 0 && r.0 == strikes[k - 1]
    ensures r.1 == "ITM" && optionType != "CE" ==> k + 1 < |strikes| && r.0 == strikes[k + 1]
    ensures illiquid && optionType == "CE" && k > 0 ==> r == (strikes[k - 1], "ITM")
    ensures illiquid && optionType == "PE" && k + 1 < |strikes| ==> r == (strikes[k + 1], "ITM")
    ensures r.1 != "ITM" && optionType == "CE" && k + 1 < |strikes| ==> r == (strikes[k + 1], "OTM")
    ensures r.1 != "ITM" && optionType != "CE" && k > 0 ==> r == (strikes[k - 1], "OTM")
    ensures r.1 in {"OTM", "ATM", "ITM"}
  {
    var otm :=
      if optionType == "CE" then
        if k + 1 < |strikes| then (strikes[k + 1], "OTM") else (strikes[k], "ATM")
      else
        if k > 0 then (strikes[k - 1], "OTM") else (strikes[k], "ATM");
    if illiquid then
      if optionType == "CE" && k > 0 then (strikes[k - 1], "ITM")
      else if optionType == "PE" && k + 1 < |strikes| then (strikes[k + 1], "ITM")
      else otm
    else otm
  }

  /** In strictly sorted strikes, the first nearest index is the lowest nearest strike. */
  lemma NearestIsLowest(strikes: seq<real>, price: real, x: real)
    requires strikes != [] && StrictlySorted(strikes) && x in strikes
    ensures Abs(strikes[NearestIndex(strikes, price)] - price) <= Abs(x - price)
    ensures x < strikes[NearestIndex(strikes, price)] ==>
      Abs(strikes[NearestIndex(strikes, price)] - price) < Abs(x - price)
  {
    var j :| 0 <= j < |strikes| && strikes[j] == x;
  }

  /** The ATM strike of the rows of one type: the lowest strike nearest to the price. */
  function AtmStrike(filtered: seq<OptionRow>, price: real): (atm: real)
    requires filtered != []
    ensures atm in StrikesOf(filtered)
    ensures forall i :: 0 <= i < |filtered| ==> Abs(atm - price) <= Abs(filtered[i].strike - price)
    ensures forall i :: 0 <= i < |filtered| && filtered[i].strike < atm ==>
      Abs(atm - price) < Abs(filtered[i].strike - price)
  {
    var strikes := SortedUnique(StrikesOf(filtered));
    var atm := strikes[NearestIndex(strikes, price)];
    forall i | 0 <= i < |filtered|
      ensures Abs(atm - price) <= Abs(filtered[i].strike - price)
      ensures filtered[i].strike < atm ==> Abs(atm - price) < Abs(filtered[i].strike - price)
    {
      assert StrikesOf(filtered)[i] in StrikesOf(filtered);
      NearestIsLowest(strikes, price, filtered[i].strike);
    }
    atm
  }

  /** hi is the next strike above lo: no strike lies strictly between them. */
  ghost predicate NextAbove(rows: seq<OptionRow>, lo: real, hi: real)
  {
    lo < hi && hi in StrikesOf(rows) && forall i :: 0 <= i < |rows| ==> !(lo < rows[i].strike < hi)
  }

  lemma Neighbours(rows: seq<OptionRow>, strikes: seq<real>, k: nat)
    requires StrictlySorted(strikes) && forall x :: x in strikes <==> x in StrikesOf(rows)
    requires k + 1 < |strikes|
    ensures NextAbove(rows, strikes[k], strikes[k + 1])
  {
    forall i | 0 <= i < |rows|
      ensures !(strikes[k] < rows[i].strike < strikes[k + 1])
    {
      assert StrikesOf(rows)[i] in StrikesOf(rows);
      var j :| 0 <= j < |strikes| && strikes[j] == rows[i].strike;
    }
  }

  /** The strikes of the selected type, with the ATM index, as SelectStrike computes them. */
  lemma SelectStrikeIsChoice(rows: seq<OptionRow>, price: real, optionType: string)
    requires RowsOfType(rows, optionType) != []
    ensures var filtered := RowsOfType(rows, optionType);
      var strikes := SortedUnique(StrikesOf(filtered));
      var k := NearestIndex(strikes, price);
      && strikes[k] == AtmStrike(filtered, price)
      && SelectStrike(Some(rows), price, optionType) == StrikeChoice(strikes, k, optionType, Illiquid(FirstRowAt(filtered, strikes[k])))
  {
  }

  /** ATM only when there is no strike on the OTM side (above for a call, below otherwise). */
  lemma SelectedAtm(rows: seq<OptionRow>, price: real, optionType: string)
    requires RowsOfType(rows, optionType) != []
    ensures var filtered := RowsOfType(rows, optionType);
      var atm := AtmStrike(filtered, price);
      var r := SelectStrike(Some(rows), price, optionType);
      r.1 == "ATM" ==>
        && r.0 == atm
        && (optionType == "CE" ==> forall i :: 0 <= i < |filtered| ==> filtered[i].strike <= atm)
        && (optionType != "CE" ==> forall i :: 0 <= i < |filtered| ==> filtered[i].strike >= atm)
  {
    SelectStrikeIsChoice(rows, price, optionType);
    var filtered := RowsOfType(rows, optionType);
    var strikes := SortedUnique(StrikesOf(filtered));
    var k := NearestIndex(strikes, price);
    var r := StrikeChoice(strikes, k, optionType, Illiquid(FirstRowAt(filtered, strikes[k])));
    ChoiceAtm(filtered, strikes, k, optionType, Illiquid(FirstRowAt(filtered, strikes[k])));
    assert SelectStrike(Some(rows), price, optionType) == r;
  }

  lemma ChoiceAtm(filtered: seq<OptionRow>, strikes: seq<real>, k: nat, optionType: string, illiquid: bool)
    requires StrictlySorted(strikes) && forall x :: x in strikes <==> x in StrikesOf(filtered)
    requires k < |strikes|
    ensures var r := StrikeChoice(strikes, k, optionType, illiquid);
      r.1 == "ATM" ==>
        && r.0 == strikes[k]
        && (optionType == "CE" ==> forall i :: 0 <= i < |filtered| ==> filtered[i].strike <= strikes[k])
        && (optionType != "CE" ==> forall i :: 0 <= i < |filtered| ==> filtered[i].strike >= strikes[k])
  {
    var r := StrikeChoice(strikes, k, optionType, illiquid);
    if r.1 == "ATM" {
      forall i | 0 <= i < |filtered|
        ensures optionType == "CE" ==> filtered[i].strike <= strikes[k]
        ensures optionType != "CE" ==> filtered[i].strike >= strikes[k]
      {
        assert StrikesOf(filtered)[i] in StrikesOf(filtered);
        var j :| 0 <= j < |strikes| && strikes[j] == filtered[i].strike;
      }
    }
  }

  /** OTM is the next strike up for a call and the next strike down otherwise. */
  lemma SelectedOtm(rows: seq<OptionRow>, price: real, optionType: string)
    requires RowsOfType(rows, optionType) != []
    ensures var filtered := RowsOfType(rows, optionType);
      var atm := AtmStrike(filtered, price);
      var r := SelectStrike(Some(rows), price, optionType);
      && (r.1 == "OTM" && optionType == "CE" ==> NextAbove(filtered, atm, r.0))
      && (r.1 == "OTM" && optionType != "CE" ==> NextAbove(filtered, r.0, atm))
  {
    SelectStrikeIsChoice(rows, price, optionType);
    var filtered := RowsOfType(rows, optionType);
    var strikes := SortedUnique(StrikesOf(filtered));
    var k := NearestIndex(strikes, price);
    ChoiceOtm(filtered, strikes, k, optionType, Illiquid(FirstRowAt(filtered, strikes[k])));
  }

  lemma ChoiceOtm(filtered: seq<OptionRow>, strikes: seq<real>, k: nat, optionType: string, illiquid: bool)
    requires StrictlySorted(strikes) && forall x :: x in strikes <==> x in StrikesOf(filtered)
    requires k < |strikes|
    ensures var r := StrikeChoice(strikes, k, optionType, illiquid);
      && (r.1 == "OTM" && optionType == "CE" ==> NextAbove(filtered, strikes[k], r.0))
      && (r.1 == "OTM" && optionType != "CE" ==> NextAbove(filtered, r.0, strikes[k]))
  {
    if k + 1 < |strikes| {
      Neighbours(filtered, strikes, k);
    }
    if k > 0 {
      Neighbours(filtered, strikes, k - 1);
    }
  }

  /**
   * ITM happens only for an illiquid ATM row; it is the next strike down for
   * a call and the next strike up for a put.
   */
  lemma SelectedItm(rows: seq<OptionRow>, price: real, optionType: string)
    requires RowsOfType(rows, optionType) != []
    ensures var filtered := RowsOfType(rows, optionType);
      var atm := AtmStrike(filtered, price);
      var r := SelectStrike(Some(rows), price, optionType);
      && (r.1 == "ITM" ==> Illiquid(FirstRowAt(filtered, atm)))
      && (r.1 == "ITM" && optionType == "CE" ==> NextAbove(filtered, r.0, atm))
      && (r.1 == "ITM" && optionType != "CE" ==> NextAbove(filtered, atm, r.0))
  {
    SelectStrikeIsChoice(rows, price, optionType);
    var filtered := RowsOfType(rows, optionType);
    var strikes := SortedUnique(StrikesOf(filtered));
    var k := NearestIndex(strikes, price);
    ChoiceItm(filtered, strikes, k, optionType, Illiquid(FirstRowAt(filtered, strikes[k])));
  }

  /**
   * An illiquid ATM row moves a call to the next strike down and a put to
   * the next strike up, tagged "ITM", whenever the chain has such a strike.
   */
  lemma IlliquidAtmMovesItm(rows: seq<OptionRow>, price: real, optionType: string, i: nat)
    requires RowsOfType(rows, optionType) != []
    requires var filtered := RowsOfType(rows, optionType);
      var atm := AtmStrike(filtered, price);
      && Illiquid(FirstRowAt(filtered, atm))
      && i < |filtered|
      && ((optionType == "CE" && filtered[i].strike < atm) || (optionType == "PE" && filtered[i].strike > atm))
    ensures var filtered := RowsOfType(rows, optionType);
      var atm := AtmStrike(filtered, price);
      var r := SelectStrike(Some(rows), price, optionType);
      && r.1 == "ITM"
      && (optionType == "CE" ==> NextAbove(filtered, r.0, atm))
      && (optionType == "PE" ==> NextAbove(filtered, atm, r.0))
  {
    SelectStrikeIsChoice(rows, price, optionType);
    var filtered := RowsOfType(rows, optionType);
    var strikes := SortedUnique(StrikesOf(filtered));
    var k := NearestIndex(strikes, price);
    ChoiceItmForward(filtered, strikes, k, optionType, i);
    ChoiceItm(filtered, strikes, k, optionType, true);
  }

  /** A strike of the chain on the ITM side of index k means the neighbour on that side exists. */
  lemma ChoiceItmForward(filtered: seq<OptionRow>, strikes: seq<real>, k: nat, optionType: string, i: nat)
    requires StrictlySorted(strikes) && forall x :: x in strikes <==> x in StrikesOf(filtered)
    requires k < |strikes| && i < |filtered|
    ensures optionType == "CE" && filtered[i].strike < strikes[k] ==> k > 0
    ensures optionType == "PE" && filtered[i].strike > strikes[k] ==> k + 1 < |strikes|
  {
    assert StrikesOf(filtered)[i] in StrikesOf(filtered);
    var j :| 0 <= j < |strikes| && strikes[j] == filtered[i].strike;
  }

  lemma ChoiceItm(filtered: seq<OptionRow>, strikes: seq<real>, k: nat, optionType: string, illiquid: bool)
    requires StrictlySorted(strikes) && forall x :: x in strikes <==> x in StrikesOf(filtered)
    requires k < |strikes|
    ensures var r := StrikeChoice(strikes, k, optionType, illiquid);
      && (r.1 == "ITM" ==> illiquid)
      && (r.1 == "ITM" && optionType == "CE" ==> NextAbove(filtered, r.0, strikes[k]))
      && (r.1 == "ITM" && optionType != "CE" ==> NextAbove(filtered, strikes[k], r.0))
  {
    if k + 1 < |strikes| {
      Neighbours(filtered, strikes, k);
    }
    if k > 0 {
      Neighbours(filtered, strikes, k - 1);
    }
  }

  // ---------------------------------------------------------------- max pain

  /**
   * How a row's loss at a settlement price is counted: AsWritten follows the
   * two branches of _calculate_max_pain; WriterPayout is what the writers
   * actually pay, max(0, S - K) per call and max(0, K - S) per put.
   */
  datatype PayoutRule = AsWritten | WriterPayout

  function RowLoss(row: OptionRow, settle: real, rule: PayoutRule): real
  {
    if row.optionType == "CE" then
      match rule
      case AsWritten => if settle > row.strike then 0.0 else (settle - row.strike) * row.openInterest
      case WriterPayout => if settle > row.strike then (settle - row.strike) * row.openInterest else 0.0
    else if row.optionType == "PE" then
      match rule
      case AsWritten => if settle < row.strike then 0.0 else (row.strike - settle) * row.openInterest
      case WriterPayout => if settle < row.strike then (row.strike - settle) * row.openInterest else 0.0
    else 0.0
  }

  /**
   * Under the writers'-payout rule a row costs its intrinsic value per unit
   * of open interest; as written, a call is charged minus the put's
   * intrinsic value at its strike and a put minus the call's.
   */
  lemma RowLossIsIntrinsic(row: OptionRow, settle: real)
    ensures row.optionType == "CE" || row.optionType == "PE" ==>
      RowLoss(row, settle, WriterPayout) == Intrinsic(row.optionType, settle, row.strike) * row.openInterest
    ensures row.optionType == "CE" ==>
      RowLoss(row, settle, AsWritten) == -Intrinsic("PE", settle, row.strike) * row.openInterest
    ensures row.optionType == "PE" ==>
      RowLoss(row, settle, AsWritten) == -Intrinsic("CE", settle, row.strike) * row.openInterest
    ensures row.optionType != "CE" && row.optionType != "PE" ==>
      RowLoss(row, settle, WriterPayout) == 0.0 && RowLoss(row, settle, AsWritten) == 0.0
  {
  }

  /** A row's share of the loss summed over the rows of type t. */
  function Contribution(row: OptionRow, settle: real, rule: PayoutRule, t: string): real
  {
    if row.optionType == t then RowLoss(row, settle, rule) else 0.0
  }

  /** The summed loss of the rows of one type. */
  function LossOfType(rows: seq<OptionRow>, settle: real, rule: PayoutRule, t: string): real
  {
    if rows == [] then 0.0
    else LossOfType(rows[..|rows| - 1], settle, rule, t) + Contribution(rows[|rows| - 1], settle, rule, t)
  }

  /** Only rows of type t enter their sum: a chain without such rows sums to 0. */
  lemma {:induction false} LossOfTypeOnlyItsType(rows: seq<OptionRow>, settle: real, rule: PayoutRule, t: string)
    requires forall i :: 0 <= i < |rows| ==> rows[i].optionType != t
    ensures LossOfType(rows, settle, rule, t) == 0.0
  {
    if rows != [] {
      var n := |rows| - 1;
      assert forall i :: 0 <= i < n ==> rows[..n][i] == rows[i];
      LossOfTypeOnlyItsType(rows[..n], settle, rule, t);
    }
  }

  /** total_loss at one strike: the calls, then the puts. */
  function TotalLoss(rows: seq<OptionRow>, settle: real, rule: PayoutRule): real
  {
    LossOfType(rows, settle, rule, "CE") + LossOfType(rows, settle, rule, "PE")
  }

  /** Under the writers'-payout rule the total at any settlement is non-negative for non-negative open interest. */
  lemma TotalPayoutNonNegative(rows: seq<OptionRow>, settle: real)
    requires forall i :: 0 <= i < |rows| ==> rows[i].openInterest >= 0.0
    ensures TotalLoss(rows, settle, WriterPayout) >= 0.0
  {
    WriterPayoutNonNegative(rows, settle, "CE");
    WriterPayoutNonNegative(rows, settle, "PE");
  }

  /**
   * s is the max-pain strike: a strike of the chain whose total loss is no
   * greater than at any strike, and strictly smaller than at every lower one.
   */
  ghost predicate IsMaxPain(rows: seq<OptionRow>, rule: PayoutRule, s: real)
  {
    && s in StrikesOf(rows)
    && (forall i :: 0 <= i < |rows| ==> TotalLoss(rows, s, rule) <= TotalLoss(rows, rows[i].strike, rule))
    && (forall i :: 0 <= i < |rows| && rows[i].strike < s ==>
          TotalLoss(rows, s, rule) < TotalLoss(rows, rows[i].strike, rule))
  }

  /** The two inner loops of _calculate_max_pain at one settlement strike. */
  method TotalLossAt(rows: seq<OptionRow>, settle: real, rule: PayoutRule) returns (total: real)
    ensures total == TotalLoss(rows, settle, rule)
  {
    total := 0.0;
    var i := 0;
    while i < |rows|
      invariant 0 <= i <= |rows|
      invariant total == LossOfType(rows[..i], settle, rule, "CE")
    {
      assert rows[..i + 1][..i] == rows[..i];
      if rows[i].optionType == "CE" {
        total := total + RowLoss(rows[i], settle, rule);
      }
      i := i + 1;
    }
    assert rows[..i] == rows;
    var j := 0;
    while j < |rows|
      invariant 0 <= j <= |rows|
      invariant total == LossOfType(rows, settle, rule, "CE") + LossOfType(rows[..j], settle, rule, "PE")
    {
      assert rows[..j + 1][..j] == rows[..j];
      if rows[j].optionType == "PE" {
        total := total + RowLoss(rows[j], settle, rule);
      }
      j := j + 1;
    }
    assert rows[..j] == rows;
  }

  /**
   * _calculate_max_pain: 0 for a missing or empty chain; otherwise the
   * sorted distinct strikes are scanned and a strictly smaller total loss
   * replaces the best so far, so the first (lowest) minimiser wins.
   */
  method CalculateMaxPain(chain: Option<seq<OptionRow>>, rule: PayoutRule) returns (maxPainStrike: real)
    ensures chain.None? || chain.value == [] ==> maxPainStrike == 0.0
    ensures chain.Some? && chain.value != [] ==> IsMaxPain(chain.value, rule, maxPainStrike)
  {
    if chain.None? || chain.value == [] {
      return 0.0;
    }
    var rows := chain.value;
    var strikes := SortedUnique(StrikesOf(rows));
    maxPainStrike := strikes[0];
    var maxPainLoss := 0.0;
    var bestIndex := 0;
    var k := 0;
    while k < |strikes|
      invariant 0 <= k <= |strikes|
      invariant bestIndex < |strikes| && maxPainStrike == strikes[bestIndex]
      invariant k > 0 ==> bestIndex < k && maxPainLoss == TotalLoss(rows, maxPainStrike, rule)
      invariant forall j :: 0 <= j < k ==> maxPainLoss <= TotalLoss(rows, strikes[j], rule)
      invariant forall j :: 0 <= j < bestIndex ==> maxPainLoss < TotalLoss(rows, strikes[j], rule)
    {
      var totalLoss := TotalLossAt(rows, strikes[k], rule);
      if k == 0 || totalLoss < maxPainLoss {
        maxPainLoss := totalLoss;
        maxPainStrike := strikes[k];
        bestIndex := k;
      }
      k := k + 1;
    }
    ScanFindsMaxPain(rows, rule, strikes, bestIndex, maxPainLoss);
  }

  /**
   * The scan's outcome over the sorted distinct strikes is the max-pain
   * strike: its loss bounds every strike's and is strictly below every
   * earlier (lower) strike's.
   */
  lemma ScanFindsMaxPain(rows: seq<OptionRow>, rule: PayoutRule, strikes: seq<real>, b: nat, loss: real)
    requires StrictlySorted(strikes) && forall x :: x in strikes <==> x in StrikesOf(rows)
    requires b < |strikes| && loss == TotalLoss(rows, strikes[b], rule)
    requires forall j :: 0 <= j < |strikes| ==> loss <= TotalLoss(rows, strikes[j], rule)
    requires forall j :: 0 <= j < b ==> loss < TotalLoss(rows, strikes[j], rule)
    ensures IsMaxPain(rows, rule, strikes[b])
  {
    forall i | 0 <= i < |rows|
      ensures loss <= TotalLoss(rows, rows[i].strike, rule)
      ensures rows[i].strike < strikes[b] ==> loss < TotalLoss(rows, rows[i].strike, rule)
    {
      assert StrikesOf(rows)[i] == rows[i].strike;
      assert rows[i].strike in strikes;
      var j :| 0 <= j < |strikes| && strikes[j] == rows[i].strike;
      if rows[i].strike < strikes[b] {
        assert j < b;
      }
    }
  }

  /** At most one strike is the max-pain strike. */
  lemma MaxPainUnique(rows: seq<OptionRow>, rule: PayoutRule, s1: real, s2: real)
    requires IsMaxPain(rows, rule, s1) && IsMaxPain(rows, rule, s2)
    ensures s1 == s2
  {
    var i :| 0 <= i < |rows| && StrikesOf(rows)[i] == s1;
    var j :| 0 <= j < |rows| && StrikesOf(rows)[j] == s2;
    assert rows[i].strike == s1 && rows[j].strike == s2;
  }

  lemma {:induction false} LossOfTypeAppend(a: seq<OptionRow>, b: seq<OptionRow>, settle: real, rule: PayoutRule, t: string)
    ensures LossOfType(a + b, settle, rule, t) == LossOfType(a, settle, rule, t) + LossOfType(b, settle, rule, t)
    decreases |b|
  {
    if b == [] {
      assert a + b == a;
    } else {
      var n := |b| - 1;
      assert (a + b)[..|a + b| - 1] == a + b[..n];
      assert (a + b)[|a + b| - 1] == b[n];
      LossOfTypeAppend(a, b[..n], settle, rule, t);
    }
  }

  /** Taking one row out of the sum. */
  lemma LossOfTypeRemove(b: seq<OptionRow>, i: nat, settle: real, rule: PayoutRule, t: string)
    requires i < |b|
    ensures LossOfType(b, settle, rule, t) ==
      LossOfType(b[..i] + b[i + 1..], settle, rule, t) + Contribution(b[i], settle, rule, t)
  {
    var x := b[i];
    assert b == (b[..i] + [x]) + b[i + 1..];
    LossOfTypeAppend(b[..i] + [x], b[i + 1..], settle, rule, t);
    LossOfTypeAppend(b[..i], [x], settle, rule, t);
    LossOfTypeAppend(b[..i], b[i + 1..], settle, rule, t);
    assert [x][..0] == [];
  }

  lemma MultisetRemove(a: seq<OptionRow>, b: seq<OptionRow>, i: nat)
    requires multiset(a) == multiset(b) && a != [] && i < |b| && b[i] == a[|a| - 1]
    ensures multiset(a[..|a| - 1]) == multiset(b[..i] + b[i + 1..])
  {
    var x := b[i];
    assert a == a[..|a| - 1] + [x];
    assert b == b[..i] + [x] + b[i + 1..];
    assert multiset(a) == multiset(a[..|a| - 1]) + multiset{x};
    assert multiset(b) == multiset(b[..i] + b[i + 1..]) + multiset{x};
    assert multiset(a[..|a| - 1]) == multiset(a) - multiset{x};
    assert multiset(b[..i] + b[i + 1..]) == multiset(b) - multiset{x};
  }

  /** The summed loss depends only on the multiset of rows, not on their order. */
  lemma {:induction false} LossOfTypePermutation(a: seq<OptionRow>, b: seq<OptionRow>, settle: real, rule: PayoutRule, t: string)
    requires multiset(a) == multiset(b)
    ensures LossOfType(a, settle, rule, t) == LossOfType(b, settle, rule, t)
    decreases |a|
  {
    if a == [] {
      assert |multiset(b)| == 0;
    } else {
      var n := |a| - 1;
      assert a[n] in multiset(b) by { assert a[n] in multiset(a); }
      var i :| 0 <= i < |b| && b[i] == a[n];
      MultisetRemove(a, b, i);
      LossOfTypePermutation(a[..n], b[..i] + b[i + 1..], settle, rule, t);
      LossOfTypeRemove(b, i, settle, rule, t);
    }
  }

  /** Reordering the chain's rows does not change the max-pain strike. */
  lemma MaxPainOrderIndependent(a: seq<OptionRow>, b: seq<OptionRow>, rule: PayoutRule, sa: real, sb: real)
    requires multiset(a) == multiset(b)
    requires IsMaxPain(a, rule, sa) && IsMaxPain(b, rule, sb)
    ensures sa == sb
  {
    forall s
      ensures TotalLoss(a, s, rule) == TotalLoss(b, s, rule)
    {
      LossOfTypePermutation(a, b, s, rule, "CE");
      LossOfTypePermutation(a, b, s, rule, "PE");
    }
    assert forall x :: x in a <==> x in b by {
      forall x ensures x in a <==> x in b {
        assert x in a <==> x in multiset(a);
        assert x in b <==> x in multiset(b);
      }
    }
    var i :| 0 <= i < |a| && StrikesOf(a)[i] == sa;
    var j :| 0 <= j < |b| && StrikesOf(b)[j] == sb;
    assert a[i] in b;
    var i2 :| 0 <= i2 < |b| && b[i2] == a[i];
    assert b[j] in a;
    var j2 :| 0 <= j2 < |a| && a[j2] == b[j];
    assert TotalLoss(a, sa, rule) <= TotalLoss(a, a[j2].strike, rule);
    assert TotalLoss(b, sb, rule) <= TotalLoss(b, b[i2].strike, rule);
  }

  lemma WriterRowPayoutNonNegative(row: OptionRow, settle: real)
    requires row.openInterest >= 0.0
    ensures RowLoss(row, settle, WriterPayout) >= 0.0
  {
    if row.optionType == "CE" && settle > row.strike {
      MulNonNegative(settle - row.strike, row.openInterest);
    } else if row.optionType == "PE" && settle < row.strike {
      MulNonNegative(row.strike - settle, row.openInterest);
    }
  }

  lemma MulNonNegative(x: real, y: real)
    requires x >= 0.0 && y >= 0.0
    ensures x * y >= 0.0
  {
  }

  /** The writers never receive money from a payout: with non-negative open interest every sum is >= 0. */
  lemma {:induction false} WriterPayoutNonNegative(rows: seq<OptionRow>, settle: real, t: string)
    requires forall i :: 0 <= i < |rows| ==> rows[i].openInterest >= 0.0
    ensures LossOfType(rows, settle, WriterPayout, t) >= 0.0
  {
    if rows != [] {
      var n := |rows| - 1;
      assert forall i :: 0 <= i < n ==> rows[..n][i] == rows[i];
      WriterPayoutNonNegative(rows[..n], settle, t);
      WriterRowPayoutNonNegative(rows[n], settle);
    }
  }

  /** Sums over three rows, written out. */
  lemma LossOfTypeThree(c: seq<OptionRow>, settle: real, rule: PayoutRule, t: string)
    requires |c| == 3
    ensures LossOfType(c, settle, rule, t) ==
      Contribution(c[0], settle, rule, t) + Contribution(c[1], settle, rule, t) + Contribution(c[2], settle, rule, t)
  {
    assert c[..2][..1] == c[..1] && c[..2][1] == c[1] && c[..1][0] == c[0];
    assert c[..1][..0] == [];
    assert LossOfType(c, settle, rule, t) == LossOfType(c[..2], settle, rule, t) + Contribution(c[2], settle, rule, t);
    assert LossOfType(c[..2], settle, rule, t) == LossOfType(c[..1], settle, rule, t) + Contribution(c[1], settle, rule, t);
    assert LossOfType(c[..1], settle, rule, t) == Contribution(c[0], settle, rule, t);
  }

  /** A call at 100, a put at 300 with three times the open interest, and an idle call at 200. */
  const FindingChain: seq<OptionRow> := [
    OptionRow(100.0, "CE", 20.0, 100.0, 1.0, 5.0, "X", "JAN"),
    OptionRow(200.0, "CE", 20.0, 100.0, 0.0, 5.0, "X", "JAN"),
    OptionRow(300.0, "PE", 20.0, 100.0, 3.0, 5.0, "X", "JAN")]

  /**
   * On FindingChain the branches as written give a total loss of 0 at every
   * strike and so pick the lowest, 100, where the writers pay out 600; the
   * writers' payout is smallest (200) at 300, the intended max-pain strike.
   */
  lemma MaxPainAsWrittenCounterexample()
    ensures IsMaxPain(FindingChain, AsWritten, 100.0)
    ensures IsMaxPain(FindingChain, WriterPayout, 300.0)
    ensures TotalLoss(FindingChain, 100.0, WriterPayout) == 600.0
    ensures TotalLoss(FindingChain, 300.0, WriterPayout) == 200.0
  {
    var c := FindingChain;
    forall settle, rule, t
      ensures LossOfType(c, settle, rule, t) ==
        Contribution(c[0], settle, rule, t) + Contribution(c[1], settle, rule, t) + Contribution(c[2], settle, rule, t)
    {
      LossOfTypeThree(c, settle, rule, t);
    }
    assert StrikesOf(c)[0] == 100.0 && StrikesOf(c)[2] == 300.0;
    assert TotalLoss(c, 200.0, WriterPayout) == 400.0;
  }

  // ---------------------------------------------------------------- option prices

  /** max(0, S - K) for a call, max(0, K - S) otherwise. */
  function Intrinsic(optionType: string, underlying: real, strike: real): (r: real)
    ensures r >= 0.0
    ensures optionType == "CE" ==> r == MaxReal(0.0, underlying - strike)
    ensures optionType != "CE" ==> r == MaxReal(0.0, strike - underlying)
  {
    if optionType == "CE" then MaxReal(0.0, underlying - strike) else MaxReal(0.0, strike - underlying)
  }

  datatype OptionPrices = OptionPrices(current: real, target: real, stopLoss: real)

  /** Row i is the first row passing the filter (`.iloc[0]`). */
  predicate FirstMatchAt(rows: seq<OptionRow>, strike: real, optionType: string, i: nat)
    requires i < |rows|
  {
    RowMatches(rows[i], strike, optionType) && forall j :: 0 <= j < i ==> !RowMatches(rows[j], strike, optionType)
  }

  /** The condition of the chain filter `(strike == strike) & (type == option_type)`. */
  predicate RowMatches(x: OptionRow, strike: real, optionType: string)
  {
    x.strike == strike && x.optionType == optionType
  }

  /**
   * _calculate_option_prices: the chain's last price for the strike and type
   * (else intrinsic value plus 3% of the price), intrinsic plus 2% at the
   * target and at the stop; a stop at or above the current price becomes 70%
   * of it.
   */
  function CalculateOptionPrices(chain: Option<seq<OptionRow>>, strike: real, optionType: string,
                                 price: real, targetPrice: real, stopLoss: real): (r: OptionPrices)
    ensures chain.None? ==> r == OptionPrices(0.0, 0.0, 0.0)
    ensures chain.Some? ==> forall i :: 0 <= i < |chain.value| && FirstMatchAt(chain.value, strike, optionType, i) ==>
      r.current == chain.value[i].lastPrice
    ensures chain.Some? && (forall i :: 0 <= i < |chain.value| ==> !RowMatches(chain.value[i], strike, optionType)) ==>
      r.current == Intrinsic(optionType, price, strike) + price * 0.03
    ensures chain.Some? ==> r.target == Intrinsic(optionType, targetPrice, strike) + targetPrice * 0.02
    ensures chain.Some? ==>
      var stop := Intrinsic(optionType, stopLoss, strike) + price * 0.02;
      (stop < r.current ==> r.stopLoss == stop) && (stop >= r.current ==> r.stopLoss == r.current * 0.7)
    ensures chain.Some? && r.current > 0.0 ==> r.stopLoss < r.current
  {
    if chain.None? then OptionPrices(0.0, 0.0, 0.0)
    else
      var matching := FirstIndex(chain.value, (x: OptionRow) => RowMatches(x, strike, optionType), 0);
      var current :=
        if matching.Some? then chain.value[matching.value].lastPrice
        else Intrinsic(optionType, price, strike) + price * 0.03;
      var target := Intrinsic(optionType, targetPrice, strike) + targetPrice * 0.02;
      var stop := Intrinsic(optionType, stopLoss, strike) + price * 0.02;
      OptionPrices(current, target, if stop >= current then current * 0.7 else stop)
  }

  // ---------------------------------------------------------------- contract symbol

  /**
   * _generate_option_symbol: "" for a missing or empty chain; otherwise the
   * first row's symbol ("UNKNOWN" without the column) and expiry (the current
   * month's abbreviation without the column), the strike text and the type.
   */
  function GenerateOptionSymbol(chain: Option<OptionChain>, strike: real, optionType: string,
                                currentMonth: string, floatRepr: string): (r: string)
    ensures chain.None? || chain.value.rows == [] ==> r == ""
    ensures chain.Some? && chain.value.rows != [] ==>
      var symbol := if "symbol" in chain.value.columns then chain.value.rows[0].symbol else "UNKNOWN";
      var expiry := if "expiry" in chain.value.columns then chain.value.rows[0].expiry else currentMonth;
      r == Helpers.GenerateOptionSymbol(symbol, expiry, strike, optionType, floatRepr)
  {
    if chain.None? || chain.value.rows == [] then ""
    else
      var symbol := if "symbol" in chain.value.columns then chain.value.rows[0].symbol else "UNKNOWN";
      var expiry := if "expiry" in chain.value.columns then chain.value.rows[0].expiry else currentMonth;
      symbol + expiry + Helpers.StrikeText(strike, floatRepr) + optionType
  }

  // ---------------------------------------------------------------- analyze_options

  /** "CE" for an "UP" call, "PE" for anything else. */
  function OptionTypeFor(direction: string): (r: string)
    ensures r == "CE" <==> direction == "UP"
    ensures r == "CE" || r == "PE"
  {
    if direction == "UP" then "CE" else "PE"
  }

  /** The dictionary analyze_options returns (without the random OI text). */
  datatype OptionAnalysisResult = OptionAnalysisResult(
    underlyingStrike: string, selectedStrike: real, strikeType: string, ivPercentile: real,
    maxPainPrice: real, currentOptionPrice: real, targetOptionPrice: real, optionStopLoss: real)

  /**
   * analyze_options: {} (None) for a missing or empty chain. `ivPercentile`
   * stands for the random draw of _calculate_iv_percentile. The max-pain
   * strike is the writers'-payout minimiser.
   */
  method AnalyzeOptions(chain: Option<OptionChain>, price: real, direction: string, targetPrice: real,
                        stopLoss: real, ivPercentile: real, currentMonth: string, floatRepr: string)
    returns (result: Option<OptionAnalysisResult>)
    ensures result.None? <==> chain.None? || chain.value.rows == []
    ensures result.Some? ==>
      var rows := chain.value.rows;
      var optionType := OptionTypeFor(direction);
      var selected := SelectStrike(Some(rows), price, optionType);
      var prices := CalculateOptionPrices(Some(rows), selected.0, optionType, price, targetPrice, stopLoss);
      && (result.value.selectedStrike, result.value.strikeType) == selected
      && IsMaxPain(rows, WriterPayout, result.value.maxPainPrice)
      && result.value.currentOptionPrice == prices.current
      && result.value.targetOptionPrice == prices.target
      && result.value.optionStopLoss == prices.stopLoss
      && result.value.underlyingStrike == GenerateOptionSymbol(chain, selected.0, optionType, currentMonth, floatRepr)
      && result.value.ivPercentile == ivPercentile
  {
    if chain.None? || chain.value.rows == [] {
      return None;
    }
    var rows := chain.value.rows;
    var optionType := OptionTypeFor(direction);
    var selected := SelectStrike(Some(rows), price, optionType);
    var maxPain := CalculateMaxPain(Some(rows), WriterPayout);
    var prices := CalculateOptionPrices(Some(rows), selected.0, optionType, price, targetPrice, stopLoss);
    var symbol := GenerateOptionSymbol(chain, selected.0, optionType, currentMonth, floatRepr);
    result := Some(OptionAnalysisResult(symbol, selected.0, selected.1, ivPercentile, maxPain,
                                        prices.current, prices.target, prices.stopLoss));
  }
}
