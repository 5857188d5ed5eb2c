// utils/helpers.py: market hours, None-safe formatting, safe division and the
// option-symbol format.
module Helpers {
  import opened Common
  import opened Text
  import opened Settings

  /**
   * A local wall-clock instant as datetime.now() gives it: the weekday
   * (0 = Monday .. 6 = Sunday) and the microseconds since midnight.
   */
  datatype LocalTime = LocalTime(weekday: int, micros: int)

  /** is_market_open: a weekday, between the opening and closing times inclusive. */
  function IsMarketOpen(now: LocalTime): (r: bool)
    ensures now.weekday > 4 ==> !r
    ensures now.weekday <= 4 ==> (r <==> MarketOpenMicros <= now.micros <= MarketCloseMicros)
  {
    if now.weekday > 4 then false
    else MarketOpenMicros <= now.micros && now.micros <= MarketCloseMicros
  }

  /** The session runs from 09:15:00 to 15:30:00, both ends included. */
  lemma MarketHoursBoundaries()
    ensures IsMarketOpen(LocalTime(0, MicrosOfDay(9, 15, 0, 0)))
    ensures IsMarketOpen(LocalTime(4, MicrosOfDay(15, 30, 0, 0)))
    ensures !IsMarketOpen(LocalTime(4, MicrosOfDay(15, 30, 0, 1)))
    ensures !IsMarketOpen(LocalTime(2, MicrosOfDay(9, 14, 59, 999999)))
    ensures !IsMarketOpen(LocalTime(5, MicrosOfDay(12, 0, 0, 0)))
  {
  }

  /**
   * format_currency, format_percentage and format_number: "N/A" for None.
   * `rendered` is the text Python's format specification produces for the
   * value (`,.2f`, `.2f` or `,.<decimals>f`), which the model takes as given.
   */
  function FormatCurrency(value: Option<real>, rendered: string): (r: string)
    ensures value.None? ==> r == "N/A"
    ensures value.Some? ==> r == "₹" + rendered
  {
    if value.None? then "N/A" else "₹" + rendered
  }

  function FormatPercentage(value: Option<real>, rendered: string): (r: string)
    ensures value.None? ==> r == "N/A"
    ensures value.Some? ==> r == rendered + "%"
  {
    if value.None? then "N/A" else rendered + "%"
  }

  function FormatNumber(value: Option<real>, rendered: string): (r: string)
    ensures value.None? ==> r == "N/A"
    ensures value.Some? ==> r == rendered
  {
    if value.None? then "N/A" else rendered
  }

  /** Text a fixed-point format (`f`, with or without `,`) renders for a finite number. */
  predicate IsFixedPointText(s: string)
  {
    forall i :: 0 <= i < |s| ==> s[i] in "0123456789,.-"
  }

  /**
   * All three texts are "N/A" exactly when the value is None; for
   * format_number that needs the rendering to be a fixed-point number.
   */
  lemma FormatNotAvailableOnlyForNone(value: Option<real>, rendered: string)
    ensures FormatCurrency(value, rendered) == "N/A" <==> value.None?
    ensures FormatPercentage(value, rendered) == "N/A" <==> value.None?
    ensures IsFixedPointText(rendered) ==> (FormatNumber(value, rendered) == "N/A" <==> value.None?)
  {
    if value.Some? {
      assert FormatCurrency(value, rendered)[0] == '₹';
      var p := FormatPercentage(value, rendered);
      assert p[|p| - 1] == '%';
      if IsFixedPointText(rendered) && rendered != [] {
        assert rendered[0] != 'N';
      }
    }
  }

  /** safe_divide: None exactly for a zero denominator, otherwise the quotient. */
  function SafeDivide(numerator: real, denominator: real): (r: Option<real>)
    ensures r.None? <==> denominator == 0.0
    ensures r.Some? ==> r.value * denominator == numerator
  {
    if denominator == 0.0 then None else Some(numerator / denominator)
  }

  /**
   * str(int(strike)) for a whole strike; any other strike is printed by
   * Python's float repr, which the model takes as the given `floatRepr`.
   */
  function StrikeText(strike: real, floatRepr: string): (r: string)
    ensures IsWhole(strike) ==> r == IntToDecimal(strike.Floor)
    ensures !IsWhole(strike) ==> r == floatRepr
  {
    if IsWhole(strike) then IntToDecimal(strike.Floor) else floatRepr
  }

  /** generate_option_symbol: symbol, expiry, strike text and option type, in that order. */
  function GenerateOptionSymbol(symbol: string, expiry: string, strike: real, optionType: string, floatRepr: string): (r: string)
    ensures r == symbol + expiry + StrikeText(strike, floatRepr) + optionType
    ensures IsWhole(strike) && strike >= 0.0 ==>
      r == symbol + expiry + NatToDecimal(strike.Floor) + optionType && AllDigits(NatToDecimal(strike.Floor))
  {
    symbol + expiry + StrikeText(strike, floatRepr) + optionType
  }
}
