/**
 * Value types shared by the bot's components: the Option/Result wrappers used
 * for Rust's `Option` and `Result<_, Box<dyn Error>>`, the provider's
 * `Quotation` (an integer part sent as a decimal string plus nanos) and the
 * technical-indicator records returned by the indicator service.
 */
module Models {

  datatype Option<+T> = None | Some(value: T)

  /** A fallible result; the error is the message the source would log or propagate. */
  datatype Result<+T> = Ok(value: T) | Err(error: string)

  /** models/structs.rs `Quotation { units: String, nano: i32 }` */
  datatype Quotation = Quotation(units: string, nano: int)

  /** One point of a technical-analysis series (the EMA value is `middleBand`). */
  datatype TechnicalIndicator = TechnicalIndicator(
    timestamp: string,
    middleBand: Option<Quotation>,
    upperBand: Option<Quotation>,
    lowerBand: Option<Quotation>,
    signal: Option<Quotation>,
    macd: Option<Quotation>)

  predicate IsDigit(c: char) { '0' <= c <= '9' }

  predicate AllDigits(s: string) { forall i :: 0 <= i < |s| ==> IsDigit(s[i]) }

  /** Value of a string of decimal digits, most significant digit first. */
  function DigitsValue(s: string): (n: nat)
    requires AllDigits(s)
  {
    if s == [] then 0
    else DigitsValue(s[..|s| - 1]) * 10 + (s[|s| - 1] as int - '0' as int)
  }

  /**
   * `units.parse::<f64>()` restricted to what the provider sends for units: an
   * optional sign followed by at least one decimal digit; anything else fails.
   */
  function ParseUnits(s: string): (r: Option<int>)
    ensures s == [] ==> r.None?
    // it succeeds exactly on an optional sign followed by at least one digit
    ensures r.Some? <==>
      (|s| > 0 && AllDigits(s)) || (|s| > 1 && (s[0] == '-' || s[0] == '+') && AllDigits(s[1..]))
    ensures |s| > 0 && AllDigits(s) ==> r == Some(DigitsValue(s))
    ensures |s| > 1 && s[0] == '-' && AllDigits(s[1..]) ==> r == Some(-(DigitsValue(s[1..]) as int))
    ensures |s| > 1 && s[0] == '+' && AllDigits(s[1..]) ==> r == Some(DigitsValue(s[1..]) as int)
  {
    if |s| > 0 && AllDigits(s) then Some(DigitsValue(s))
    else if |s| > 1 && s[0] == '-' && AllDigits(s[1..]) then Some(-(DigitsValue(s[1..]) as int))
    else if |s| > 1 && s[0] == '+' && AllDigits(s[1..]) then Some(DigitsValue(s[1..]))
    else None
  }

  /** Decimal rendering of an integer, as the provider writes `units`. */
  function FormatUnits(n: int): (s: string)
  {
    if n < 0 then "-" + NatDigits(-n) else NatDigits(n)
  }

  function NatDigits(n: nat): (s: string)
    ensures |s| > 0 && AllDigits(s)
  {
    if n < 10 then [('0' as int + n) as char]
    else NatDigits(n / 10) + [('0' as int + n % 10) as char]
  }

  lemma {:induction false} NatDigitsValue(n: nat)
    ensures DigitsValue(NatDigits(n)) == n
  {
    var s := NatDigits(n);
    if n >= 10 {
      NatDigitsValue(n / 10);
      assert s[..|s| - 1] == NatDigits(n / 10);
    }
  }

  /** Parsing what the provider formats gives the integer back. */
  lemma ParseFormatUnits(n: int)
    ensures ParseUnits(FormatUnits(n)) == Some(n)
  {
    if n < 0 {
      NatDigitsValue(-n);
      var s := FormatUnits(n);
      assert s[1..] == NatDigits(-n);
      assert !IsDigit(s[0]);
    } else {
      NatDigitsValue(n);
    }
  }

  /**
   * `units.parse::<f64>().unwrap_or(0.0) + nano as f64 / 1e9`, over the reals:
   * a unit string that does not parse counts as 0.
   */
  function QuotationValue(q: Quotation): (v: real)
    ensures ParseUnits(q.units).None? ==> v == q.nano as real / 1000000000.0
    ensures ParseUnits(q.units).Some? ==> v == ParseUnits(q.units).value as real + q.nano as real / 1000000000.0
  {
    var units := match ParseUnits(q.units)
      case Some(n) => n as real
      case None => 0.0;
    units + q.nano as real / 1000000000.0
  }

  /** A quotation whose units the provider rendered from an integer is worth that integer plus the nanos. */
  lemma QuotationValueOfRendered(n: int, nano: int)
    ensures QuotationValue(Quotation(FormatUnits(n), nano)) == n as real + nano as real / 1000000000.0
  {
    ParseFormatUnits(n);
  }

  function Min(a: int, b: int): int { if a < b then a else b }

  function Max(a: int, b: int): int { if a < b then b else a }
}
