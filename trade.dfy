/**
 * The EMA-cross strategy of src/bot/trade.rs: the pure two-point crossing
 * rule over two indicator series, and the stateful strategy object that
 * caches the latest price and EMA values and feeds its own hysteresis
 * detector. The three fetched responses (last prices, short EMA, long EMA)
 * are inputs; a failed fetch is an `Err`.
 */
module Trade {
  import opened Models
  import opened Crossover
  import AutoPeriod

  // ---------------------------------------------------------------------------
  // The crossing rule (`analyze_crossover`)

  /** The middle-band values of a series, in series order (the `filter_map` over `middle_band`). */
  function MiddleBands(inds: seq<TechnicalIndicator>): (r: seq<Quotation>)
    ensures |r| <= |inds|
    ensures forall k :: 0 <= k < |r| ==> exists j :: 0 <= j < |inds| && inds[j].middleBand == Some(r[k])
    ensures forall j :: 0 <= j < |inds| && inds[j].middleBand.Some? ==> inds[j].middleBand.value in r
  {
    if inds == [] then []
    else
      var rest := MiddleBands(inds[1..]);
      assert forall j :: 1 <= j < |inds| ==> inds[j] == inds[1..][j - 1];
      match inds[0].middleBand
      case Some(q) => [q] + rest
      case None => rest
  }

  lemma {:induction false} MiddleBandsAppend(a: seq<TechnicalIndicator>, b: seq<TechnicalIndicator>)
    ensures MiddleBands(a + b) == MiddleBands(a) + MiddleBands(b)
  {
    if a == [] {
      assert a + b == b;
    } else {
      assert (a + b)[1..] == a[1..] + b;
      MiddleBandsAppend(a[1..], b);
    }
  }

  /** `.rev().take(n)`: the newest `n` values, newest first. */
  function NewestFirst(v: seq<Quotation>, n: nat): (r: seq<Quotation>)
    ensures |r| == Min(n, |v|)
    ensures forall k :: 0 <= k < |r| ==> r[k] == v[|v| - 1 - k]
  {
    if n == 0 || v == [] then []
    else [v[|v| - 1]] + NewestFirst(v[..|v| - 1], n - 1)
  }

  /**
   * `analyze_crossover`: Hold unless both series have two middle-band points;
   * otherwise Buy when the short EMA has just crossed above the long one, Sell
   * when it has just crossed below.
   */
  function AnalyzeCrossover(shortInds: seq<TechnicalIndicator>, longInds: seq<TechnicalIndicator>): (t: TradeSignal)
    ensures var s, l := MiddleBands(shortInds), MiddleBands(longInds);
      (|s| < 2 || |l| < 2 ==> t == TradeHold)
      && (|s| >= 2 && |l| >= 2 ==>
          var sc, sp := QuotationValue(s[|s| - 1]), QuotationValue(s[|s| - 2]);
          var lc, lp := QuotationValue(l[|l| - 1]), QuotationValue(l[|l| - 2]);
          (t == TradeBuy <==> sc > lc && sp <= lp)
          && (t == TradeSell <==> sc < lc && sp >= lp))
  {
    var shortValues := NewestFirst(MiddleBands(shortInds), 2);
    var longValues := NewestFirst(MiddleBands(longInds), 2);
    if |shortValues| < 2 || |longValues| < 2 then TradeHold
    else
      var shortCurrent := QuotationValue(shortValues[0]);
      var shortPrevious := QuotationValue(shortValues[1]);
      var longCurrent := QuotationValue(longValues[0]);
      var longPrevious := QuotationValue(longValues[1]);
      if shortCurrent > longCurrent && shortPrevious <= longPrevious then TradeBuy
      else if shortCurrent < longCurrent && shortPrevious >= longPrevious then TradeSell
      else TradeHold
  }

  /** Swapping the two series swaps Buy and Sell. */
  lemma CrossoverSymmetric(a: seq<TechnicalIndicator>, b: seq<TechnicalIndicator>)
    ensures AnalyzeCrossover(a, b) == TradeBuy <==> AnalyzeCrossover(b, a) == TradeSell
    ensures AnalyzeCrossover(a, b) == TradeHold <==> AnalyzeCrossover(b, a) == TradeHold
  {
  }

  /** Older points do not matter once a series has two middle-band points of its own. */
  lemma OnlyNewestTwoMatter(older: seq<TechnicalIndicator>, shortInds: seq<TechnicalIndicator>,
                            longInds: seq<TechnicalIndicator>)
    requires |MiddleBands(shortInds)| >= 2
    ensures AnalyzeCrossover(older + shortInds, longInds) == AnalyzeCrossover(shortInds, longInds)
    ensures AnalyzeCrossover(longInds, older + shortInds) == AnalyzeCrossover(longInds, shortInds)
  {
    MiddleBandsAppend(older, shortInds);
  }

  // ---------------------------------------------------------------------------
  // The strategy object (`EmaCrossStrategy`)

  /** An entry of the last-prices response. */
  datatype LastPrice = LastPrice(figi: string, price: Quotation, time: string, instrumentUid: string)

  /** What the three requests of one `get_trade_signal` call returned. */
  datatype Feed = Feed(
    lastPrices: Result<seq<LastPrice>>,
    shortEma: Result<seq<TechnicalIndicator>>,
    longEma: Result<seq<TechnicalIndicator>>)

  /** The value read from a non-empty series: its last point's `signal`, or 0 when absent. */
  function SignalValue(inds: seq<TechnicalIndicator>): (v: real)
    requires |inds| > 0
    ensures inds[|inds| - 1].signal.None? ==> v == 0.0
    ensures inds[|inds| - 1].signal.Some? ==> v == QuotationValue(inds[|inds| - 1].signal.value)
  {
    match inds[|inds| - 1].signal
    case Some(q) => QuotationValue(q)
    case None => 0.0
  }

  /**
   * Only the newest point is read: series ending in the same point give the
   * same value, appending a point makes it the one read, and a signal the
   * provider rendered from `n` units and `nano` nanos reads back as that number.
   */
  lemma SignalValueReadsNewest(s: seq<TechnicalIndicator>, t: seq<TechnicalIndicator>, p: TechnicalIndicator)
    requires |s| > 0 && |t| > 0 && s[|s| - 1] == t[|t| - 1]
    ensures SignalValue(s) == SignalValue(t)
    ensures SignalValue(s + [p]) == SignalValue([p])
    ensures forall n: int, nano: int {:trigger Quotation(FormatUnits(n), nano)} ::
      s[|s| - 1].signal == Some(Quotation(FormatUnits(n), nano)) ==>
        SignalValue(s) == n as real + nano as real / 1000000000.0
  {
    forall n: int, nano: int | s[|s| - 1].signal == Some(Quotation(FormatUnits(n), nano))
      ensures SignalValue(s) == n as real + nano as real / 1000000000.0
    {
      QuotationValueOfRendered(n, nano);
    }
  }

  /** The mutable part of a strategy, as a value. */
  datatype StrategyState = StrategyState(detector: DetectorState, lastShortEma: real, lastLongEma: real, lastPrice: real)

  const InitialStrategy := StrategyState(Initial, 0.0, 0.0, 0.0)

  /** One `get_trade_signal` call on a strategy whose detector has the given band and periods. */
  function TradeStep(threshold: real, periods: nat, s: StrategyState, feed: Feed): (r: (StrategyState, Result<Signal>))
    // a failed fetch is propagated, and a failed price fetch changes nothing
    ensures r.1.Err? <==> feed.lastPrices.Err? || feed.shortEma.Err? || feed.longEma.Err?
    ensures feed.lastPrices.Err? ==> r.0 == s
    // the price is replaced only by a non-empty price response, with its first entry
    ensures r.0.lastPrice ==
      if feed.lastPrices.Ok? && |feed.lastPrices.value| > 0 then QuotationValue(feed.lastPrices.value[0].price)
      else s.lastPrice
    // an error or an empty series leaves the detector and the cached EMAs alone
    ensures (r.1.Err? || |feed.shortEma.value| == 0 || |feed.longEma.value| == 0) ==>
      r.0.detector == s.detector && r.0.lastShortEma == s.lastShortEma && r.0.lastLongEma == s.lastLongEma
    ensures r.1.Ok? && (|feed.shortEma.value| == 0 || |feed.longEma.value| == 0) ==> r.1.value == Hold
    // otherwise the cached EMAs are the series' signal values, and they feed the detector
    ensures r.1.Ok? && |feed.shortEma.value| > 0 && |feed.longEma.value| > 0 ==>
      var a, b := SignalValue(feed.shortEma.value), SignalValue(feed.longEma.value);
      r.0.lastShortEma == a && r.0.lastLongEma == b
      && (r.0.detector, r.1.value) == Step(s.detector, threshold, periods, a, b)
    // a long series whose last point has no signal value gives Hold and leaves the detector alone
    ensures (r.1.Ok? && |feed.shortEma.value| > 0 && |feed.longEma.value| > 0
             && feed.longEma.value[|feed.longEma.value| - 1].signal.None?) ==>
      r.1.value == Hold && r.0.detector == s.detector
  {
    match feed.lastPrices
    case Err(e) => (s, Err(e))
    case Ok(prices) =>
      var s1 := if |prices| > 0 then s.(lastPrice := QuotationValue(prices[0].price)) else s;
      match feed.shortEma
      case Err(e) => (s1, Err(e))
      case Ok(shortInds) =>
        match feed.longEma
        case Err(e) => (s1, Err(e))
        case Ok(longInds) =>
          if |shortInds| == 0 || |longInds| == 0 then (s1, Ok(Hold))
          else
            var a, b := SignalValue(shortInds), SignalValue(longInds);
            var (d, signal) := Step(s1.detector, threshold, periods, a, b);
            (StrategyState(d, a, b, s1.lastPrice), Ok(signal))
  }

  class EmaCrossStrategy {
    const instrumentUid: string
    const instrumentTicker: string
    const shortEmaLength: int
    const longEmaLength: int
    const interval: AutoPeriod.Interval
    const signalGenerator: CrossoverSignal
    var lastShortEma: real
    var lastLongEma: real
    var lastPrice: real

    function State(): StrategyState
      reads this, signalGenerator
    {
      StrategyState(signalGenerator.Snapshot(), lastShortEma, lastLongEma, lastPrice)
    }

    /** `EmaCrossStrategy::new`: zero caches and a fresh detector with the given hysteresis. */
    constructor (instrumentUid: string, instrumentTicker: string, shortEmaLength: int, longEmaLength: int,
                 interval: AutoPeriod.Interval, hysteresisPercentage: real, hysteresisPeriods: nat)
      ensures this.instrumentUid == instrumentUid && this.instrumentTicker == instrumentTicker
      ensures this.shortEmaLength == shortEmaLength && this.longEmaLength == longEmaLength
      ensures this.interval == interval
      ensures fresh(signalGenerator)
      ensures signalGenerator.hysteresisPercentage == hysteresisPercentage
      ensures signalGenerator.hysteresisPeriods == hysteresisPeriods
      ensures State() == InitialStrategy
    {
      this.instrumentUid := instrumentUid;
      this.instrumentTicker := instrumentTicker;
      this.shortEmaLength := shortEmaLength;
      this.longEmaLength := longEmaLength;
      this.interval := interval;
      signalGenerator := new CrossoverSignal(hysteresisPercentage, hysteresisPeriods);
      lastShortEma := 0.0;
      lastLongEma := 0.0;
      lastPrice := 0.0;
    }

    function GetLastShort(): real
      reads this
    {
      lastShortEma
    }

    function GetLastLong(): real
      reads this
    {
      lastLongEma
    }

    function GetLastPrice(): real
      reads this
    {
      lastPrice
    }

    function GetTicker(): string
    {
      instrumentTicker
    }

    /** `get_trade_signal`, with the three responses it fetches given as `feed`. */
    method GetTradeSignal(feed: Feed) returns (r: Result<Signal>)
      modifies this, signalGenerator
      ensures (State(), r) == TradeStep(signalGenerator.hysteresisPercentage, signalGenerator.hysteresisPeriods,
                                        old(State()), feed)
    {
      if feed.lastPrices.Err? {
        return Err(feed.lastPrices.error);
      }
      var prices := feed.lastPrices.value;
      if |prices| > 0 {
        lastPrice := QuotationValue(prices[0].price);
      }
      if feed.shortEma.Err? {
        return Err(feed.shortEma.error);
      }
      var shortInds := feed.shortEma.value;
      if feed.longEma.Err? {
        return Err(feed.longEma.error);
      }
      var longInds := feed.longEma.value;
      if |shortInds| == 0 || |longInds| == 0 {
        return Ok(Hold);
      }
      lastShortEma := match shortInds[|shortInds| - 1].signal
        case Some(q) => QuotationValue(q)
        case None => 0.0;
      lastLongEma := match longInds[|longInds| - 1].signal
        case Some(q) => QuotationValue(q)
        case None => 0.0;
      var signal := signalGenerator.Update(lastShortEma, lastLongEma);
      r := Ok(signal);
    }
  }
}
