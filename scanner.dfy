/**
 * The scan cycle of src/bot/scanner.rs. One cycle fetches the asset
 * universe, filters and sorts the instruments, asks for their trading
 * statuses, and evaluates every available instrument with a freshly built
 * EMA-cross strategy, sending each signal obtained to the subscribers. The
 * fetches and sends are inputs of the cycle (`CycleInput`); the cycle loop
 * runs one cycle per input until the shutdown, which is the end of the inputs.
 */
module Scanner {
  import opened Models
  import opened Crossover
  import opened Notifier
  import Assets
  import TradingStatuses
  import Trade
  import AutoPeriod

  /** The `strategy` section of the configuration. */
  datatype StrategyConfig = StrategyConfig(
    shortEmaLength: int,
    longEmaLength: int,
    interval: AutoPeriod.Interval,
    hysteresisPercentage: real,
    hysteresisPeriods: nat)

  /** The parts of the configuration a scan reads. */
  datatype ScanConfig = ScanConfig(classCode: string, instrumentType: string, strategy: StrategyConfig)

  /**
   * What the outside world answers during one cycle: the asset response, the
   * status response for the requested uids, the three responses a strategy
   * fetches for an instrument uid, and whether a send to a chat succeeds.
   */
  datatype CycleInput = CycleInput(
    assets: Result<seq<Assets.Asset>>,
    statuses: seq<string> -> Result<seq<TradingStatuses.TradingStatusResponse>>,
    feeds: string -> Trade.Feed,
    deliver: ChatId -> bool)

  /** The outcome for one instrument: its signal or error. */
  datatype Report = Report(uid: string, signal: Result<Signal>)

  /** One instrument's evaluation together with the send attempts it caused. */
  datatype Evaluation = Evaluation(uid: string, signal: Result<Signal>, deliveries: seq<Delivery>)

  /** The signal a strategy built just now returns for its first feed. */
  function Evaluate(cfg: StrategyConfig, feed: Trade.Feed): Result<Signal>
  {
    Trade.TradeStep(cfg.hysteresisPercentage, cfg.hysteresisPeriods, Trade.InitialStrategy, feed).1
  }

  function Evaluations(cfg: StrategyConfig, uids: seq<string>, feeds: string -> Trade.Feed): seq<Report>
  {
    seq(|uids|, k requires 0 <= k < |uids| => Report(uids[k], Evaluate(cfg, feeds(uids[k]))))
  }

  /** The uids whose statuses a cycle requests: those of the filtered, sorted instruments. */
  function RequestedUids(config: ScanConfig, assets: seq<Assets.Asset>): seq<string>
  {
    Assets.IntoUids(Assets.SortByTicker(Assets.Matching(assets, config.classCode, config.instrumentType)))
  }

  /** `scan_market` as a value: its result and the per-instrument reports, in evaluation order. */
  function ScanSpec(config: ScanConfig, input: CycleInput): (r: (Result<()>, seq<Report>))
    // an asset or status failure ends the cycle with that error before any instrument is evaluated
    ensures r.0.Err? <==>
      input.assets.Err? || input.statuses(RequestedUids(config, input.assets.value)).Err?
    ensures input.assets.Err? ==> r == (Err(input.assets.error), [])
    ensures r.0.Err? ==> r.1 == []
    // otherwise every available instrument is evaluated once, in the order of the status filter
    ensures r.0.Ok? ==>
      var available := TradingStatuses.GetAvailableInstruments(
        input.statuses(RequestedUids(config, input.assets.value)).value);
      |r.1| == |available|
      && forall k :: 0 <= k < |available| ==>
           r.1[k].uid == available[k] && r.1[k].signal == Evaluate(config.strategy, input.feeds(available[k]))
  {
    match input.assets
    case Err(e) => (Err(e), [])
    case Ok(assets) =>
      match input.statuses(RequestedUids(config, assets))
      case Err(e) => (Err(e), [])
      case Ok(statuses) =>
        (Ok(()), Evaluations(config.strategy, TradingStatuses.GetAvailableInstruments(statuses), input.feeds))
  }

  /**
   * A failing instrument only spoils its own report: changing what one uid's
   * fetches return leaves the cycle's result and every other report as they were.
   */
  lemma ErrorsIsolated(config: ScanConfig, input: CycleInput, feeds: string -> Trade.Feed, uid: string)
    requires forall u :: u != uid ==> feeds(u) == input.feeds(u)
    ensures ScanSpec(config, input.(feeds := feeds)).0 == ScanSpec(config, input).0
    ensures |ScanSpec(config, input.(feeds := feeds)).1| == |ScanSpec(config, input).1|
    ensures forall k :: 0 <= k < |ScanSpec(config, input).1| && ScanSpec(config, input).1[k].uid != uid ==>
      ScanSpec(config, input.(feeds := feeds)).1[k] == ScanSpec(config, input).1[k]
  {
  }

  /**
   * Each strategy is built afresh for its instrument, so its detector sees a
   * single sample: with two or more hysteresis periods a scan reports Hold
   * or an error for every instrument, never Buy or Sell.
   */
  lemma FreshStrategiesOnlyHold(config: ScanConfig, input: CycleInput)
    requires config.strategy.hysteresisPeriods >= 2
    ensures forall k :: 0 <= k < |ScanSpec(config, input).1| ==>
      ScanSpec(config, input).1[k].signal.Err? || ScanSpec(config, input).1[k].signal == Ok(Hold)
  {
    var cfg := config.strategy;
    forall feed: Trade.Feed
      ensures Evaluate(cfg, feed).Err? || Evaluate(cfg, feed) == Ok(Hold)
    {
      if Evaluate(cfg, feed).Ok? && |feed.shortEma.value| > 0 && |feed.longEma.value| > 0 {
        FreshDetectorHoldsOnFirstUpdate(cfg.hysteresisPercentage, cfg.hysteresisPeriods,
          Trade.SignalValue(feed.shortEma.value), Trade.SignalValue(feed.longEma.value));
      }
    }
  }

  /**
   * The send attempts of an evaluation: none after an error, one broadcast of
   * the signal's message to the subscribers after a signal.
   */
  ghost predicate Notified(e: Evaluation, subscribers: set<ChatId>, deliver: ChatId -> bool)
  {
    && (e.signal.Err? ==> e.deliveries == [])
    && (e.signal.Ok? ==> IsBroadcast(e.deliveries, subscribers, MessageText(ToTradeSignal(e.signal.value), e.uid), deliver))
  }

  class MarketScanner {
    const config: ScanConfig
    const notifier: SignalNotifier

    /** `MarketScanner::new`: keeps the configuration and owns a new notifier with no subscribers. */
    constructor (config: ScanConfig)
      ensures this.config == config
      ensures fresh(notifier) && notifier.subscribers == {}
    {
      this.config := config;
      notifier := new SignalNotifier();
    }

    /**
     * One pass of the loop of `scan_market`: build a strategy for the
     * instrument, ask it for a signal and, when one is obtained, broadcast it.
     */
    method EvaluateInstrument(uid: string, feed: Trade.Feed, deliver: ChatId -> bool) returns (e: Evaluation)
      ensures e.uid == uid && e.signal == Evaluate(config.strategy, feed)
      ensures Notified(e, notifier.subscribers, deliver)
    {
      var cfg := config.strategy;
      var strategy := new Trade.EmaCrossStrategy(uid, uid, cfg.shortEmaLength, cfg.longEmaLength, cfg.interval,
                                                 cfg.hysteresisPercentage, cfg.hysteresisPeriods);
      var signal := strategy.GetTradeSignal(feed);
      var deliveries := [];
      if signal.Ok? {
        var message;
        message, deliveries := notifier.NotifySignal(uid, ToTradeSignal(signal.value), deliver);
      }
      e := Evaluation(uid, signal, deliveries);
    }

    /**
     * `scan_market`: one cycle. Every evaluation that yields a signal, Hold
     * included, is broadcast to the subscribers; a failed evaluation is
     * skipped and the loop goes on.
     */
    method ScanMarket(input: CycleInput) returns (result: Result<()>, evaluations: seq<Evaluation>)
      ensures result == ScanSpec(config, input).0
      ensures |evaluations| == |ScanSpec(config, input).1|
      ensures forall k :: 0 <= k < |evaluations| ==>
        Report(evaluations[k].uid, evaluations[k].signal) == ScanSpec(config, input).1[k]
      ensures forall k :: 0 <= k < |evaluations| ==> Notified(evaluations[k], notifier.subscribers, input.deliver)
    {
      evaluations := [];
      if input.assets.Err? {
        return Err(input.assets.error), evaluations;
      }
      var filtered := Assets.FilterInstruments(input.assets.value, config.classCode, config.instrumentType);
      var uids := Assets.IntoUids(filtered.value);
      var statuses := input.statuses(uids);
      if statuses.Err? {
        return Err(statuses.error), evaluations;
      }
      var available := TradingStatuses.GetAvailableInstruments(statuses.value);
      for i := 0 to |available|
        invariant |evaluations| == i
        invariant forall k :: 0 <= k < i ==>
          Report(evaluations[k].uid, evaluations[k].signal) == Evaluations(config.strategy, available, input.feeds)[k]
        invariant forall k :: 0 <= k < i ==> Notified(evaluations[k], notifier.subscribers, input.deliver)
      {
        var e := EvaluateInstrument(available[i], input.feeds(available[i]), input.deliver);
        evaluations := evaluations + [e];
      }
      result := Ok(());
    }

    /**
     * `start_with_shutdown`: run one cycle per input, whatever the previous
     * cycle returned, until the shutdown; the loop itself always ends with Ok.
     */
    method StartWithShutdown(inputs: seq<CycleInput>) returns (r: Result<()>, outcomes: seq<Result<()>>)
      ensures r == Ok(())
      ensures |outcomes| == |inputs|
      ensures forall k :: 0 <= k < |inputs| ==> outcomes[k] == ScanSpec(config, inputs[k]).0
    {
      outcomes := [];
      for i := 0 to |inputs|
        invariant |outcomes| == i
        invariant forall k :: 0 <= k < i ==> outcomes[k] == ScanSpec(config, inputs[k]).0
      {
        var result, evaluations := ScanMarket(inputs[i]);
        outcomes := outcomes + [result];
      }
      r := Ok(());
    }
  }
}
