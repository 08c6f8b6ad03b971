# better-call-put, modelled in Dafny

better-call-put is a Telegram bot. In a loop it polls a broker's market-data API for a universe of
instruments. It filters the instruments by class code and instrument type, sorts them by ticker, and
keeps those whose trading status allows API trading. For each remaining instrument it asks the
indicator service for a short and a long EMA series. An EMA-cross strategy with a hysteresis detector
turns those into Buy, Sell or Hold, and the notifier sends the result to every chat that has
subscribed with `/start`.

This project models that core. Each component is one module:

- `Crossover` (`signal.dfy`): the hysteresis detector `CrossoverSignal`, as a class whose `Update`
  is specified by the pure step function `Step`. On runs of updates (`Run`) the model proves that
  emitted signals strictly alternate and that Buy is not repeated while the gap stays above the band.
- `Trade` (`trade.dfy`): the two-point crossing rule `analyze_crossover` and the strategy object
  `EmaCrossStrategy`. The object caches the last price and EMA values and drives its own detector.
  Its three fetched responses are a `Feed` input, with `Err` for a failed request.
- `Notifier` (`notifier.dfy`): the subscriber set, the `/start` rule, the three message templates
  and the snapshot broadcast. The send outcome for each chat is an input.
- `Scanner` (`scanner.dfy`): one `scan_market` cycle and the cycle loop of `start_with_shutdown`.
  The cycle's collaborator answers are a `CycleInput`.
- `Assets` (`assets.dfy`): `filter_instruments` of `get_assets.rs` (nested loops, then a stable
  in-place sort by ticker) and `into_uids`.
- `Bot` (`bot.dfy`): `Bot::filter_instruments` of `src/bot.rs`. It has the same code as the
  `get_assets.rs` filter, so it calls `Assets.FilterInstruments` and states what its result is.
- `Table` (`table.dfy`): the row, header and separator printers, as builders of the printed line.
  `src/bot.rs:75-104` holds the same three printers as `src/instruments/get_assets.rs:275-304`,
  so the `Table` members model both.
- `TradingStatuses` (`statuses.dfy`): first-match lookup, the "available for trading" predicate,
  and the list of available uids. `is_instrument_available` and `get_instrument_status` appear with
  the same code in `src/market_data_service/get_trading_statuses.rs:138-154`,
  `src/quotes/get_trading_statuses.rs:138-154` and `src/quotes/get_instruments_statuses.rs:9-25`.
  They are modelled once.
- `AutoPeriod` (`auto_period.dfy`): the day and hour arithmetic of
  `market_data_service/get_tech_analysis.rs`.
- `TimeRange` (`time_range.dfy`): the calendar windows, the `hours_back` table and `get_ema` of
  `quotes/get_tech_analysis.rs`.
- `Calendar` (`calendar.dfy`): the UTC civil-calendar helpers the windows need.
- `Models` (`models.dfy`): shared values. This includes the `Quotation` to real conversion.

Facts about the code that shape the model:

- `scan_market` passes every signal it obtains to the notifier, Hold included, and `notify_signal`
  has a Hold template.
- `scan_market` builds a new `EmaCrossStrategy` for every instrument in every cycle, so no detector
  state carries over between cycles.
  - Each detector therefore sees a single sample. With two or more hysteresis periods a scan
    never reports Buy or Sell (`Scanner.FreshStrategiesOnlyHold`).
- `scanner.rs` calls `EmaCrossStrategy::new` with four of its seven arguments. It passes a
  `Signal` where `notify_signal` takes a `TradeSignal`. It uses the quotes status type, which has
  no `get_available_instruments`. The model follows the evident data flow:
  - the hysteresis parameters come from the strategy configuration;
  - the uid doubles as the ticker;
  - the signal is converted with `From<Signal>`;
  - the market-data status filter is used.

## Model

| member | source | states |
|---|---|---|
| Models.ParseUnits | src/bot/trade.rs:100 | parsing succeeds exactly on an optional "-" or "+" followed by at least one decimal digit, giving the digits' value with that sign; every other string, the empty one included, fails |
| Models.ParseFormatUnits | src/bot/trade.rs:148-149 | parsing the decimal rendering of any integer `units` gives the integer back |
| Models.QuotationValueOfRendered | src/bot/trade.rs:100-108 | a quotation whose units are the decimal rendering of any integer n is worth n + nano / 10^9 |
| Crossover.ToTradeSignal | src/bot/signal.rs:18-26 | Buy, Sell and Hold map to the trade signal of the same name, both ways |
| Crossover.Percentage | src/bot/signal.rs:60-61 | the gap is the percentage p with short = long + long * p / 100; it is 0 iff the EMAs are equal, and for a positive long EMA positive iff short is above long |
| Crossover.Classify | src/bot/signal.rs:68-74 | Above iff pct > threshold; Below iff pct < -threshold and not Above; Between otherwise |
| Crossover.Step | src/bot/signal.rs:55-105 | long EMA 0 gives Hold and no change. Otherwise: the zone is the classification, and the counter increments or restarts at 1, so it is at least 1. Buy iff Above, counter >= periods and the last signal is not Buy; Sell symmetrically. Between gives Hold. Hold never changes the last signal; an emission sets it to a new value |
| Crossover.CrossoverSignal.constructor | src/bot/signal.rs:45-53 | a new detector keeps its band and periods and starts Between, with counter 0 and no last signal |
| Crossover.CrossoverSignal.Update | src/bot/signal.rs:55-105 | the new fields and the returned signal are exactly `Step` of the old fields |
| Crossover.Run | src/bot/signal.rs:55-105 | a run of updates returns one signal per sample |
| Crossover.Emissions | src/bot/signal.rs:84-104 | the emitted signals of a run contain no Hold |
| Crossover.RunAlternates | src/bot/signal.rs:86-99 | every emission differs from the one before it, and the first from the detector's last signal; afterwards the last signal is the last emission |
| Crossover.NoTwoBuysInARow | src/bot/signal.rs:86-99 | in the emissions, Buy follows exactly Sell and Sell follows exactly Buy |
| Crossover.NoRepeatWhileAbove | src/bot/signal.rs:85-93 | after a Buy, samples that stay above the band all return Hold and the last signal stays Buy |
| Crossover.FreshDetectorHoldsOnFirstUpdate | src/bot/signal.rs:45-93 | with at least two periods, a new detector's first update returns Hold |
| Crossover.ScenarioBuy | src/bot/signal.rs:68-102 | band 0.5 and 3 periods: gaps 0.6, 0.7, 0.8 % give Hold, Hold, Buy; staying above then gives Hold |
| Crossover.ScenarioSell | src/bot/signal.rs:68-102 | band 0.5 and 3 periods: gaps -0.6, -0.7, -0.8 % give Hold, Hold, Sell |
| Trade.MiddleBands | src/bot/trade.rs:81-93 | the kept values are exactly the middle bands present in the series |
| Trade.MiddleBandsAppend | src/bot/trade.rs:81-86 | the projection keeps series order (it distributes over concatenation) |
| Trade.NewestFirst | src/bot/trade.rs:84-86 | `rev().take(n)` holds min(n, len) values, element k being the k-th newest |
| Trade.AnalyzeCrossover | src/bot/trade.rs:75-118 | Hold if either series has fewer than two middle bands. Otherwise, over the newest (cur) and previous (prev) values: Buy iff short_cur > long_cur and short_prev <= long_prev; Sell iff short_cur < long_cur and short_prev >= long_prev |
| Trade.CrossoverSymmetric | src/bot/trade.rs:110-117 | swapping the two series turns Buy into Sell and keeps Hold |
| Trade.OnlyNewestTwoMatter | src/bot/trade.rs:81-93 | once a series has two middle bands, older points prepended to it change nothing |
| Trade.SignalValueReadsNewest | src/bot/trade.rs:171-215 | the cached EMA depends only on the newest point: series ending alike give the same value, an appended point becomes the one read, and a rendered `signal` quotation reads back as its number |
| Trade.TradeStep | src/bot/trade.rs:133-223 | a failed fetch is returned, and a failed price fetch changes nothing. The price changes only on a non-empty price response, to its first entry. An empty series gives Hold with detector and caches kept. Otherwise the caches take the signal values and feed the detector's `Step`. A missing long value gives Hold with the detector unchanged |
| Trade.EmaCrossStrategy.constructor | src/bot/trade.rs:20-40 | the fields are kept, the caches are 0, and a fresh detector is built from the hysteresis parameters |
| Trade.EmaCrossStrategy.GetTradeSignal | src/bot/trade.rs:133-223 | the new caches, detector state and result are exactly `TradeStep` of the old state and the feed |
| Notifier.ParseMessage | src/bot/notifier.rs:30-43 | a message read back as (signal, instrument) is the template of that signal around that instrument |
| Notifier.MessageText | src/bot/notifier.rs:30-43 | the message is the signal's header line, the instrument verbatim, then its recommendation line |
| Notifier.ParseMessageText | src/bot/notifier.rs:30-43 | every formatted message reads back as the signal and the instrument it was made from |
| Notifier.MessageTextInjective | src/bot/notifier.rs:30-43 | two messages are equal only for the same signal and instrument, so Buy, Sell and Hold texts differ |
| Notifier.Subscribe | src/bot/notifier.rs:65-70 | the chat is added iff the text is exactly "/start"; otherwise the set is unchanged |
| Notifier.SubscribeIdempotent | src/bot/notifier.rs:68-69 | a repeated "/start" leaves the set as it was, and subscribing never removes anyone |
| Notifier.SignalNotifier.constructor | src/bot/notifier.rs:17-22 | a new notifier has no subscribers |
| Notifier.SignalNotifier.HandleMessage | src/bot/notifier.rs:62-81 | the subscriber set becomes `Subscribe` of the old one; the welcome text is the reply exactly to "/start" |
| Notifier.SignalNotifier.NotifySignal | src/bot/notifier.rs:29-55 | the message is the signal's template. Each subscriber gets exactly one attempt and nobody else gets one; each attempt's outcome is that chat's own, whatever failed before |
| Scanner.ScanSpec | src/bot/scanner.rs:69-138 | an asset or status failure returns that error before any evaluation. Otherwise every available uid is evaluated once, in the status filter's order, with a strategy built just for it |
| Scanner.ErrorsIsolated | src/bot/scanner.rs:126-134 | changing one instrument's fetch results changes neither the cycle's result nor any other instrument's report |
| Scanner.FreshStrategiesOnlyHold | src/bot/scanner.rs:118-124 | with two or more hysteresis periods, every report is an error or Hold |
| Scanner.MarketScanner.constructor | src/bot/scanner.rs:19-32 | the scanner keeps its configuration and owns a new notifier with no subscribers |
| Scanner.MarketScanner.EvaluateInstrument | src/bot/scanner.rs:118-134 | the signal is a fresh strategy's answer. A signal, Hold included, is broadcast to all subscribers; an error sends nothing |
| Scanner.MarketScanner.ScanMarket | src/bot/scanner.rs:69-138 | the result and the reports are those of `ScanSpec`, and every evaluation was notified as in `EvaluateInstrument` |
| Scanner.MarketScanner.StartWithShutdown | src/bot/scanner.rs:34-66 | every cycle runs whatever the previous one returned, each with `ScanSpec`'s result, and the loop ends with Ok |
| Assets.Select | src/instruments/get_assets.rs:176-182 | every selected instrument matches both codes |
| Assets.SelectComplete | src/instruments/get_assets.rs:176-182 | every matching instrument of an asset is selected |
| Assets.Matching | src/instruments/get_assets.rs:175-183 | every collected instrument matches both codes |
| Assets.MatchingComplete | src/instruments/get_assets.rs:175-183 | every matching instrument of every asset is collected |
| Assets.CollectMatching | src/instruments/get_assets.rs:173-183 | the nested loops push exactly the matching instruments, in asset-then-instrument order |
| Assets.TickerLessIrreflexive | src/instruments/get_assets.rs:192 | no ticker sorts before itself |
| Assets.TickerLessTransitive | src/instruments/get_assets.rs:192 | the ticker order is transitive |
| Assets.TickerLessTotal | src/instruments/get_assets.rs:192 | any two different tickers are ordered one way or the other |
| Assets.Insert | src/instruments/get_assets.rs:192 | inserting adds one element |
| Assets.SortByTicker | src/instruments/get_assets.rs:192 | sorting keeps the length |
| Assets.InsertPermutes | src/instruments/get_assets.rs:192 | inserting adds exactly the new element to the multiset |
| Assets.InsertSorted | src/instruments/get_assets.rs:192 | inserting into a sorted sequence keeps it sorted |
| Assets.SortPermutes | src/instruments/get_assets.rs:192 | the sort is a permutation |
| Assets.SortSorts | src/instruments/get_assets.rs:192 | the result is ordered by ticker |
| Assets.InsertKeepsTies | src/instruments/get_assets.rs:192 | inserting puts the new element after every element with the same ticker |
| Assets.SortStable | src/instruments/get_assets.rs:192 | for each ticker, the instruments with that ticker keep their order (the sort is stable) |
| Assets.InsertSplits | src/instruments/get_assets.rs:192 | when every ticker from position j on is greater than the key and the one before j is not, inserting places the key exactly at j |
| Assets.InsertAt | src/instruments/get_assets.rs:192 | one insertion pass places a[i] into the sorted prefix and leaves the rest of the array alone |
| Assets.SortInPlace | src/instruments/get_assets.rs:192 | the array ends as the stable ticker sort of its old contents |
| Assets.FilterInstruments | src/instruments/get_assets.rs:168-195 | the result is always Ok: the matching instruments, stably sorted by ticker |
| Assets.FilteredProperties | src/instruments/get_assets.rs:173-194 | the filter keeps only matches, keeps all of them (multiset), is sorted by ticker, and keeps traversal order within equal tickers |
| Assets.IntoUids | src/instruments/get_assets.rs:60-66 | same length, element i being the uid of instrument i |
| Bot.FilterInstruments | src/bot.rs:8-35 | always Ok; only instruments matching both codes, all of them (multiset), sorted by ticker, equal tickers in traversal order |
| Table.Utf8Len | src/instruments/get_assets.rs:279 | a character takes 1 to 4 bytes, and 1 exactly when it is ASCII |
| Table.ByteLen | src/instruments/get_assets.rs:279 | `len()` counts bytes, never fewer than the characters |
| Table.AsciiByteLen | src/instruments/get_assets.rs:279 | for ASCII text, bytes and characters agree |
| Table.Repeat | src/instruments/get_assets.rs:301 | `n` copies of the fill character |
| Table.PadRight | src/instruments/get_assets.rs:284 | `{:<width$}` keeps the text and pads it with spaces to the width |
| Table.Prefix | src/instruments/get_assets.rs:281 | `{:.width$}` keeps the first `width` characters |
| Table.FormatCell | src/instruments/get_assets.rs:278-285 | the cell printed for one value is `Cell`: truncated with "..." when its byte length exceeds width - 2, padded otherwise |
| Table.CellShape | src/instruments/get_assets.rs:278-285 | a value that fits is shown whole, padded to width - 2 between " " and " \|". A longer value shows its first width - 5 characters and "...". Either cell is width + 1 long when the value has at least width - 5 characters |
| Table.AsciiCellWidth | src/instruments/get_assets.rs:278-285 | for ASCII values every cell is width + 1 characters |
| Table.MultibyteCellIsNarrow | src/instruments/get_assets.rs:279-281 | six two-byte characters in a 12-wide column are judged too long but shown whole plus "...", in a cell one character short |
| Table.RenderRow | src/instruments/get_assets.rs:275-288 | the printed line is "\|", one cell per zipped value and column, then a newline |
| Table.RenderCells | src/instruments/get_assets.rs:277-286 | the loop emits, in order, exactly the cell of each (value, column) pair up to the shorter input |
| Table.CellListAt | src/instruments/get_assets.rs:277 | the k-th cell of the zipped list is the cell of the k-th value in the k-th column |
| Table.RenderHeader | src/instruments/get_assets.rs:290-296 | the printed line is "\|", each title padded to its column, then a newline |
| Table.RenderSeparator | src/instruments/get_assets.rs:298-304 | the printed line is "+", then per column `width` dashes and "+", then a newline |
| Table.RowCellsLength | src/instruments/get_assets.rs:275-288 | for ASCII data the cells of a row span the sum of (width + 1) |
| Table.HeaderCellsLength | src/instruments/get_assets.rs:290-296 | titles that fit span the sum of (width + 1) |
| Table.SeparatorCellsLength | src/instruments/get_assets.rs:298-304 | the separator's cells span the sum of (width + 1) |
| Table.SeparatorShape | src/instruments/get_assets.rs:298-304 | the separator consists only of dashes and "+", ending in "+" |
| Table.RowMatchesSeparator | src/instruments/get_assets.rs:275-304 | an ASCII row line is exactly as long as the separator line, 1 + sum of (width + 1) + newline |
| Table.StandardHeaderAligned | src/instruments/get_assets.rs:246-257 | with the six standard columns, header and separator lines are both 141 characters |
| TradingStatuses.GetInstrumentStatus | src/market_data_service/get_trading_statuses.rs:150-154 | None iff no entry has the uid; otherwise the first entry with it |
| TradingStatuses.IsInstrumentAvailable | src/market_data_service/get_trading_statuses.rs:138-147 | true iff the first entry with the uid exists, has the API flag and has status NormalTrading |
| TradingStatuses.FirstMatchUnique | src/market_data_service/get_trading_statuses.rs:141 | there is at most one first entry with a uid |
| TradingStatuses.FirstMatchDecides | src/market_data_service/get_trading_statuses.rs:141 | entries after the first match never change the lookup or the availability |
| TradingStatuses.GetAvailableInstruments | src/market_data_service/get_trading_statuses.rs:157-166 | a uid is listed iff some entry with it is tradable; never more uids than entries |
| TradingStatuses.GetAvailableInstrumentsAppend | src/market_data_service/get_trading_statuses.rs:157-166 | the list keeps the response order |
| TradingStatuses.AvailableListMatchesPredicate | src/market_data_service/get_trading_statuses.rs:138-166 | with distinct uids, listed iff available |
| TradingStatuses.AvailableImpliesStatusPresent | src/quotes/get_trading_statuses.rs:138-154 | available implies a status is present, and available iff the status found is tradable |
| TradingStatuses.AbsentUidUnavailable | src/quotes/get_instruments_statuses.rs:9-25 | with no entry for the uid there is no status and the instrument is unavailable |
| AutoPeriod.CeilDiv | src/market_data_service/get_tech_analysis.rs:165 | the smallest q with q * b >= a |
| AutoPeriod.RequiredPoints | src/market_data_service/get_tech_analysis.rs:159 | the smallest integer r with r >= 3.75 * length |
| AutoPeriod.DaysBack | src/market_data_service/get_tech_analysis.rs:162-207 | the days are at least the interval's floor (30 for Day and Unspecified, 90 for Week, 180 for Month, 1 to 8 below a day), and either exactly that floor or the fewest whole days whose candles cover the required points |
| AutoPeriod.DaysBackMonotone | src/market_data_service/get_tech_analysis.rs:159-207 | a longer EMA never asks for fewer days |
| AutoPeriod.DaysBackCoversRequiredPoints | src/market_data_service/get_tech_analysis.rs:159-207 | the days reach back over at least the required number of candles of the interval |
| AutoPeriod.PointsPerDayTimesMinutes | src/market_data_service/get_tech_analysis.rs:163-202 | each sub-daily table entry times the candle length is a full day |
| AutoPeriod.AutoPeriodRange | src/market_data_service/get_tech_analysis.rs:209-221 | `to` is now; `from` is the UTC midnight of the day `days` days before now |
| AutoPeriod.RequiredHours | src/market_data_service/get_tech_analysis.rs:230-267 | never negative for a non-negative count; hourly intervals take exactly count times the hours per candle; a day or longer takes whole days holding exactly max(count, 30) candles of the interval |
| AutoPeriod.RequiredHoursCover | src/market_data_service/get_tech_analysis.rs:230-267 | the hours always cover the candles, and for sub-hour intervals they are the fewest whole hours that do |
| Calendar.StartOfDay | src/quotes/get_tech_analysis.rs:248-256 | the UTC midnight at or before t, less than a day before it |
| Calendar.StartOfHour | src/quotes/get_tech_analysis.rs:263 | the full hour at or before t, less than an hour before it |
| Calendar.DaysFromMonday | src/quotes/get_tech_analysis.rs:279 | a weekday offset 0..6, and 1970-01-01 is a Thursday (3) |
| Calendar.MondayOfWeek | src/quotes/get_tech_analysis.rs:279 | stepping back by the offset lands on a Monday |
| Calendar.CivilFromDays | src/quotes/get_tech_analysis.rs:285 | the date of a day number is valid and maps back to that number |
| Calendar.CivilFromDaysUnique | src/quotes/get_tech_analysis.rs:285 | a valid date is the only date with its day number |
| Calendar.NextMonthStart | src/quotes/get_tech_analysis.rs:286-290 | the first of the next month (December rolls to January of the next year) is the month's length after its first day |
| TimeRange.TimeRangeForInterval | src/quotes/get_tech_analysis.rs:247-300 | from <= now <= to for every interval. Minute intervals: the current hour, to = from + 3599. Hour intervals, a day and Unspecified: the UTC day, to = from + 86399. Week: from the Monday midnight, seven days long. Month: from day 1, to one second before the next month |
| TimeRange.HourWindow | src/quotes/get_tech_analysis.rs:263-265 | the hour-aligned window of one hour containing now |
| TimeRange.WeekWindow | src/quotes/get_tech_analysis.rs:277-282 | starts on a Monday midnight, contains now, and is seven days less a second long |
| TimeRange.MonthWindow | src/quotes/get_tech_analysis.rs:283-293 | starts at midnight of day 1 of now's month, contains now, and ends one second before the first of the next month |
| TimeRange.HoursBackCoversCount | src/quotes/get_tech_analysis.rs:331-337 | for a positive count the `hours_back` window covers `count` candles exactly when the interval is not Week or Month |
| TimeRange.CandleMinutes | src/quotes/get_tech_analysis.rs:24-53 | the reference length of one candle for each interval variant, always positive; the `hours_back` lemma measures against it |
| TimeRange.HoursBack | src/quotes/get_tech_analysis.rs:331-337 | for a non-negative count the window is between count and 24 * count hours; the hourly intervals get exactly count candles and every other interval one day per value |
| TimeRange.GetEma | src/quotes/get_tech_analysis.rs:412-422 | every indicator with a middle band contributes its (timestamp, value), and nothing else is kept |
| TimeRange.GetEmaAppend | src/quotes/get_tech_analysis.rs:412-422 | the projection keeps response order |
| TimeRange.GetEmaSingle | src/quotes/get_tech_analysis.rs:415-419 | one indicator contributes its pair exactly when it has a middle band |

## Left out

- The HTTP requests are inputs, not modelled: `get_assets`, `get_trading_statuses`, `get_last_prices`, `get_tech_analysis`, `get_instrument_by`, `get_short_ema`, `get_long_ema` and `get_ema_values`. Their answers enter as `Result` values (`Trade.Feed`, `Scanner.CycleInput`).
- Concurrency is not modelled: `tokio::spawn`, the `teloxide::repl` listener task, the `Mutex` around the subscriber set, and the `select!` race between the shutdown channel and a cycle. The shutdown is the end of the input sequence. The pause between cycles, the HTTP client and its timeout are left out.
- The notifier's welcome-message send and its failure logging are not modelled. `HandleMessage` returns the welcome text it would send.
- The listener adding subscribers during a broadcast is not modelled. `NotifySignal` reads the set once, which is the snapshot.
- Notifier.SignalNotifier.NotifySignal: the order in which a `HashSet` yields chats is unspecified, so the contract fixes which chats receive an attempt and not the order of the attempts.
- Logging (`info!`, `error!`) is not modelled. Nor are the table dumps `print_instruments`, `print_filtered_instruments`, `print_ema_values`, `debug_print_indicator` and the `check_instruments_availability` examples. The model covers only the line builders they use.
- Models.ParseUnits: only an optional sign followed by decimal digits is modelled. Rust's `f64` parser also accepts fractions, exponents, `inf` and `nan`; the model treats those as parse failures. Floating-point rounding is replaced by exact reals.
- Crossover.CrossoverSignal.Update: `time_in_state` is a `u32` in the source. Its wrap-around after 2^32 updates in one zone is not modelled, because the counter is a `nat`.
- TimeRange.HoursBack: the `i32` overflow of `24 * count` for very large counts is not modelled, because integers are unbounded.
- AutoPeriod.DaysBack: the `i32` overflow of `required_points * 30` for very large lengths is not modelled, because integers are unbounded.
- Table.FormatCell, Table.RenderHeader: they require a width of at least 2, and `FormatCell` at least 5 for a value that is too long. Smaller widths underflow `usize` in the source; the model does not cover them.
- Table.MultibyteCellIsNarrow: the length lemmas (`RowMatchesSeparator`, `AsciiCellWidth`) assume ASCII values. The source measures bytes but pads and truncates characters, so non-ASCII rows can come out narrower, as this lemma exhibits.
- Assets.SortInPlace: Rust's `sort_by` is a stable merge sort, modelled by an in-place stable insertion sort. Every stable sort by the same key gives the same result. The comparison is the lexicographic order of tickers by code point, which matches byte order for UTF-8 strings.
- Scanner.MarketScanner.ScanMarket: the error branch after `filter_instruments` is not modelled, because that function always returns Ok.
- Time is not read from a clock: `chrono::Utc::now()` is the parameter `now`, in whole UTC seconds. Nanoseconds, leap seconds and the RFC 3339 strings are left out.
- The request constructors `new_ema_with_days_back`, `new_ema_empty_dates`, `new_ema_minimal`, `new_ema` and `new_for_current_day` are not modelled. Of `new_ema_last_n`, only the `hours_back` table is.
- Serde renames and wire formats (`src/models/enums.rs`, `src/models/structs.rs`, the enum wire names) are not modelled. Nor is the `instrumentKind` field of an instrument.
- Configuration loading (`src/config.rs`) and the process entry point (`src/main.rs`) are not modelled.
- `get_last_short`, `get_last_long`, `get_last_price` and `get_ticker` are plain field reads (`Trade.EmaCrossStrategy.GetLastShort` and the others) with no contract.
