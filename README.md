# Intraday signal engine — a Dafny model

This project models the core of an intraday equity signal engine. For one trading date the
engine works in four steps:

- It classifies the session bias of the index (Bullish, Bearish or Sideways) from the close
  of its last opening-range bar against the previous close.
- It ranks a symbol universe by intraday percent move and takes the gainers and losers.
- It filters the candidates by their trade history.
- It scans each kept symbol's bars for a breakout above the opening range and the running
  VWAP (or, for a short, below both). It emits at most one prediction per symbol.

Each prediction is then simulated. The position fills at the first bar at or after the signal
time. The walk forward takes the first bar that touches the stop or the target, with the stop
tested first within a bar. If no bar touches either level, the position exits at the last close.

The model has six modules:

- `Bars` (`bars.dfy`): bars, clock times and the run configuration.
- `Indicators` (`indicators.dfy`): VWAP, bias, opening range, entry window and sizing, from
  `signals.py:7-46`.
- `Detector` (`detector.dfy`): candidate choice, history filter and entry scan, from
  `signals.py:48-134`.
- `Outcomes` (`outcomes.dfy`): the outcome simulator, from `signals.py:136-193`.
- `Movers` (`movers.dfy`): the ranking half of `get_top_movers`, from `data_fetch.py:43-66`.
- `Subsequences` (`subsequences.dfy`): order-preserving subsequences and duplicate freedom.

Prices and volumes are `real`. A bar's time is its clock minute of the day, so 09:15 is 555.
The settings `CAPITAL`, `RISK_PER_TRADE`, `ENTRY_WINDOW_START` and `ENTRY_WINDOW_END` are one
`Config` parameter. The bar provider is a parameter:

- For detection it is `barsOf: string -> seq<Bar>`.
- For ranking it is `fetch: string -> Fetch`, where a `Fetch` is either the bars or a raised
  error.

The previous close is an `Option<real>` parameter. The statistics store is a map from symbol
to `{trades, winRate}`.

The loops of the source are methods with loop invariants:

- the history filter (`FilterCandidates`);
- the per-symbol scan with its `break` (`ScanForEntry`);
- the detector's loop over symbols (`GeneratePredictions`);
- the exit walk with its `break` (`EvaluateOutcome`);
- the ranking's collection loop with skip-on-error (`GetTopMovers`).

Each method is proved equal to a specification function. The behaviour the source promises is
proved as lemmas about those functions.

In three places a reader might expect something other than what the code does. The model
follows the code:

- **Fill bar.** One might expect the breakout to be executed at the next bar. The code's signal
  time is the signal bar's own `HH:MM`, and its fill search uses `>=`. On the detection bars the fill is therefore
  the Open of the signal bar itself, and NO_TRADE cannot occur (`Outcomes.FillIsSignalBar`).
- **R-multiple when pnl is zero.** One might expect the R-multiple to be 0 whenever pnl is 0. In
  the code the R-multiple is the per-share result over the floored risk, so it is zero exactly when
  the per-share result is zero. A zero quantity gives pnl 0 with a non-zero R-multiple
  (`Outcomes.SettlementSigns`).
- **Loser order.** One might expect the losers to be listed from the biggest loss up. The code takes the tail of the
  descending order, so the losers are listed in descending order and the biggest loser is last
  (`Movers.RankShape`).

## Model

| member | source | states |
|---|---|---|
| `Indicators.VwapAt` | signals.py:7-11 | the VWAP at row k is defined exactly when the cumulative volume is non-zero (NaN otherwise), and then VWAP times cumulative volume equals the cumulative typical-price-times-volume |
| `Indicators.CumulativePrefix` | signals.py:10 | the cumulative sums of the first n bars depend only on those n bars |
| `Indicators.VwapDependsOnPrefixOnly` | signals.py:7-11 | the VWAP at row k is a running statistic: two sessions that agree on bars 0..k have the same VWAP at k |
| `Indicators.CumulativeBounds` | signals.py:9-10 | with non-negative volumes and typical prices in [lo, hi], the cumulative price-volume lies between lo and hi times the cumulative volume |
| `Indicators.VwapWithinTypicalRange` | signals.py:7-11 | with positive volumes the VWAP at k is defined and lies in every interval holding the typical prices of bars 0..k |
| `Indicators.VwapBetweenPrefixExtremes` | signals.py:7-11 | with positive volumes the VWAP at k lies between the smallest and the largest typical price of bars 0..k |
| `Indicators.LastOpeningIndex` | signals.py:16-19 | returns the last bar inside 09:15-09:30 (inclusive), with no later one inside; none exactly when no bar is inside |
| `Indicators.MarketBias` | signals.py:13-25 | a bias other than Sideways needs index bars, a previous close and an opening-range bar; Bullish means the last opening-range close is above 1.001 times the previous close, Bearish that it is below 0.999 times it |
| `Indicators.BiasFallbacks` | signals.py:13-18 | the bias is Sideways with no index bars, no previous close, or no bar in 09:15-09:30 |
| `Indicators.BiasThresholds` | signals.py:19-25 | with c the close of the last opening-range bar: Bullish iff c > 1.001p; Bearish iff c is not above 1.001p and c < 0.999p; for p > 0, Bearish iff c < 0.999p and Sideways iff 0.999p <= c <= 1.001p |
| `Indicators.OpeningRangeOf` | signals.py:27-34 | none exactly when no bar lies in 09:15-09:30; otherwise ORH is the largest High and ORL the smallest Low of those bars, both attained by one of them |
| `Indicators.OpeningBandOrdered` | signals.py:27-34 | ORL <= ORH whenever every opening-range bar has Low <= High |
| `Indicators.WithinEntryWindow` | signals.py:36-38 | a time is admitted iff it is neither before the start nor after the end of the window, and only a non-empty window admits anything |
| `Indicators.EntryWindowInclusive` | signals.py:36-38 | the entry window admits exactly the times between its ends, both ends included |
| `Indicators.SuggestQty` | signals.py:40-46 | the quantity is never negative and is 0 for a zero-width stop; otherwise it is the largest q with q times the risk per share within the risk budget (0 for a negative budget) |
| `Indicators.SizingExample` | signals.py:40-46 | 1% of 100000 over a 2.5 risk per share gives 400 shares |
| `Detector.StatsFromCounts` | db.py:137-141 | the store's win rate is wins over trades, and 0 when there are no trades |
| `Detector.FilterCandidates` | signals.py:61-68 | the filter loop returns exactly the list of candidates that pass, in order |
| `Detector.KeptIsSubsequence` | signals.py:61-68 | the kept list is an order-preserving subsequence of the candidates |
| `Detector.KeptMembers` | signals.py:62-68 | a symbol is kept iff it is a candidate with no stats, fewer than 10 trades, or a win rate of at least 0.4 |
| `Detector.FilterBoundaries` | signals.py:64-68 | 9 trades with no wins passes; 10 trades at 0.3 is excluded; 10 trades at 0.4 passes |
| `Detector.FirstEntry` | signals.py:81-88 | returns the first bar inside the inclusive entry window that meets the breakout condition, with none before it; none exactly when no bar does |
| `Detector.ScanForEntry` | signals.py:81-88 | the scan loop skips bars outside the window and stops at the first bar whose close is above ORH and the VWAP (BUY) or below ORL and the VWAP (SELL) |
| `Detector.SignalCharacterization` | signals.py:70-88 | a symbol yields a prediction iff it has bars, an opening range and an entry bar; the prediction is built from the first entry bar |
| `Detector.BreakoutBeyondBand` | signals.py:84-112 | an emitted BUY entry is strictly above ORH and the VWAP of its own bar, and a SELL entry strictly below ORL and the VWAP; the signal bar lies in the entry window and the signal time is that bar's time |
| `Detector.MakePrediction` | signals.py:89-128 | the prediction enters at the signal bar's close and time, with the stop at ORL for BUY and ORH for SELL; the risk per share is the entry-to-stop distance, the target lies twice that distance from the entry on the side away from the stop, and the quantity is the sizing of entry and stop |
| `Detector.PredictionLevels` | signals.py:89-128 | BUY has stop < entry < target and SELL has target < entry < stop; the risk per share is the positive entry-to-stop distance, the target is twice that distance beyond the entry, and the quantity is the sizing of entry and stop |
| `Detector.SymbolSignal` | signals.py:71-133 | a symbol without bars yields nothing; an emitted prediction carries the scanned symbol, the session's action and bias, and a signal time inside the entry window |
| `Detector.SignalsForSubsequence` | signals.py:70-134 | the symbols of the predictions are an order-preserving subsequence of the scanned symbols |
| `Detector.SignalsForMembers` | signals.py:70-134 | each prediction is the scan result of one scanned symbol's bars |
| `Detector.GeneratePredictions` | signals.py:48-134 | the detector returns Sideways' empty list, or the scan results of the kept gainers (BUY, Bullish) or kept losers (SELL, Bearish), in order |
| `Detector.PredictionsFromCandidates` | signals.py:52-134 | Sideways yields none; the prediction symbols are an order-preserving subsequence of the bias's candidate list; each comes from a kept candidate with the bias's action |
| `Detector.AtMostOnePerSymbol` | signals.py:106-109 | with no repeated candidate no prediction symbol repeats, and there are never more predictions than candidates |
| `Outcomes.FirstAtOrAfter` | signals.py:148-158 | returns the first bar whose time is at or after the given time; none exactly when all bars are earlier |
| `Outcomes.FirstExit` | signals.py:164-176 | returns the first bar at or after the fill time that touches the stop or the target, with none before it; none when no walked bar does |
| `Outcomes.RiskFloor` | signals.py:181 | the planned risk is positive: the entry-to-stop distance, or 0.001 when that distance is zero |
| `Outcomes.EvaluateOutcome` | signals.py:136-193 | the simulator returns the outcome of the specification: none without bars, NO_TRADE without a bar at or after the signal, otherwise the fill, the first-touch or EOD exit, pnl and R-multiple |
| `Outcomes.NoTradeExactly` | signals.py:144-155 | no bars gives no outcome; otherwise NO_TRADE exactly when no bar is at or after the signal time, with zero pnl, zero R-multiple and no entry or exit fields |
| `Outcomes.FillAtFirstBarAtOrAfter` | signals.py:149-158 | the fill price and time are the Open and time of the first bar at or after the signal time |
| `Outcomes.FirstTouchWins` | signals.py:164-176 | the first walked bar that touches a level decides the exit at that bar's time: SL_HIT at the stop if it touches the stop (also when it touches both), else TARGET_HIT at the target |
| `Outcomes.EodWhenUntouched` | signals.py:160-176 | when no walked bar touches a level, the exit is EOD_EXIT at the last bar's close and time |
| `Outcomes.SettlementSigns` | signals.py:178-182 | pnl is the per-share result times the quantity; the R-multiple times the floored risk is the per-share result, so it has its sign, and the sign of pnl when the quantity is positive |
| `Outcomes.FillIsSignalBar` | signals.py:100-158 | on the detection bars (strictly increasing times) the outcome exists and is not NO_TRADE, the fill is the signal bar's Open at the signal time, and the walk starts at the signal bar |
| `Outcomes.WorkedScenarioOutcome` | signals.py:144-193 | a BUY at 50.5 (stop 48, target 55.5, 400 shares) whose 10:00 bar touches 48 is SL_HIT at 48, with pnl (48 - 50.6) x 400 and R-multiple (48 - 50.6) / 2.5 |
| `Movers.AvgVolume` | data_fetch.py:53 | the average volume times the bar count is the total volume |
| `Movers.PctChange` | data_fetch.py:50-52 | the percent change times the first Open is 100 times the last Close minus the first Open |
| `Movers.MoverOf` | data_fetch.py:46-56 | a symbol yields no record exactly when its fetch raises, its bars are empty, or its first Open is zero (the division raises); a record carries its symbol |
| `Movers.MoverSymbols` | data_fetch.py:64-65 | the symbol column has one entry per record, in order |
| `Movers.GetTopMovers` | data_fetch.py:43-66 | the ranker returns the ranking of the records its loop collects, skipping failing symbols |
| `Movers.MoversCollected` | data_fetch.py:44-56 | a record is collected iff it belongs to a universe symbol whose guarded processing produced it; a failing symbol does not stop the loop |
| `Movers.MoversInUniverseOrder` | data_fetch.py:45-54 | the collected symbols are an order-preserving subsequence of the universe |
| `Movers.Liquid` | data_fetch.py:62 | the volume filter keeps no more records than it is given, and every kept record has a positive average volume |
| `Movers.LiquidMembers` | data_fetch.py:62 | a record survives the volume filter iff its average volume is positive |
| `Movers.LiquidInOrder` | data_fetch.py:62 | the surviving symbols keep the order of the collected ones |
| `Movers.Insert` | data_fetch.py:63 | inserting into a descending list keeps it descending and adds exactly the inserted record |
| `Movers.SortDescending` | data_fetch.py:63 | the sort returns a permutation of the survivors in descending percent-change order |
| `Movers.HeadTailOrder` | data_fetch.py:63-65 | in a descending list the first and last min(topN, length) symbols are listed in list order; the head ranks at or above everything after it and the tail at or below everything before it |
| `Movers.Rank` | data_fetch.py:58-65 | no records give two empty lists; otherwise gainers and losers each have min(topN, survivors) symbols, never more than topN |
| `Movers.RankShape` | data_fetch.py:58-65 | no records give `([], [])`; otherwise gainers are the first and losers the last min(topN, survivors) symbols of the descending order, each in that order; every gainer ranks at or above every survivor after the head, and every loser at or below every survivor before the tail |
| `Movers.RankedSymbolsQualify` | data_fetch.py:45-62 | every gainer and loser is a universe symbol that was fetched with a non-zero first Open and has positive average volume; a symbol with average volume <= 0 never appears |
| `Movers.SortKeepsDistinct` | data_fetch.py:63 | sorting does not create repeated symbols |
| `Movers.GainersLosersDisjoint` | data_fetch.py:63-65 | with a duplicate-free universe and at least 2*topN survivors, gainers and losers share no symbol |
| `Movers.SingleSurvivorIsBoth` | data_fetch.py:63-65 | with fewer survivors the lists may overlap: a single survivor is both the only gainer and the only loser |

## Left out

- Bar fetching (`get_intraday`, `get_prev_close`, `get_nifty_intraday`) is left out. It is
  network I/O, column fix-ups and time-zone conversion. Its results are parameters.
- Persistence (`db.py`) is left out. The statistics store is a map parameter.
  `insert_prediction` is not modelled, so predictions and outcomes carry no database id. An
  outcome belongs to the prediction it was computed from.
- The orchestrator (`daily_run.py`) and the dashboard (`app.py`) are left out. They only wire
  calls together and display results.
- The trade date and the `HH:MM` string formatting are left out. Times are clock minutes of
  the trade date, with seconds absent.
- Exceptions raised by the bar provider during detection or simulation are left out. The code
  does not catch them there, so they abort the run.
- Floating-point rounding is left out. Prices are exact reals.
- `Indicators.VwapAt`: NaN is modelled only for 0/0. With mixed-sign volumes the cumulative
  volume can be zero while the cumulative price-volume is not, which gives an infinity in
  pandas. The model treats that case as NaN too.
- `Movers.SortDescending`: pandas' default sort is not stable. The model's insertion sort puts
  equal percent changes in one admissible order. The ranking lemmas use only that the result is
  a descending permutation, so they do not depend on the tie order.
- `Movers.GetTopMovers`: `top_n` is a natural number. With a negative `top_n`, pandas'
  `head`/`tail` drop rows from the other end, and that case is not modelled.
- `Movers.AvgVolume`: NaN volumes, which pandas' `mean` skips, are not modelled.
