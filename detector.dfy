/** The signal detector: bias-driven candidate choice, the history filter,
    and the first-match entry scan that emits at most one prediction per
    candidate symbol. */
module Detector {
  import opened Bars
  import opened Indicators
  import opened Subsequences

  datatype Action = Buy | Sell

  /** Rolling statistics of a symbol as the statistics store hands them out. */
  datatype SymbolStats = SymbolStats(trades: int, winRate: real)

  /** A candidate trade. `signalTime` is the clock minute of the signal bar. */
  datatype Prediction = Prediction(
    symbol: string, action: Action,
    entry: real, target: real, stop: real,
    signalTime: int, bias: Bias, reason: string,
    riskPerShare: real, qty: int)

  /** The store's view of a symbol: win rate is wins over trades, 0 with no trades. */
  function StatsFromCounts(trades: int, wins: int): (s: SymbolStats)
    ensures s.trades == trades
    ensures trades > 0 ==> s.winRate * trades as real == wins as real
    ensures trades <= 0 ==> s.winRate == 0.0
  {
    SymbolStats(trades, if trades > 0 then wins as real / trades as real else 0.0)
  }

  // ---------------------------------------------------------------- Filter

  /** A candidate passes with no history, fewer than 10 trades, or a win rate of at least 0.4. */
  predicate Keep(sym: string, stats: map<string, SymbolStats>) {
    sym !in stats || stats[sym].trades < 10 || stats[sym].winRate >= 0.4
  }

  function Kept(cands: seq<string>, stats: map<string, SymbolStats>): seq<string>
    decreases |cands|
  {
    if cands == [] then []
    else
      var last := cands[|cands| - 1];
      Kept(cands[..|cands| - 1], stats) + (if Keep(last, stats) then [last] else [])
  }

  /** The filter loop: appends every candidate that passes, in order. */
  method FilterCandidates(cands: seq<string>, stats: map<string, SymbolStats>) returns (filtered: seq<string>)
    ensures filtered == Kept(cands, stats)
  {
    filtered := [];
    for i := 0 to |cands|
      invariant filtered == Kept(cands[..i], stats)
    {
      assert cands[..i + 1][..i] == cands[..i];
      var sym := cands[i];
      if sym !in stats || stats[sym].trades < 10 {
        filtered := filtered + [sym];
      } else if stats[sym].winRate >= 0.4 {
        filtered := filtered + [sym];
      }
    }
    assert cands[..|cands|] == cands;
  }

  /** The kept list is an order-preserving subsequence of the candidates ... */
  lemma {:induction false} KeptIsSubsequence(cands: seq<string>, stats: map<string, SymbolStats>)
    ensures IsSubseq(Kept(cands, stats), cands)
    decreases |cands|
  {
    if cands != [] {
      var init, last := cands[..|cands| - 1], cands[|cands| - 1];
      KeptIsSubsequence(init, stats);
      var k := Kept(cands, stats);
      if Keep(last, stats) {
        assert k == Kept(init, stats) + [last];
        assert k[|k| - 1] == last;
        assert k[..|k| - 1] == Kept(init, stats);
      } else {
        assert k == Kept(init, stats);
      }
    }
  }

  /** ... and holds exactly the candidates that pass. */
  lemma {:induction false} KeptMembers(cands: seq<string>, stats: map<string, SymbolStats>)
    ensures forall s :: s in Kept(cands, stats) <==> s in cands && Keep(s, stats)
    decreases |cands|
  {
    if cands != [] {
      var init := cands[..|cands| - 1];
      KeptMembers(init, stats);
      assert cands == init + [cands[|cands| - 1]];
    }
  }

  /** The boundary cases of the filter: 9 trades and no wins passes, 10
      trades at 0.3 fails, 10 trades at 0.4 passes. */
  lemma FilterBoundaries(sym: string)
    ensures Keep(sym, map[sym := StatsFromCounts(9, 0)])
    ensures !Keep(sym, map[sym := StatsFromCounts(10, 3)])
    ensures Keep(sym, map[sym := StatsFromCounts(10, 4)])
  {
  }

  // ---------------------------------------------------------------- Entry scan

  /** The breakout condition at bar `k`: BUY closes above ORH and above the
      VWAP, SELL closes below ORL and below the VWAP. */
  predicate EntryCondition(bars: seq<Bar>, k: nat, action: Action, lv: Levels)
    requires k < |bars|
  {
    var close, vwap := bars[k].close, VwapAt(bars, k);
    match action
    case Buy => close > lv.orh && vwap.Some? && close > vwap.value
    case Sell => close < lv.orl && vwap.Some? && close < vwap.value
  }

  predicate IsEntryBar(bars: seq<Bar>, k: nat, action: Action, lv: Levels, cfg: Config)
    requires k < |bars|
  {
    WithinEntryWindow(bars[k].t, cfg) && EntryCondition(bars, k, action, lv)
  }

  /** The first entry bar at or after `from`. */
  function FirstEntry(bars: seq<Bar>, action: Action, lv: Levels, cfg: Config, from: nat): (r: Option<nat>)
    requires from <= |bars|
    ensures r.Some? ==> from <= r.value < |bars| && IsEntryBar(bars, r.value, action, lv, cfg)
    ensures r.Some? ==> forall j :: from <= j < r.value ==> !IsEntryBar(bars, j, action, lv, cfg)
    ensures r.None? ==> forall j :: from <= j < |bars| ==> !IsEntryBar(bars, j, action, lv, cfg)
    decreases |bars| - from
  {
    if from == |bars| then None
    else if IsEntryBar(bars, from, action, lv, cfg) then Some(from)
    else FirstEntry(bars, action, lv, cfg, from + 1)
  }

  /** The per-symbol scan: skips bars outside the window and stops at the
      first bar that meets the condition. */
  method ScanForEntry(bars: seq<Bar>, action: Action, lv: Levels, cfg: Config) returns (k: Option<nat>)
    ensures k == FirstEntry(bars, action, lv, cfg, 0)
  {
    k := None;
    var i := 0;
    while i < |bars|
      invariant 0 <= i <= |bars|
      invariant FirstEntry(bars, action, lv, cfg, 0) == FirstEntry(bars, action, lv, cfg, i)
    {
      if WithinEntryWindow(bars[i].t, cfg) {
        var close := bars[i].close;
        var vwap := VwapAt(bars, i);
        if action == Buy {
          if close > lv.orh && vwap.Some? && close > vwap.value {
            k := Some(i);
            break;
          }
        } else if close < lv.orl && vwap.Some? && close < vwap.value {
          k := Some(i);
          break;
        }
      }
      i := i + 1;
    }
  }

  function Reason(action: Action): string {
    match action
    case Buy => "Bullish breakout above ORH & VWAP"
    case Sell => "Bearish breakdown below ORL & VWAP"
  }

  /** The prediction emitted at signal bar `b`: entry at its close, stop at
      the far side of the band, target at twice the risk beyond the entry. */
  function MakePrediction(symbol: string, action: Action, bias: Bias, b: Bar, lv: Levels, cfg: Config): (r: Prediction)
    ensures r.symbol == symbol && r.action == action && r.bias == bias
    ensures r.entry == b.close && r.signalTime == b.t
    ensures r.stop == (if action == Buy then lv.orl else lv.orh)
    ensures r.riskPerShare == Abs(r.entry - r.stop) && r.riskPerShare >= 0.0
    ensures r.target - r.entry == 2.0 * (r.entry - r.stop)
    ensures Abs(r.target - r.entry) == 2.0 * r.riskPerShare
    ensures r.qty == SuggestQty(r.entry, r.stop, cfg) && r.qty >= 0
  {
    var entry := b.close;
    var stop := if action == Buy then lv.orl else lv.orh;
    var target := if action == Buy then entry + 2.0 * (entry - stop) else entry - 2.0 * (stop - entry);
    Prediction(symbol, action, entry, target, stop, b.t, bias, Reason(action),
               Abs(entry - stop), SuggestQty(entry, stop, cfg))
  }

  /** What the detector emits for one symbol and its session bars. */
  function SymbolSignal(symbol: string, bars: seq<Bar>, action: Action, bias: Bias, cfg: Config): (r: Option<Prediction>)
    ensures |bars| == 0 ==> r.None?
    ensures r.Some? ==> r.value.symbol == symbol && r.value.action == action && r.value.bias == bias
    ensures r.Some? ==> WithinEntryWindow(r.value.signalTime, cfg)
  {
    if |bars| == 0 then None
    else match OpeningRange(bars)
      case None => None
      case Some(lv) =>
        match FirstEntry(bars, action, lv, cfg, 0)
        case None => None
        case Some(k) => Some(MakePrediction(symbol, action, bias, bars[k], lv, cfg))
  }

  /** Bar `k` is the one the scan stops at. */
  predicate IsFirstEntry(bars: seq<Bar>, k: nat, action: Action, lv: Levels, cfg: Config) {
    k < |bars| && IsEntryBar(bars, k, action, lv, cfg) &&
    forall j :: 0 <= j < k ==> !IsEntryBar(bars, j, action, lv, cfg)
  }

  /** A symbol yields a prediction exactly when it has bars, an opening range
      and an entry bar; the prediction comes from the first entry bar. */
  lemma SignalCharacterization(symbol: string, bars: seq<Bar>, action: Action, bias: Bias, cfg: Config)
    ensures SymbolSignal(symbol, bars, action, bias, cfg).None? <==>
              |bars| == 0 || OpeningRange(bars).None? ||
              forall j :: 0 <= j < |bars| ==> !IsEntryBar(bars, j, action, OpeningRange(bars).value, cfg)
    ensures SymbolSignal(symbol, bars, action, bias, cfg).Some? ==>
              OpeningRange(bars).Some? &&
              exists k: nat :: IsFirstEntry(bars, k, action, OpeningRange(bars).value, cfg) &&
                SymbolSignal(symbol, bars, action, bias, cfg).value ==
                  MakePrediction(symbol, action, bias, bars[k], OpeningRange(bars).value, cfg)
  {
    if |bars| > 0 && OpeningRange(bars).Some? {
      var lv := OpeningRange(bars).value;
      var r := FirstEntry(bars, action, lv, cfg, 0);
      if r.Some? {
        assert IsFirstEntry(bars, r.value, action, lv, cfg);
      }
    }
  }

  /** An emitted entry is strictly beyond the opening-range bound in the
      trade's direction and strictly on the favourable side of the VWAP at
      its own bar, which lies in the entry window. */
  lemma BreakoutBeyondBand(symbol: string, bars: seq<Bar>, action: Action, bias: Bias, cfg: Config)
    requires SymbolSignal(symbol, bars, action, bias, cfg).Some?
    ensures var p := SymbolSignal(symbol, bars, action, bias, cfg).value;
            var lv := OpeningRange(bars).value;
            p.symbol == symbol && p.action == action && p.bias == bias &&
            exists k :: 0 <= k < |bars| && bars[k].t == p.signalTime && p.entry == bars[k].close &&
              WithinEntryWindow(bars[k].t, cfg) && VwapAt(bars, k).Some? &&
              (action == Buy ==> p.entry > lv.orh && p.entry > VwapAt(bars, k).value) &&
              (action == Sell ==> p.entry < lv.orl && p.entry < VwapAt(bars, k).value)
  {
    SignalCharacterization(symbol, bars, action, bias, cfg);
  }

  /** The levels of a prediction are arranged 2:1 around its entry: for BUY
      stop < entry < target, for SELL target < entry < stop, the risk per
      share is the entry-to-stop distance and the target is twice that
      distance on the other side. */
  lemma PredictionLevels(symbol: string, bars: seq<Bar>, action: Action, bias: Bias, cfg: Config)
    requires SymbolSignal(symbol, bars, action, bias, cfg).Some?
    requires forall j :: 0 <= j < |bars| && InOpeningRange(bars[j].t) ==> bars[j].low <= bars[j].high
    ensures var p := SymbolSignal(symbol, bars, action, bias, cfg).value;
            p.riskPerShare > 0.0 && p.qty == SuggestQty(p.entry, p.stop, cfg) &&
            (action == Buy ==> p.stop < p.entry < p.target &&
                               p.riskPerShare == p.entry - p.stop && p.target - p.entry == 2.0 * p.riskPerShare) &&
            (action == Sell ==> p.target < p.entry < p.stop &&
                                p.riskPerShare == p.stop - p.entry && p.entry - p.target == 2.0 * p.riskPerShare)
  {
    SignalCharacterization(symbol, bars, action, bias, cfg);
    OpeningBandOrdered(bars);
  }

  // ---------------------------------------------------------------- Whole run

  function Symbols(ps: seq<Prediction>): seq<string>
    decreases |ps|
  {
    if ps == [] then [] else Symbols(ps[..|ps| - 1]) + [ps[|ps| - 1].symbol]
  }

  /** The predictions of the scan over `symbols`, in their order. */
  function SignalsFor(symbols: seq<string>, barsOf: string -> seq<Bar>, action: Action, bias: Bias, cfg: Config): seq<Prediction>
    decreases |symbols|
  {
    if symbols == [] then []
    else
      var last := symbols[|symbols| - 1];
      SignalsFor(symbols[..|symbols| - 1], barsOf, action, bias, cfg) +
        AsSeq(SymbolSignal(last, barsOf(last), action, bias, cfg))
  }

  function AsSeq(o: Option<Prediction>): seq<Prediction> {
    match o
    case None => []
    case Some(p) => [p]
  }

  lemma SignalsForStep(symbols: seq<string>, i: nat, barsOf: string -> seq<Bar>, action: Action, bias: Bias, cfg: Config)
    requires i < |symbols|
    ensures SignalsFor(symbols[..i + 1], barsOf, action, bias, cfg) ==
              SignalsFor(symbols[..i], barsOf, action, bias, cfg) + AsSeq(SymbolSignal(symbols[i], barsOf(symbols[i]), action, bias, cfg))
  {
    assert symbols[..i + 1][..i] == symbols[..i];
  }

  /** The candidate list the bias selects and its action; none for Sideways. */
  function Candidates(bias: Bias, gainers: seq<string>, losers: seq<string>): seq<string> {
    match bias
    case Bullish => gainers
    case Bearish => losers
    case Sideways => []
  }

  function ActionFor(bias: Bias): Action {
    if bias == Bearish then Sell else Buy
  }

  /** All predictions of a session date. */
  function Predictions(bias: Bias, gainers: seq<string>, losers: seq<string>, stats: map<string, SymbolStats>,
                       barsOf: string -> seq<Bar>, cfg: Config): seq<Prediction>
  {
    if bias == Sideways then []
    else SignalsFor(Kept(Candidates(bias, gainers, losers), stats), barsOf, ActionFor(bias), bias, cfg)
  }

  /** The detector: Sideways yields nothing; otherwise filter the candidates
      and scan each kept symbol's bars, appending at most one prediction per
      symbol. `barsOf` supplies a symbol's session bars. */
  method GeneratePredictions(bias: Bias, gainers: seq<string>, losers: seq<string>,
                             stats: map<string, SymbolStats>, barsOf: string -> seq<Bar>, cfg: Config)
    returns (predictions: seq<Prediction>)
    ensures predictions == Predictions(bias, gainers, losers, stats, barsOf, cfg)
  {
    var candidates: seq<string>;
    var action: Action;
    if bias == Bullish {
      candidates, action := gainers, Buy;
    } else if bias == Bearish {
      candidates, action := losers, Sell;
    } else {
      return [];
    }
    var filtered := FilterCandidates(candidates, stats);
    predictions := [];
    for i := 0 to |filtered|
      invariant predictions == SignalsFor(filtered[..i], barsOf, action, bias, cfg)
    {
      SignalsForStep(filtered, i, barsOf, action, bias, cfg);
      var symbol := filtered[i];
      var bars := barsOf(symbol);
      if |bars| == 0 {
        assert SymbolSignal(symbol, bars, action, bias, cfg) == None;
        continue;
      }
      var levels := OpeningRange(bars);
      if levels.None? {
        assert SymbolSignal(symbol, bars, action, bias, cfg) == None;
        continue;
      }
      var k := ScanForEntry(bars, action, levels.value, cfg);
      if k.Some? {
        predictions := predictions + [MakePrediction(symbol, action, bias, bars[k.value], levels.value, cfg)];
      } else {
        assert SymbolSignal(symbol, bars, action, bias, cfg) == None;
      }
    }
    assert filtered[..|filtered|] == filtered;
  }

  lemma {:induction false} SignalsForSubsequence(symbols: seq<string>, barsOf: string -> seq<Bar>, action: Action, bias: Bias, cfg: Config)
    ensures IsSubseq(Symbols(SignalsFor(symbols, barsOf, action, bias, cfg)), symbols)
    decreases |symbols|
  {
    if symbols != [] {
      var init, last := symbols[..|symbols| - 1], symbols[|symbols| - 1];
      SignalsForSubsequence(init, barsOf, action, bias, cfg);
      var ps := SignalsFor(symbols, barsOf, action, bias, cfg);
      var ps' := SignalsFor(init, barsOf, action, bias, cfg);
      var o := SymbolSignal(last, barsOf(last), action, bias, cfg);
      assert ps == ps' + AsSeq(o);
      if o.Some? {
        assert ps[..|ps| - 1] == ps';
        assert Symbols(ps) == Symbols(ps') + [last];
        assert Symbols(ps)[..|Symbols(ps)| - 1] == Symbols(ps');
      } else {
        assert ps == ps';
      }
    }
  }

  lemma {:induction false} SignalsForMembers(symbols: seq<string>, barsOf: string -> seq<Bar>, action: Action, bias: Bias, cfg: Config)
    ensures forall p :: p in SignalsFor(symbols, barsOf, action, bias, cfg) ==>
              p.symbol in symbols && SymbolSignal(p.symbol, barsOf(p.symbol), action, bias, cfg) == Some(p)
    decreases |symbols|
  {
    if symbols != [] {
      var init, last := symbols[..|symbols| - 1], symbols[|symbols| - 1];
      SignalsForMembers(init, barsOf, action, bias, cfg);
      var o := SymbolSignal(last, barsOf(last), action, bias, cfg);
      assert SignalsFor(symbols, barsOf, action, bias, cfg) == SignalsFor(init, barsOf, action, bias, cfg) + AsSeq(o);
      assert symbols == init + [last];
    }
  }

  /** The symbols of the predictions form an order-preserving subsequence of
      the candidate list the bias selects (none for Sideways); each comes
      from a candidate that passed the filter, and is what the scan of that
      candidate's bars emits. */
  lemma PredictionsFromCandidates(bias: Bias, gainers: seq<string>, losers: seq<string>,
                                  stats: map<string, SymbolStats>, barsOf: string -> seq<Bar>, cfg: Config)
    ensures bias == Sideways ==> Predictions(bias, gainers, losers, stats, barsOf, cfg) == []
    ensures IsSubseq(Symbols(Predictions(bias, gainers, losers, stats, barsOf, cfg)), Candidates(bias, gainers, losers))
    ensures forall p :: p in Predictions(bias, gainers, losers, stats, barsOf, cfg) ==>
              p.symbol in Candidates(bias, gainers, losers) && Keep(p.symbol, stats) &&
              p.action == ActionFor(bias) &&
              SymbolSignal(p.symbol, barsOf(p.symbol), ActionFor(bias), bias, cfg) == Some(p)
  {
    if bias != Sideways {
      var cands := Candidates(bias, gainers, losers);
      var kept := Kept(cands, stats);
      SignalsForSubsequence(kept, barsOf, ActionFor(bias), bias, cfg);
      SignalsForMembers(kept, barsOf, ActionFor(bias), bias, cfg);
      KeptIsSubsequence(cands, stats);
      KeptMembers(cands, stats);
      SubseqTransitive(Symbols(SignalsFor(kept, barsOf, ActionFor(bias), bias, cfg)), kept, cands);
      forall p | p in Predictions(bias, gainers, losers, stats, barsOf, cfg)
        ensures p.action == ActionFor(bias)
      {
      }
    } else {
      assert Symbols([]) == [];
    }
  }

  /** At most one prediction per symbol: with no repeated candidate, no
      prediction symbol repeats, and there are never more predictions than
      candidates. */
  lemma AtMostOnePerSymbol(bias: Bias, gainers: seq<string>, losers: seq<string>,
                           stats: map<string, SymbolStats>, barsOf: string -> seq<Bar>, cfg: Config)
    requires Distinct(Candidates(bias, gainers, losers))
    ensures Distinct(Symbols(Predictions(bias, gainers, losers, stats, barsOf, cfg)))
    ensures |Symbols(Predictions(bias, gainers, losers, stats, barsOf, cfg))| <= |Candidates(bias, gainers, losers)|
  {
    PredictionsFromCandidates(bias, gainers, losers, stats, barsOf, cfg);
    var syms := Symbols(Predictions(bias, gainers, losers, stats, barsOf, cfg));
    SubseqDistinct(syms, Candidates(bias, gainers, losers));
    SubseqLength(syms, Candidates(bias, gainers, losers));
  }
}
