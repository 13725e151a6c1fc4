/** The reference indicators of the signal engine: the running VWAP, the
    session bias of the index, the opening-range band, the entry window and
    position sizing. All of them are computations on bar values. */
module Indicators {
  import opened Bars

  datatype Bias = Bullish | Bearish | Sideways

  /** The opening-range band: highest High and lowest Low over 09:15-09:30. */
  datatype Levels = Levels(orh: real, orl: real)

  // ---------------------------------------------------------------- VWAP

  function TypicalPrice(b: Bar): real {
    (b.high + b.low + b.close) / 3.0
  }

  /** Cumulative volume of the first `n` bars (the `cumsum` of the Volume column). */
  function CumVolume(bars: seq<Bar>, n: nat): real
    requires n <= |bars|
  {
    if n == 0 then 0.0 else CumVolume(bars, n - 1) + bars[n - 1].volume
  }

  /** Cumulative typical-price-times-volume of the first `n` bars. */
  function CumPriceVolume(bars: seq<Bar>, n: nat): real
    requires n <= |bars|
  {
    if n == 0 then 0.0 else CumPriceVolume(bars, n - 1) + TypicalPrice(bars[n - 1]) * bars[n - 1].volume
  }

  /** The `vwap` column at row `k`. `None` stands for the NaN that 0/0 gives
      while no volume has traded yet; every comparison with it is false. */
  function VwapAt(bars: seq<Bar>, k: nat): (r: Option<real>)
    requires k < |bars|
    ensures r.Some? <==> CumVolume(bars, k + 1) != 0.0
    ensures r.Some? ==> r.value * CumVolume(bars, k + 1) == CumPriceVolume(bars, k + 1)
  {
    var v := CumVolume(bars, k + 1);
    if v == 0.0 then None else Some(CumPriceVolume(bars, k + 1) / v)
  }

  /** The cumulative sums look only at the bars they cover. */
  lemma {:induction false} CumulativePrefix(a: seq<Bar>, b: seq<Bar>, n: nat)
    requires n <= |a| && n <= |b| && a[..n] == b[..n]
    ensures CumVolume(a, n) == CumVolume(b, n)
    ensures CumPriceVolume(a, n) == CumPriceVolume(b, n)
  {
    if n > 0 {
      assert a[n - 1] == a[..n][n - 1] == b[..n][n - 1] == b[n - 1];
      assert a[..n - 1] == a[..n][..n - 1] == b[..n][..n - 1] == b[..n - 1];
      CumulativePrefix(a, b, n - 1);
    }
  }

  /** VWAP is a running statistic, not a look-ahead value: row `k` depends on
      bars `0..k` only, so appending later bars never changes it. */
  lemma VwapDependsOnPrefixOnly(a: seq<Bar>, b: seq<Bar>, k: nat)
    requires k < |a| && k < |b| && a[..k + 1] == b[..k + 1]
    ensures VwapAt(a, k) == VwapAt(b, k)
  {
    CumulativePrefix(a, b, k + 1);
  }

  /** With non-negative volumes and typical prices in [lo, hi], the cumulative
      sums stay between lo and hi times the cumulative volume. */
  lemma {:induction false} CumulativeBounds(bars: seq<Bar>, n: nat, lo: real, hi: real)
    requires n <= |bars|
    requires forall j :: 0 <= j < n ==> bars[j].volume >= 0.0
    requires forall j :: 0 <= j < n ==> lo <= TypicalPrice(bars[j]) <= hi
    ensures CumVolume(bars, n) >= 0.0
    ensures lo * CumVolume(bars, n) <= CumPriceVolume(bars, n) <= hi * CumVolume(bars, n)
  {
    if n > 0 {
      CumulativeBounds(bars, n - 1, lo, hi);
      var v, tp := bars[n - 1].volume, TypicalPrice(bars[n - 1]);
      assert (tp - lo) * v >= 0.0;
      assert (hi - tp) * v >= 0.0;
      assert lo * CumVolume(bars, n) == lo * CumVolume(bars, n - 1) + lo * v;
      assert hi * CumVolume(bars, n) == hi * CumVolume(bars, n - 1) + hi * v;
    }
  }

  lemma {:induction false} CumVolumePositive(bars: seq<Bar>, n: nat)
    requires 0 < n <= |bars|
    requires forall j :: 0 <= j < n ==> bars[j].volume > 0.0
    ensures CumVolume(bars, n) > 0.0
  {
    if n > 1 {
      CumVolumePositive(bars, n - 1);
    }
  }

  /** With positive volumes the VWAP at row `k` is defined and lies inside
      every interval that holds the typical prices of bars `0..k`. */
  lemma VwapWithinTypicalRange(bars: seq<Bar>, k: nat, lo: real, hi: real)
    requires k < |bars|
    requires forall j :: 0 <= j <= k ==> bars[j].volume > 0.0
    requires forall j :: 0 <= j <= k ==> lo <= TypicalPrice(bars[j]) <= hi
    ensures VwapAt(bars, k).Some?
    ensures lo <= VwapAt(bars, k).value <= hi
  {
    CumVolumePositive(bars, k + 1);
    CumulativeBounds(bars, k + 1, lo, hi);
    QuotientBetween(CumPriceVolume(bars, k + 1), CumVolume(bars, k + 1), lo, hi);
  }

  lemma QuotientBetween(n: real, d: real, lo: real, hi: real)
    requires d > 0.0 && lo * d <= n <= hi * d
    ensures lo <= n / d <= hi
  {
    DivMulCancel(n, d);
    if n / d < lo {
      MulMonotone(n / d, lo, d);
    }
    if n / d > hi {
      MulMonotone(hi, n / d, d);
    }
  }

  /** Index of a bar with the largest typical price among the first `n`. */
  function MaxTypicalIndex(bars: seq<Bar>, n: nat): (i: nat)
    requires 0 < n <= |bars|
    ensures i < n && forall j :: 0 <= j < n ==> TypicalPrice(bars[j]) <= TypicalPrice(bars[i])
  {
    if n == 1 then 0
    else
      var i := MaxTypicalIndex(bars, n - 1);
      if TypicalPrice(bars[n - 1]) > TypicalPrice(bars[i]) then n - 1 else i
  }

  /** Index of a bar with the smallest typical price among the first `n`. */
  function MinTypicalIndex(bars: seq<Bar>, n: nat): (i: nat)
    requires 0 < n <= |bars|
    ensures i < n && forall j :: 0 <= j < n ==> TypicalPrice(bars[i]) <= TypicalPrice(bars[j])
  {
    if n == 1 then 0
    else
      var i := MinTypicalIndex(bars, n - 1);
      if TypicalPrice(bars[n - 1]) < TypicalPrice(bars[i]) then n - 1 else i
  }

  /** With positive volumes the VWAP at row `k` lies between the smallest and
      the largest typical price of bars `0..k`. */
  lemma VwapBetweenPrefixExtremes(bars: seq<Bar>, k: nat)
    requires k < |bars|
    requires forall j :: 0 <= j <= k ==> bars[j].volume > 0.0
    ensures VwapAt(bars, k).Some?
    ensures exists i, j :: 0 <= i <= k && 0 <= j <= k &&
              TypicalPrice(bars[i]) <= VwapAt(bars, k).value <= TypicalPrice(bars[j])
  {
    var i, j := MinTypicalIndex(bars, k + 1), MaxTypicalIndex(bars, k + 1);
    VwapWithinTypicalRange(bars, k, TypicalPrice(bars[i]), TypicalPrice(bars[j]));
  }

  // ---------------------------------------------------------------- Bias

  /** Index of the last bar among the first `n` whose time is in 09:15-09:30
      (`between_time(...).iloc[-1]`), if there is one. */
  function LastOpeningIndex(bars: seq<Bar>, n: nat): (r: Option<nat>)
    requires n <= |bars|
    ensures r.Some? ==> r.value < n && InOpeningRange(bars[r.value].t)
    ensures r.Some? ==> forall j :: r.value < j < n ==> !InOpeningRange(bars[j].t)
    ensures r.None? ==> forall j :: 0 <= j < n ==> !InOpeningRange(bars[j].t)
  {
    if n == 0 then None
    else if InOpeningRange(bars[n - 1].t) then Some(n - 1)
    else LastOpeningIndex(bars, n - 1)
  }

  /** The session bias of the index, from the close of its last opening-range
      bar against the previous session's close, with a 0.1% band. */
  function MarketBias(index: seq<Bar>, prevClose: Option<real>): (r: Bias)
    ensures r != Sideways ==> |index| > 0 && prevClose.Some? && LastOpeningIndex(index, |index|).Some?
    ensures r == Bullish ==> index[LastOpeningIndex(index, |index|).value].close > prevClose.value * 1.001
    ensures r == Bearish ==> index[LastOpeningIndex(index, |index|).value].close < prevClose.value * 0.999
  {
    if |index| == 0 || prevClose.None? then Sideways
    else match LastOpeningIndex(index, |index|)
      case None => Sideways
      case Some(k) =>
        var c, p := index[k].close, prevClose.value;
        if c > p * 1.001 then Bullish
        else if c < p * 0.999 then Bearish
        else Sideways
  }

  /** Missing data gives Sideways: no index bars, no previous close, or no
      bar in the opening-range window. */
  lemma BiasFallbacks(index: seq<Bar>, prevClose: Option<real>)
    requires index == [] || prevClose.None? || forall j :: 0 <= j < |index| ==> !InOpeningRange(index[j].t)
    ensures MarketBias(index, prevClose) == Sideways
  {
  }

  /** The thresholds, for `c` the close of the last bar at or between 09:15 and
      09:30. Bullish is tested first, so for any previous close Bearish needs
      `c` not above the upper band as well. */
  lemma BiasThresholds(index: seq<Bar>, p: real, k: nat)
    requires k < |index| && InOpeningRange(index[k].t)
    requires forall j :: k < j < |index| ==> !InOpeningRange(index[j].t)
    ensures MarketBias(index, Some(p)) == Bullish <==> index[k].close > p * 1.001
    ensures MarketBias(index, Some(p)) == Bearish <==> !(index[k].close > p * 1.001) && index[k].close < p * 0.999
    ensures p > 0.0 ==> (MarketBias(index, Some(p)) == Bearish <==> index[k].close < p * 0.999)
    ensures p > 0.0 ==> (MarketBias(index, Some(p)) == Sideways <==> p * 0.999 <= index[k].close <= p * 1.001)
  {
    assert LastOpeningIndex(index, |index|) == Some(k);
  }

  // ---------------------------------------------------------------- Opening range

  /** The band over the first `n` bars: max High and min Low of the bars in
      09:15-09:30, or None when no such bar exists. */
  function OpeningRangeOf(bars: seq<Bar>, n: nat): (r: Option<Levels>)
    requires n <= |bars|
    ensures r.None? <==> forall j :: 0 <= j < n ==> !InOpeningRange(bars[j].t)
    ensures r.Some? ==> forall j :: 0 <= j < n && InOpeningRange(bars[j].t) ==>
                          bars[j].high <= r.value.orh && r.value.orl <= bars[j].low
    ensures r.Some? ==> exists j :: 0 <= j < n && InOpeningRange(bars[j].t) && bars[j].high == r.value.orh
    ensures r.Some? ==> exists j :: 0 <= j < n && InOpeningRange(bars[j].t) && bars[j].low == r.value.orl
  {
    if n == 0 then None
    else
      var rest := OpeningRangeOf(bars, n - 1);
      var b := bars[n - 1];
      if !InOpeningRange(b.t) then rest
      else match rest
        case None => Some(Levels(b.high, b.low))
        case Some(lv) =>
          Some(Levels(if b.high > lv.orh then b.high else lv.orh,
                      if b.low < lv.orl then b.low else lv.orl))
  }

  function OpeningRange(bars: seq<Bar>): Option<Levels> {
    OpeningRangeOf(bars, |bars|)
  }

  /** ORL <= ORH whenever every opening-range bar has Low <= High. */
  lemma OpeningBandOrdered(bars: seq<Bar>)
    requires forall j :: 0 <= j < |bars| && InOpeningRange(bars[j].t) ==> bars[j].low <= bars[j].high
    requires OpeningRange(bars).Some?
    ensures OpeningRange(bars).value.orl <= OpeningRange(bars).value.orh
  {
    var lv := OpeningRange(bars).value;
    var j :| 0 <= j < |bars| && InOpeningRange(bars[j].t) && bars[j].high == lv.orh;
  }

  // ---------------------------------------------------------------- Entry window and sizing

  /** Inclusive clock-time window in which entries are looked for. */
  predicate WithinEntryWindow(t: int, cfg: Config)
    ensures WithinEntryWindow(t, cfg) ==> cfg.entryStart <= cfg.entryEnd
    ensures WithinEntryWindow(t, cfg) <==> !(t < cfg.entryStart || cfg.entryEnd < t)
  {
    cfg.entryStart <= t <= cfg.entryEnd
  }

  /** Both ends of the window are admitted and nothing outside it is. */
  lemma EntryWindowInclusive(t: int, cfg: Config)
    ensures WithinEntryWindow(t, cfg) <==> !(t < cfg.entryStart) && !(t > cfg.entryEnd)
    ensures cfg.entryStart <= cfg.entryEnd ==> WithinEntryWindow(cfg.entryStart, cfg) && WithinEntryWindow(cfg.entryEnd, cfg)
  {
  }

  /** Quantity to trade so that hitting the stop loses at most capital times
      the risk fraction: none for a zero-width stop, otherwise the floor of
      the risk budget over the per-share risk, never negative. */
  function SuggestQty(entry: real, sl: real, cfg: Config): (q: int)
    ensures q >= 0
    ensures entry == sl ==> q == 0
    ensures entry != sl && cfg.capital * cfg.riskPerTrade >= 0.0 ==>
              q as real * Abs(entry - sl) <= cfg.capital * cfg.riskPerTrade < q as real * Abs(entry - sl) + Abs(entry - sl)
    ensures cfg.capital * cfg.riskPerTrade < 0.0 ==> q == 0
  {
    var risk := Abs(entry - sl);
    if risk <= 0.0 then 0
    else
      var budget := cfg.capital * cfg.riskPerTrade;
      var qty := (budget / risk).Floor;
      FloorDivBounds(budget, risk);
      if qty > 0 then qty else 0
  }

  lemma FloorDivBounds(budget: real, risk: real)
    requires risk > 0.0
    ensures (budget / risk).Floor as real * risk <= budget
    ensures budget < (budget / risk).Floor as real * risk + risk
    ensures budget < 0.0 ==> (budget / risk).Floor < 0
  {
    var x := budget / risk;
    var g := x.Floor as real;
    assert g <= x < g + 1.0;
    DivMulCancel(budget, risk);
    MulMonotone(g, x, risk);
    MulMonotone(x, g + 1.0, risk);
    assert (g + 1.0) * risk == g * risk + risk;
    assert budget < g * risk + risk;
    NegativeQuotient(budget, risk);
  }

  lemma NegativeQuotient(a: real, b: real)
    requires b > 0.0
    ensures a < 0.0 ==> a / b < 0.0
  {
    if a / b >= 0.0 {
      MulMonotone(0.0, a / b, b);
      DivMulCancel(a, b);
    }
  }

  lemma DivMulCancel(a: real, b: real)
    requires b > 0.0
    ensures (a / b) * b == a
  {
  }

  /** Multiplying by a positive factor keeps the order, strict or not. */
  lemma MulMonotone(a: real, b: real, c: real)
    requires a <= b && c > 0.0
    ensures a * c <= b * c
    ensures a < b ==> a * c < b * c
  {
    assert (b - a) * c >= 0.0;
    assert (b - a) * c == b * c - a * c;
  }

  /** The sizing of the worked example: 1% of 100000 over a 2.5 stop is 400. */
  lemma SizingExample()
    ensures SuggestQty(50.5, 48.0, Config(100000.0, 0.01, 0, 0)) == 400
  {
    assert Abs(50.5 - 48.0) == 2.5;
    assert 100000.0 * 0.01 / 2.5 == 400.0;
  }
}
