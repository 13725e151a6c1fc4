/** Shared vocabulary of the intraday signal engine: price bars, session clock
    times and the run configuration that the engine reads from its settings. */
module Bars {

  datatype Option<+T> = None | Some(value: T)

  /** One OHLCV sample of a session. `t` is the bar's local clock time in
      minutes after midnight (09:15 is 555); all bars of a sequence belong to
      the same trading date. */
  datatype Bar = Bar(t: int, open: real, high: real, low: real, close: real, volume: real)

  /** The settings the engine imports: account capital, the fraction of it
      risked per trade, and the inclusive entry window as clock minutes. */
  datatype Config = Config(capital: real, riskPerTrade: real, entryStart: int, entryEnd: int)

  /** 09:15 and 09:30: the inclusive opening-range window. */
  const OpeningStart: int := 9 * 60 + 15
  const OpeningEnd: int := 9 * 60 + 30

  /** A time selected by `between_time("09:15", "09:30")`, inclusive at both ends. */
  predicate InOpeningRange(t: int) {
    OpeningStart <= t <= OpeningEnd
  }

  /** Bars as the data provider hands them out: unique, increasing times. */
  predicate StrictlyIncreasing(bars: seq<Bar>) {
    forall i, j :: 0 <= i < j < |bars| ==> bars[i].t < bars[j].t
  }

  function Abs(x: real): (r: real)
    ensures r >= 0.0 && (r == x || r == -x)
  {
    if x < 0.0 then -x else x
  }
}
