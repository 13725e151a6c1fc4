/** The outcome simulator: fill at the first bar at or after the signal
    time, walk forward to the first bar that touches the stop or the target
    (stop first within a bar), otherwise exit at the session's last close. */
module Outcomes {
  import opened Bars
  import opened Indicators
  import opened Detector

  datatype OutcomeKind = TargetHit | SlHit | EodExit | NoTrade

  /** The simulated result of a prediction; the fill and exit fields are
      absent for NO_TRADE. */
  datatype Outcome = Outcome(
    entryActual: Option<real>, entryTimeActual: Option<int>,
    exitPrice: Option<real>, exitTime: Option<int>,
    kind: OutcomeKind, pnl: real, rMultiple: real)

  const NoTradeOutcome: Outcome := Outcome(None, None, None, None, NoTrade, 0.0, 0.0)

  /** The first bar at or after `from` whose time is at or after `time`
      (the first row of `intraday[intraday.index >= time]`). */
  function FirstAtOrAfter(bars: seq<Bar>, time: int, from: nat): (r: Option<nat>)
    requires from <= |bars|
    ensures r.Some? ==> from <= r.value < |bars| && bars[r.value].t >= time
    ensures r.Some? ==> forall j :: from <= j < r.value ==> bars[j].t < time
    ensures r.None? ==> forall j :: from <= j < |bars| ==> bars[j].t < time
    decreases |bars| - from
  {
    if from == |bars| then None
    else if bars[from].t >= time then Some(from)
    else FirstAtOrAfter(bars, time, from + 1)
  }

  predicate StopTouched(action: Action, b: Bar, stop: real) {
    match action
    case Buy => b.low <= stop
    case Sell => b.high >= stop
  }

  predicate TargetTouched(action: Action, b: Bar, target: real) {
    match action
    case Buy => b.high >= target
    case Sell => b.low <= target
  }

  datatype Exit = Exit(kind: OutcomeKind, price: real)

  /** The exit bar `b` triggers, with the stop tested before the target. */
  function BarExit(action: Action, b: Bar, stop: real, target: real): Option<Exit> {
    if StopTouched(action, b, stop) then Some(Exit(SlHit, stop))
    else if TargetTouched(action, b, target) then Some(Exit(TargetHit, target))
    else None
  }

  /** Bar `j` is walked (its time is at or after the fill time) and touches a level. */
  predicate Triggers(bars: seq<Bar>, j: nat, fillTime: int, p: Prediction)
    requires j < |bars|
  {
    bars[j].t >= fillTime && BarExit(p.action, bars[j], p.stop, p.target).Some?
  }

  /** The first walked bar at or after `from` that touches the stop or the target. */
  function FirstExit(bars: seq<Bar>, fillTime: int, p: Prediction, from: nat): (r: Option<nat>)
    requires from <= |bars|
    ensures r.Some? ==> from <= r.value < |bars| && Triggers(bars, r.value, fillTime, p)
    ensures r.Some? ==> forall j :: from <= j < r.value ==> !Triggers(bars, j, fillTime, p)
    ensures r.None? ==> forall j :: from <= j < |bars| ==> !Triggers(bars, j, fillTime, p)
    decreases |bars| - from
  {
    if from == |bars| then None
    else if Triggers(bars, from, fillTime, p) then Some(from)
    else FirstExit(bars, fillTime, p, from + 1)
  }

  function PnlPerShare(action: Action, fill: real, exit: real): real {
    if action == Buy then exit - fill else fill - exit
  }

  /** The planned risk per share, floored at 0.001 when the stop sits on the entry. */
  function RiskFloor(entry: real, stop: real): (r: real)
    ensures r > 0.0
    ensures entry != stop ==> r == Abs(entry - stop)
    ensures entry == stop ==> r == 0.001
  {
    if Abs(entry - stop) > 0.0 then Abs(entry - stop) else 0.001
  }

  /** The outcome record for a fill at bar `fill` and the given exit. */
  function Settle(p: Prediction, fill: Bar, kind: OutcomeKind, exitPrice: real, exitTime: int): Outcome {
    var share := PnlPerShare(p.action, fill.open, exitPrice);
    Outcome(Some(fill.open), Some(fill.t), Some(exitPrice), Some(exitTime), kind,
            share * p.qty as real, share / RiskFloor(p.entry, p.stop))
  }

  /** The simulated outcome of `p` over the session bars; None with no bars. */
  function OutcomeOf(p: Prediction, bars: seq<Bar>): Option<Outcome> {
    if |bars| == 0 then None
    else match FirstAtOrAfter(bars, p.signalTime, 0)
      case None => Some(NoTradeOutcome)
      case Some(f) =>
        var fill, last := bars[f], bars[|bars| - 1];
        match FirstExit(bars, fill.t, p, 0)
        case None => Some(Settle(p, fill, EodExit, last.close, last.t))
        case Some(j) =>
          var e := BarExit(p.action, bars[j], p.stop, p.target).value;
          Some(Settle(p, fill, e.kind, e.price, bars[j].t))
  }

  /** The simulator: the EOD exit is the default, overwritten by the first
      walked bar that touches a level. */
  method EvaluateOutcome(p: Prediction, bars: seq<Bar>) returns (r: Option<Outcome>)
    ensures r == OutcomeOf(p, bars)
  {
    if |bars| == 0 {
      return None;
    }
    var after := FirstAtOrAfter(bars, p.signalTime, 0);
    if after.None? {
      return Some(NoTradeOutcome);
    }
    var fillPrice, fillTime := bars[after.value].open, bars[after.value].t;
    var kind, exitPrice, exitTime := EodExit, bars[|bars| - 1].close, bars[|bars| - 1].t;
    var j := 0;
    while j < |bars|
      invariant 0 <= j <= |bars|
      invariant FirstExit(bars, fillTime, p, 0) == FirstExit(bars, fillTime, p, j)
      invariant kind == EodExit && exitPrice == bars[|bars| - 1].close && exitTime == bars[|bars| - 1].t
    {
      var b := bars[j];
      if b.t >= fillTime {
        if p.action == Buy {
          if b.low <= p.stop {
            kind, exitPrice, exitTime := SlHit, p.stop, b.t;
            break;
          } else if b.high >= p.target {
            kind, exitPrice, exitTime := TargetHit, p.target, b.t;
            break;
          }
        } else {
          if b.high >= p.stop {
            kind, exitPrice, exitTime := SlHit, p.stop, b.t;
            break;
          } else if b.low <= p.target {
            kind, exitPrice, exitTime := TargetHit, p.target, b.t;
            break;
          }
        }
      }
      j := j + 1;
    }
    ghost var e := FirstExit(bars, fillTime, p, 0);
    assert e.None? ==> kind == EodExit;
    assert e.Some? ==> kind == BarExit(p.action, bars[e.value], p.stop, p.target).value.kind;
    assert e.Some? ==> exitPrice == BarExit(p.action, bars[e.value], p.stop, p.target).value.price;
    assert e.Some? ==> exitTime == bars[e.value].t;
    var share := if p.action == Buy then exitPrice - fillPrice else fillPrice - exitPrice;
    var risk := if Abs(p.entry - p.stop) > 0.0 then Abs(p.entry - p.stop) else 0.001;
    r := Some(Outcome(Some(fillPrice), Some(fillTime), Some(exitPrice), Some(exitTime), kind,
                      share * p.qty as real, share / risk));
    ghost var settled := Settle(p, bars[after.value], kind, exitPrice, exitTime);
    assert settled.pnl == share * p.qty as real;
    assert settled.rMultiple == share / risk;
    assert r == Some(settled);
  }

  // ---------------------------------------------------------------- Properties

  /** No bars, no outcome; with bars, NO_TRADE exactly when no bar is at or
      after the signal time, and then with zero pnl, zero R and no fill. */
  lemma NoTradeExactly(p: Prediction, bars: seq<Bar>)
    ensures bars == [] ==> OutcomeOf(p, bars) == None
    ensures bars != [] ==> OutcomeOf(p, bars).Some?
    ensures bars != [] ==>
              (OutcomeOf(p, bars).value.kind == NoTrade <==> forall j :: 0 <= j < |bars| ==> bars[j].t < p.signalTime)
    ensures bars != [] && OutcomeOf(p, bars).value.kind == NoTrade ==> OutcomeOf(p, bars).value == NoTradeOutcome
  {
    if bars != [] {
      var f := FirstAtOrAfter(bars, p.signalTime, 0);
      if f.Some? {
        var j := FirstExit(bars, bars[f.value].t, p, 0);
        if j.Some? {
          assert BarExit(p.action, bars[j.value], p.stop, p.target).value.kind != NoTrade;
        }
      }
    }
  }

  /** The fill is the Open of the first bar at or after the signal time. */
  lemma FillAtFirstBarAtOrAfter(p: Prediction, bars: seq<Bar>, f: nat)
    requires f < |bars| && bars[f].t >= p.signalTime
    requires forall j :: 0 <= j < f ==> bars[j].t < p.signalTime
    ensures OutcomeOf(p, bars).Some?
    ensures OutcomeOf(p, bars).value.kind != NoTrade
    ensures OutcomeOf(p, bars).value.entryActual == Some(bars[f].open)
    ensures OutcomeOf(p, bars).value.entryTimeActual == Some(bars[f].t)
  {
    assert FirstAtOrAfter(bars, p.signalTime, 0) == Some(f);
    NoTradeExactly(p, bars);
  }

  /** First touch wins: the first walked bar that touches the stop or the
      target decides the exit, and a bar that touches both is a stop-loss. */
  lemma FirstTouchWins(p: Prediction, bars: seq<Bar>, f: nat, j: nat)
    requires f < |bars| && bars[f].t >= p.signalTime
    requires forall i :: 0 <= i < f ==> bars[i].t < p.signalTime
    requires j < |bars| && bars[j].t >= bars[f].t
    requires StopTouched(p.action, bars[j], p.stop) || TargetTouched(p.action, bars[j], p.target)
    requires forall i :: 0 <= i < j && bars[i].t >= bars[f].t ==>
               !StopTouched(p.action, bars[i], p.stop) && !TargetTouched(p.action, bars[i], p.target)
    ensures OutcomeOf(p, bars).Some?
    ensures StopTouched(p.action, bars[j], p.stop) ==>
              OutcomeOf(p, bars).value.kind == SlHit && OutcomeOf(p, bars).value.exitPrice == Some(p.stop)
    ensures !StopTouched(p.action, bars[j], p.stop) ==>
              OutcomeOf(p, bars).value.kind == TargetHit && OutcomeOf(p, bars).value.exitPrice == Some(p.target)
    ensures OutcomeOf(p, bars).value.exitTime == Some(bars[j].t)
  {
    assert FirstAtOrAfter(bars, p.signalTime, 0) == Some(f);
    assert Triggers(bars, j, bars[f].t, p);
  }

  /** With no walked bar touching a level, the position exits at the close of
      the session's last bar. */
  lemma EodWhenUntouched(p: Prediction, bars: seq<Bar>, f: nat)
    requires f < |bars| && bars[f].t >= p.signalTime
    requires forall i :: 0 <= i < f ==> bars[i].t < p.signalTime
    requires forall i :: 0 <= i < |bars| && bars[i].t >= bars[f].t ==>
               !StopTouched(p.action, bars[i], p.stop) && !TargetTouched(p.action, bars[i], p.target)
    ensures OutcomeOf(p, bars).Some?
    ensures OutcomeOf(p, bars).value.kind == EodExit
    ensures OutcomeOf(p, bars).value.exitPrice == Some(bars[|bars| - 1].close)
    ensures OutcomeOf(p, bars).value.exitTime == Some(bars[|bars| - 1].t)
  {
    assert FirstAtOrAfter(bars, p.signalTime, 0) == Some(f);
  }

  /** Settlement: pnl is the per-share result times the quantity, and the
      R-multiple is the per-share result over the floored planned risk, so
      it has the sign of the per-share result (and of pnl when the quantity
      is positive). */
  lemma SettlementSigns(p: Prediction, bars: seq<Bar>)
    requires OutcomeOf(p, bars).Some? && OutcomeOf(p, bars).value.kind != NoTrade
    ensures var o := OutcomeOf(p, bars).value;
            o.entryActual.Some? && o.exitPrice.Some? &&
            var share := PnlPerShare(p.action, o.entryActual.value, o.exitPrice.value);
            o.pnl == share * p.qty as real &&
            o.rMultiple * RiskFloor(p.entry, p.stop) == share &&
            (o.rMultiple > 0.0 <==> share > 0.0) &&
            (o.rMultiple < 0.0 <==> share < 0.0) &&
            (o.rMultiple == 0.0 <==> share == 0.0) &&
            (p.qty > 0 ==> (o.pnl > 0.0 <==> o.rMultiple > 0.0) && (o.pnl < 0.0 <==> o.rMultiple < 0.0))
  {
    var o := OutcomeOf(p, bars).value;
    NoTradeExactly(p, bars);
    var share := PnlPerShare(p.action, o.entryActual.value, o.exitPrice.value);
    var risk := RiskFloor(p.entry, p.stop);
    assert o.rMultiple == share / risk;
    assert o.pnl == share * p.qty as real;
    DivMulCancel(share, risk);
    QuotientSign(share, risk);
    if p.qty > 0 {
      ProductSign(share, p.qty as real);
    }
  }

  lemma QuotientSign(a: real, b: real)
    requires b > 0.0
    ensures (a / b > 0.0 <==> a > 0.0) && (a / b < 0.0 <==> a < 0.0) && (a / b == 0.0 <==> a == 0.0)
  {
    DivMulCancel(a, b);
    if a / b > 0.0 {
      MulMonotone(0.0, a / b, b);
    } else if a / b < 0.0 {
      MulMonotone(a / b, 0.0, b);
    }
  }

  lemma ProductSign(a: real, q: real)
    requires q > 0.0
    ensures (a * q > 0.0 <==> a > 0.0) && (a * q < 0.0 <==> a < 0.0)
  {
    if a > 0.0 {
      MulMonotone(0.0, a, q);
    } else if a < 0.0 {
      MulMonotone(a, 0.0, q);
    }
  }

  /** With strictly increasing times, a prediction signalled at the time of
      bar `k` fills at bar `k` and walks bars `k..` only. */
  lemma FillAtSignalIndex(p: Prediction, bars: seq<Bar>, k: nat)
    requires StrictlyIncreasing(bars)
    requires k < |bars| && bars[k].t == p.signalTime
    ensures OutcomeOf(p, bars).Some? && OutcomeOf(p, bars).value.kind != NoTrade
    ensures OutcomeOf(p, bars).value.entryActual == Some(bars[k].open)
    ensures OutcomeOf(p, bars).value.entryTimeActual == Some(p.signalTime)
    ensures forall j :: 0 <= j < |bars| ==> (bars[j].t >= bars[k].t <==> k <= j)
  {
    FillAtFirstBarAtOrAfter(p, bars, k);
  }

  /** On the detection bars themselves the fill bar is the signal bar: the
      position is filled at that bar's Open, the walk starts at it, and
      NO_TRADE cannot occur. */
  lemma FillIsSignalBar(symbol: string, bars: seq<Bar>, action: Action, bias: Bias, cfg: Config)
    requires SymbolSignal(symbol, bars, action, bias, cfg).Some?
    requires StrictlyIncreasing(bars)
    ensures var p := SymbolSignal(symbol, bars, action, bias, cfg).value;
            OutcomeOf(p, bars).Some? && OutcomeOf(p, bars).value.kind != NoTrade &&
            exists k :: 0 <= k < |bars| && bars[k].t == p.signalTime && p.entry == bars[k].close &&
              OutcomeOf(p, bars).value.entryActual == Some(bars[k].open) &&
              OutcomeOf(p, bars).value.entryTimeActual == Some(p.signalTime) &&
              forall j :: 0 <= j < |bars| ==> (bars[j].t >= bars[k].t <==> k <= j)
  {
    var p := SymbolSignal(symbol, bars, action, bias, cfg).value;
    BreakoutBeyondBand(symbol, bars, action, bias, cfg);
    var k :| 0 <= k < |bars| && bars[k].t == p.signalTime && p.entry == bars[k].close;
    FillAtSignalIndex(p, bars, k);
  }

  /** The worked scenario: a BUY at 50.5 with stop 48, target 55.5 and 400
      shares, signalled at 09:35; the 10:00 bar's Low touches 48 before any
      High reaches 55.5, so the trade is a stop-loss at 48, filled at the
      09:35 Open of 50.6. */
  lemma WorkedScenarioOutcome()
    ensures var p := Prediction("X", Buy, 50.5, 55.5, 48.0, 575, Bullish, Reason(Buy), 2.5, 400);
            var bars := [Bar(575, 50.6, 50.8, 50.2, 50.5, 1000.0),
                         Bar(580, 50.5, 51.0, 49.5, 49.8, 1000.0),
                         Bar(600, 49.0, 49.2, 48.0, 48.1, 1000.0)];
            OutcomeOf(p, bars) == Some(Outcome(Some(50.6), Some(575), Some(48.0), Some(600), SlHit,
                                              (48.0 - 50.6) * 400.0, (48.0 - 50.6) / 2.5))
  {
    var p := Prediction("X", Buy, 50.5, 55.5, 48.0, 575, Bullish, Reason(Buy), 2.5, 400);
    var bars := [Bar(575, 50.6, 50.8, 50.2, 50.5, 1000.0),
                 Bar(580, 50.5, 51.0, 49.5, 49.8, 1000.0),
                 Bar(600, 49.0, 49.2, 48.0, 48.1, 1000.0)];
    assert FirstAtOrAfter(bars, 575, 0) == Some(0);
    assert !Triggers(bars, 0, 575, p) && !Triggers(bars, 1, 575, p) && Triggers(bars, 2, 575, p);
    assert FirstExit(bars, 575, p, 0) == Some(2);
    assert RiskFloor(50.5, 48.0) == 2.5;
  }
}
