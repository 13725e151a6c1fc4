/** The momentum ranker: percent move per universe symbol, dropping symbols
    whose fetch or processing fails and symbols without volume, then the
    head and the tail of the descending order as gainers and losers. */
module Movers {
  import opened Bars
  import opened Subsequences
  import Indicators

  /** What the bar provider returns for a symbol: its bars, or a raised error. */
  datatype Fetch = Fetched(bars: seq<Bar>) | FetchFailed

  datatype Mover = Mover(symbol: string, pctChange: real, avgVolume: real)

  /** The mean of the Volume column. */
  function AvgVolume(bars: seq<Bar>): (r: real)
    requires |bars| > 0
    ensures r * |bars| as real == Indicators.CumVolume(bars, |bars|)
  {
    Indicators.CumVolume(bars, |bars|) / |bars| as real
  }

  /** (last close - first open) / first open * 100. */
  function PctChange(bars: seq<Bar>): (r: real)
    requires |bars| > 0 && bars[0].open != 0.0
    ensures r * bars[0].open == (bars[|bars| - 1].close - bars[0].open) * 100.0
  {
    var open := bars[0].open;
    var x := (bars[|bars| - 1].close - open) / open;
    assert x * open == bars[|bars| - 1].close - open;
    x * 100.0
  }

  /** The guarded body of the ranking loop for one symbol: nothing when the
      fetch raises, the bars are empty, or the first Open is zero (the
      division raises and the handler skips the symbol). */
  function MoverOf(symbol: string, f: Fetch): (r: Option<Mover>)
    ensures r.None? <==> f.FetchFailed? || |f.bars| == 0 || f.bars[0].open == 0.0
    ensures r.Some? ==> r.value.symbol == symbol
  {
    match f
    case FetchFailed => None
    case Fetched(bars) =>
      if |bars| == 0 || bars[0].open == 0.0 then None
      else Some(Mover(symbol, PctChange(bars), AvgVolume(bars)))
  }

  function AsSeq(o: Option<Mover>): seq<Mover> {
    match o
    case None => []
    case Some(m) => [m]
  }

  /** The `movers` list the loop builds over the universe, in universe order. */
  function MoversOf(universe: seq<string>, fetch: string -> Fetch): seq<Mover>
    decreases |universe|
  {
    if universe == [] then []
    else
      var last := universe[|universe| - 1];
      MoversOf(universe[..|universe| - 1], fetch) + AsSeq(MoverOf(last, fetch(last)))
  }

  function MoverSymbols(ms: seq<Mover>): (r: seq<string>)
    ensures |r| == |ms| && forall i :: 0 <= i < |ms| ==> r[i] == ms[i].symbol
    decreases |ms|
  {
    if ms == [] then [] else MoverSymbols(ms[..|ms| - 1]) + [ms[|ms| - 1].symbol]
  }

  /** `df[df["avg_vol"] > 0]`. */
  function Liquid(ms: seq<Mover>): (r: seq<Mover>)
    ensures |r| <= |ms|
    ensures forall i :: 0 <= i < |r| ==> r[i].avgVolume > 0.0
    decreases |ms|
  {
    if ms == [] then []
    else
      var last := ms[|ms| - 1];
      Liquid(ms[..|ms| - 1]) + (if last.avgVolume > 0.0 then [last] else [])
  }

  // ---------------------------------------------------------------- Sorting

  predicate Descending(s: seq<Mover>) {
    forall i, j :: 0 <= i < j < |s| ==> s[i].pctChange >= s[j].pctChange
  }

  lemma ElementsBounded(r: seq<Mover>, s: seq<Mover>, m: Mover, bound: real)
    requires multiset(r) == multiset(s) + multiset{m}
    requires m.pctChange <= bound
    requires forall k :: 0 <= k < |s| ==> s[k].pctChange <= bound
    ensures forall k :: 0 <= k < |r| ==> r[k].pctChange <= bound
  {
    forall k | 0 <= k < |r| ensures r[k].pctChange <= bound {
      assert r[k] in multiset(r);
      if r[k] != m {
        assert r[k] in multiset(s);
        assert r[k] in s;
      }
    }
  }

  function Insert(m: Mover, s: seq<Mover>): (r: seq<Mover>)
    requires Descending(s)
    ensures Descending(r)
    ensures multiset(r) == multiset(s) + multiset{m}
    decreases |s|
  {
    if s == [] || m.pctChange >= s[0].pctChange then [m] + s
    else
      var rest := Insert(m, s[1..]);
      assert s == [s[0]] + s[1..];
      ElementsBounded(rest, s[1..], m, s[0].pctChange);
      [s[0]] + rest
  }

  /** An insertion sort by descending percent change. */
  function SortDescending(s: seq<Mover>): (r: seq<Mover>)
    ensures Descending(r)
    ensures multiset(r) == multiset(s)
    decreases |s|
  {
    if s == [] then []
    else
      assert s == [s[0]] + s[1..];
      Insert(s[0], SortDescending(s[1..]))
  }

  // ---------------------------------------------------------------- Ranking

  function Min(a: nat, b: nat): nat {
    if a <= b then a else b
  }

  /** `head(n)` and `tail(n)` of the sorted frame. */
  function Head(s: seq<Mover>, n: nat): seq<Mover> {
    s[..Min(n, |s|)]
  }

  function Tail(s: seq<Mover>, n: nat): seq<Mover> {
    s[|s| - Min(n, |s|)..]
  }

  /** Gainers and losers of a list of mover records. */
  function Rank(movers: seq<Mover>, topN: nat): (r: (seq<string>, seq<string>))
    ensures movers == [] ==> r == ([], [])
    ensures |r.0| == |r.1| <= topN
    ensures movers != [] ==> |r.0| == Min(topN, |Liquid(movers)|)
  {
    if movers == [] then ([], [])
    else
      var sorted := SortDescending(Liquid(movers));
      assert |sorted| == |multiset(sorted)| == |Liquid(movers)|;
      (MoverSymbols(Head(sorted, topN)), MoverSymbols(Tail(sorted, topN)))
  }

  function TopMovers(universe: seq<string>, fetch: string -> Fetch, topN: nat): (seq<string>, seq<string>) {
    Rank(MoversOf(universe, fetch), topN)
  }

  /** The ranker: one guarded record per universe symbol, then filter, sort
      and slice. `fetch` supplies a symbol's session bars. */
  method GetTopMovers(universe: seq<string>, fetch: string -> Fetch, topN: nat)
    returns (gainers: seq<string>, losers: seq<string>)
    ensures (gainers, losers) == TopMovers(universe, fetch, topN)
  {
    var movers: seq<Mover> := [];
    for i := 0 to |universe|
      invariant movers == MoversOf(universe[..i], fetch)
    {
      assert universe[..i + 1][..i] == universe[..i];
      var symbol := universe[i];
      var f := fetch(symbol);
      if f.FetchFailed? {
        continue;
      }
      var bars := f.bars;
      if |bars| == 0 {
        continue;
      }
      var dayOpen, dayClose := bars[0].open, bars[|bars| - 1].close;
      if dayOpen == 0.0 {
        continue;
      }
      var pctChange := PctChange(bars);
      var avgVol := AvgVolume(bars);
      movers := movers + [Mover(symbol, pctChange, avgVol)];
    }
    assert universe[..|universe|] == universe;
    if movers == [] {
      return [], [];
    }
    var sorted := SortDescending(Liquid(movers));
    gainers := MoverSymbols(Head(sorted, topN));
    losers := MoverSymbols(Tail(sorted, topN));
  }

  // ---------------------------------------------------------------- Properties

  /** A record is collected exactly for a universe symbol whose guarded body
      produced it; failures are skipped without stopping the loop. */
  lemma {:induction false} MoversCollected(universe: seq<string>, fetch: string -> Fetch)
    ensures forall m :: m in MoversOf(universe, fetch) <==>
              m.symbol in universe && MoverOf(m.symbol, fetch(m.symbol)) == Some(m)
    decreases |universe|
  {
    if universe != [] {
      var init, last := universe[..|universe| - 1], universe[|universe| - 1];
      MoversCollected(init, fetch);
      assert universe == init + [last];
    }
  }

  lemma {:induction false} MoversInUniverseOrder(universe: seq<string>, fetch: string -> Fetch)
    ensures IsSubseq(MoverSymbols(MoversOf(universe, fetch)), universe)
    decreases |universe|
  {
    if universe != [] {
      var init, last := universe[..|universe| - 1], universe[|universe| - 1];
      MoversInUniverseOrder(init, fetch);
      var ms, ms' := MoversOf(universe, fetch), MoversOf(init, fetch);
      var o := MoverOf(last, fetch(last));
      if o.Some? {
        assert ms == ms' + [o.value];
        assert ms[..|ms| - 1] == ms';
        assert MoverSymbols(ms)[..|ms| - 1] == MoverSymbols(ms');
      } else {
        assert ms == ms';
      }
    }
  }

  lemma {:induction false} LiquidMembers(ms: seq<Mover>)
    ensures forall m :: m in Liquid(ms) <==> m in ms && m.avgVolume > 0.0
    decreases |ms|
  {
    if ms != [] {
      LiquidMembers(ms[..|ms| - 1]);
      assert ms == ms[..|ms| - 1] + [ms[|ms| - 1]];
    }
  }

  lemma {:induction false} LiquidInOrder(ms: seq<Mover>)
    ensures IsSubseq(MoverSymbols(Liquid(ms)), MoverSymbols(ms))
    decreases |ms|
  {
    if ms != [] {
      var init, last := ms[..|ms| - 1], ms[|ms| - 1];
      LiquidInOrder(init);
      var l, l' := Liquid(ms), Liquid(init);
      assert MoverSymbols(ms)[..|ms| - 1] == MoverSymbols(init);
      if last.avgVolume > 0.0 {
        assert l == l' + [last];
        assert l[..|l| - 1] == l';
        assert MoverSymbols(l)[..|l| - 1] == MoverSymbols(l');
      } else {
        assert l == l';
      }
    }
  }

  /** Head and tail of a descending list: the head ranks at or above
      everything after it, the tail at or below everything before it. */
  lemma HeadTailOrder(sorted: seq<Mover>, topN: nat)
    requires Descending(sorted)
    ensures var m := Min(topN, |sorted|);
            var g, l := MoverSymbols(Head(sorted, topN)), MoverSymbols(Tail(sorted, topN));
            |g| == m && |l| == m &&
            (forall i :: 0 <= i < m ==> g[i] == sorted[i].symbol && l[i] == sorted[|sorted| - m + i].symbol) &&
            (forall i, j :: 0 <= i < m <= j < |sorted| ==> sorted[i].pctChange >= sorted[j].pctChange) &&
            (forall i, j :: 0 <= i < |sorted| - m <= j < |sorted| ==> sorted[i].pctChange >= sorted[j].pctChange)
  {
  }

  /** The shape of the result: no records give two empty lists; otherwise
      gainers are the first and losers the last min(topN, survivors) symbols
      of the descending order of the survivors, each list in that order, and
      every gainer ranks at or above every survivor after the head, every
      survivor before the tail at or above every loser. */
  lemma RankShape(movers: seq<Mover>, topN: nat)
    ensures movers == [] ==> Rank(movers, topN) == ([], [])
    ensures movers != [] ==>
            var sorted := SortDescending(Liquid(movers));
            var m := Min(topN, |sorted|);
            Descending(sorted) && multiset(sorted) == multiset(Liquid(movers)) &&
            Rank(movers, topN) == (MoverSymbols(Head(sorted, topN)), MoverSymbols(Tail(sorted, topN))) &&
            |Rank(movers, topN).0| == m && |Rank(movers, topN).1| == m &&
            (forall i :: 0 <= i < m ==> Rank(movers, topN).0[i] == sorted[i].symbol &&
                                        Rank(movers, topN).1[i] == sorted[|sorted| - m + i].symbol) &&
            (forall i, j :: 0 <= i < m <= j < |sorted| ==> sorted[i].pctChange >= sorted[j].pctChange) &&
            (forall i, j :: 0 <= i < |sorted| - m <= j < |sorted| ==> sorted[i].pctChange >= sorted[j].pctChange)
  {
    if movers != [] {
      HeadTailOrder(SortDescending(Liquid(movers)), topN);
    }
  }

  lemma MemberOfSymbols(ms: seq<Mover>, x: string)
    requires x in MoverSymbols(ms)
    ensures exists m :: m in ms && m.symbol == x
  {
    var i :| 0 <= i < |MoverSymbols(ms)| && MoverSymbols(ms)[i] == x;
    assert ms[i] in ms;
  }

  /** Every ranked symbol is a universe symbol whose bars were fetched,
      non-empty, with a non-zero first Open and a positive average volume:
      a symbol with average volume <= 0 is never a gainer or a loser. */
  lemma RankedSymbolsQualify(universe: seq<string>, fetch: string -> Fetch, topN: nat)
    ensures forall x :: x in TopMovers(universe, fetch, topN).0 || x in TopMovers(universe, fetch, topN).1 ==>
              x in universe && MoverOf(x, fetch(x)).Some? && MoverOf(x, fetch(x)).value.avgVolume > 0.0
  {
    var movers := MoversOf(universe, fetch);
    MoversCollected(universe, fetch);
    LiquidMembers(movers);
    if movers != [] {
      var sorted := SortDescending(Liquid(movers));
      forall x | x in TopMovers(universe, fetch, topN).0 || x in TopMovers(universe, fetch, topN).1
        ensures x in universe && MoverOf(x, fetch(x)).Some? && MoverOf(x, fetch(x)).value.avgVolume > 0.0
      {
        var part := if x in TopMovers(universe, fetch, topN).0 then Head(sorted, topN) else Tail(sorted, topN);
        MemberOfSymbols(part, x);
        var m :| m in part && m.symbol == x;
        assert m in sorted;
        assert m in multiset(Liquid(movers));
      }
    }
  }

  predicate SymbolsDistinct(ms: seq<Mover>) {
    forall i, j :: 0 <= i < j < |ms| ==> ms[i].symbol != ms[j].symbol
  }

  lemma {:induction false} InsertKeepsDistinct(m: Mover, s: seq<Mover>)
    requires Descending(s) && SymbolsDistinct(s)
    requires forall k :: 0 <= k < |s| ==> s[k].symbol != m.symbol
    ensures SymbolsDistinct(Insert(m, s))
    decreases |s|
  {
    if !(s == [] || m.pctChange >= s[0].pctChange) {
      var rest := Insert(m, s[1..]);
      InsertKeepsDistinct(m, s[1..]);
      assert s == [s[0]] + s[1..];
      forall k | 0 <= k < |rest| ensures rest[k].symbol != s[0].symbol {
        assert rest[k] in multiset(rest);
        if rest[k] != m {
          assert rest[k] in multiset(s[1..]);
          var i :| 0 <= i < |s[1..]| && s[1..][i] == rest[k];
          assert s[i + 1] == rest[k];
        }
      }
    }
  }

  lemma {:induction false} SortKeepsDistinct(s: seq<Mover>)
    requires SymbolsDistinct(s)
    ensures SymbolsDistinct(SortDescending(s))
    decreases |s|
  {
    if s != [] {
      var t := SortDescending(s[1..]);
      SortKeepsDistinct(s[1..]);
      forall k | 0 <= k < |t| ensures t[k].symbol != s[0].symbol {
        assert t[k] in multiset(t);
        assert t[k] in multiset(s[1..]);
        var i :| 0 <= i < |s[1..]| && s[1..][i] == t[k];
        assert s[i + 1] == t[k];
      }
      InsertKeepsDistinct(s[0], t);
    }
  }

  lemma SurvivorsDistinct(universe: seq<string>, fetch: string -> Fetch)
    requires Distinct(universe)
    ensures SymbolsDistinct(Liquid(MoversOf(universe, fetch)))
  {
    var movers := MoversOf(universe, fetch);
    MoversInUniverseOrder(universe, fetch);
    SubseqDistinct(MoverSymbols(movers), universe);
    LiquidInOrder(movers);
    var l := Liquid(movers);
    SubseqDistinct(MoverSymbols(l), MoverSymbols(movers));
    forall i, j | 0 <= i < j < |l| ensures l[i].symbol != l[j].symbol {
      assert MoverSymbols(l)[i] != MoverSymbols(l)[j];
    }
  }

  lemma HeadTailDisjoint(sorted: seq<Mover>, topN: nat)
    requires SymbolsDistinct(sorted) && |sorted| >= 2 * topN
    ensures forall x :: x in MoverSymbols(Head(sorted, topN)) ==> x !in MoverSymbols(Tail(sorted, topN))
  {
    var m := Min(topN, |sorted|);
    var g, l := MoverSymbols(Head(sorted, topN)), MoverSymbols(Tail(sorted, topN));
    forall x | x in g ensures x !in l {
      var i :| 0 <= i < |g| && g[i] == x;
      assert x == sorted[i].symbol;
    }
  }

  /** With a duplicate-free universe and at least 2*topN survivors, no
      symbol is both a gainer and a loser. */
  lemma GainersLosersDisjoint(universe: seq<string>, fetch: string -> Fetch, topN: nat)
    requires Distinct(universe)
    requires |Liquid(MoversOf(universe, fetch))| >= 2 * topN
    ensures forall x :: x in TopMovers(universe, fetch, topN).0 ==> x !in TopMovers(universe, fetch, topN).1
  {
    var movers := MoversOf(universe, fetch);
    if movers != [] {
      SurvivorsDistinct(universe, fetch);
      var sorted := SortDescending(Liquid(movers));
      SortKeepsDistinct(Liquid(movers));
      assert |multiset(sorted)| == |multiset(Liquid(movers))|;
      HeadTailDisjoint(sorted, topN);
    }
  }

  /** With fewer survivors the lists may share symbols: a single survivor is
      both the only gainer and the only loser. */
  lemma SingleSurvivorIsBoth(movers: seq<Mover>, topN: nat)
    requires |Liquid(movers)| == 1 && topN >= 1
    ensures Rank(movers, topN).0 == Rank(movers, topN).1 == [Liquid(movers)[0].symbol]
  {
    var l := Liquid(movers);
    assert l == [l[0]];
    assert SortDescending(l) == Insert(l[0], SortDescending([]));
  }
}
