/**
 * The HalfTrend strategy, re-run on a growing buffer at each close, against the chart overlay,
 * run once over everything.
 */
module Strategies {
  import opened Common
  import opened HalfTrend

  datatype Side = BuySide | SellSide

  /** The signal the indicator shows on bar `i` of a frame. */
  function Shown(bars: seq<Bar>, prm: Params, i: nat): Option<Side>
    requires i < |bars| && Usable(prm)
  {
    if BuyAt(bars, prm, i) then Some(BuySide) else if SellAt(bars, prm, i) then Some(SellSide) else None
  }

  /** What the strategy emits on the close of bar `m`, having seen only the bars up to it. */
  function Emitted(bars: seq<Bar>, prm: Params, m: nat): Option<Side>
    requires m < |bars| && Usable(prm)
  {
    if m + 1 < prm.atrPeriod then None else Shown(bars[..m + 1], prm, m)
  }

  datatype Marker = Marker(index: nat, side: Side)

  /** The overlay's markers up to bar `n`. */
  function MarkersUpTo(bars: seq<Bar>, prm: Params, n: nat): seq<Marker>
    requires n <= |bars| && Usable(prm)
  {
    if n <= prm.atrPeriod then []
    else
      var rest, s := MarkersUpTo(bars, prm, n - 1), Shown(bars, prm, n - 1);
      if s.Some? then rest + [Marker(n - 1, s.value)] else rest
  }

  /** What the overlay draws on bar `m`. */
  ghost function Drawn(bars: seq<Bar>, prm: Params, m: nat): Option<Side>
    requires m < |bars| && Usable(prm)
  {
    if Marker(m, BuySide) in MarkersUpTo(bars, prm, |bars|) then Some(BuySide)
    else if Marker(m, SellSide) in MarkersUpTo(bars, prm, |bars|) then Some(SellSide)
    else None
  }

  lemma {:induction false} MarkerIsShown(bars: seq<Bar>, prm: Params, n: nat, m: nat, side: Side)
    requires n <= |bars| && m < |bars| && Usable(prm)
    ensures Marker(m, side) in MarkersUpTo(bars, prm, n) <==> prm.atrPeriod <= m < n && Shown(bars, prm, m) == Some(side)
  {
    if n > prm.atrPeriod { MarkerIsShown(bars, prm, n - 1, m, side); }
  }

  lemma EmittedIsShown(bars: seq<Bar>, prm: Params, m: nat)
    requires m < |bars| && Usable(prm)
    ensures Emitted(bars, prm, m) == if m + 1 < prm.atrPeriod then None else Shown(bars, prm, m)
  {
    SignalsDoNotRepaint(bars, prm, m + 1, m);
  }

  /**
   * Strategy and chart agree on a bar if and only if it is not the last warm-up bar or shows
   * no signal there: at index atrPeriod - 1 the strategy may trade and the overlay never draws.
   */
  lemma StrategyMatchesOverlay(bars: seq<Bar>, prm: Params, m: nat)
    requires m < |bars| && Usable(prm)
    ensures Emitted(bars, prm, m) == Drawn(bars, prm, m) <==> m + 1 != prm.atrPeriod || Shown(bars, prm, m).None?
  {
    EmittedIsShown(bars, prm, m);
    MarkerIsShown(bars, prm, |bars|, m, BuySide);
    MarkerIsShown(bars, prm, |bars|, m, SellSide);
  }

  // ------------------------------------------------------- for which parameters they agree

  /** The trend cannot turn before the window is full, nor before bar 2. */
  lemma {:induction false} NoTurnBeforeWindow(bars: seq<Bar>, prm: Params, i: nat)
    requires i < |bars| && Usable(prm)
    ensures var r := RowAt(bars, prm, i);
            && (i < Max(prm.amplitude, 2) ==> r.trend == 0)
            && (i + 1 < Max(prm.amplitude, 2) ==> r.next == 0)
  {
    if i > 0 {
      NoTurnBeforeWindow(bars, prm, i - 1);
      FlipNeedsWindow(RowAt(bars, prm, i - 1), bars[i - 1], bars[i], RollingAt(bars, i, prm.amplitude),
                      Atr(bars, i, prm.atrPeriod), prm.deviation);
    }
  }

  lemma FlipNeedsWindow(p: Row, prev: Bar, b: Bar, r: Option<Rolling>, atr: Option<real>, deviation: int)
    ensures var row := NextRow(p, prev, b, r, atr, deviation);
            && (p.trend == 0 && p.next == 0 ==> row.trend == 0)
            && (r.None? ==> row.trend == p.trend && row.next == p.next)
  {
  }

  /** Flat bars at 10, then one at 11, then one at 8: an up-tick and a fall on the last two of `n` bars. */
  function Whipsaw(n: nat): seq<Bar> {
    seq(n, i requires 0 <= i < n => var x := if i + 2 < n then 10.0 else if i + 1 < n then 11.0 else 8.0; Bar(x, x, x))
  }

  lemma {:induction false} FlatSums(n: nat, i: nat, w: nat)
    requires 1 <= w <= i + 1 && i + 2 < n
    ensures WindowSums(Whipsaw(n), i, w) == (10.0 * w as real, 10.0 * w as real)
  {
    if w > 1 { FlatSums(n, i - 1, w - 1); }
  }

  /** Over the up-tick the mean is above 10, over the fall below. */
  lemma WhipsawMeans(n: nat, w: nat)
    requires n >= 3 && 1 <= w < n
    ensures RollingAt(Whipsaw(n), n - 2, w).value.lowMa > 10.0
    ensures RollingAt(Whipsaw(n), n - 1, w).value.highMa < 10.0
  {
    var bars := Whipsaw(n);
    if w >= 2 { FlatSums(n, n - 3, w - 1); }
    if w >= 3 { FlatSums(n, n - 3, w - 2); }
    assert w >= 2 ==> WindowSums(bars, n - 1, w).0 == WindowSums(bars, n - 2, w - 1).0 + 8.0;
    MeanOffTen(WindowSums(bars, n - 2, w).1, w);
    MeanOffTen(WindowSums(bars, n - 1, w).0, w);
  }

  lemma MeanOffTen(sum: real, w: nat)
    requires w >= 1
    ensures sum > 10.0 * w as real ==> sum / w as real > 10.0
    ensures sum < 10.0 * w as real ==> sum / w as real < 10.0
  {
    var d := w as real;
    assert sum / d * d == sum;
  }

  lemma {:induction false} FlatRows(n: nat, prm: Params, i: nat)
    requires i + 2 < n && Usable(prm)
    ensures var r := RowAt(Whipsaw(n), prm, i); r.trend == 0 && r.next == 0 && r.minHigh == Some(10.0)
  {
    var bars := Whipsaw(n);
    if i > 0 {
      FlatRows(n, prm, i - 1);
      if prm.amplitude <= i + 1 { WindowExtremes(bars, i, prm.amplitude); }
    }
  }

  /** The up-tick arms the turn. */
  lemma UpTickArms(n: nat, prm: Params)
    requires n >= 3 && Usable(prm) && prm.amplitude < n
    ensures var r := RowAt(Whipsaw(n), prm, n - 2); r.trend == 0 && r.next == 1 && r.maxLow.Some? && r.maxLow.value >= 10.0
  {
    var bars := Whipsaw(n);
    FlatRows(n, prm, n - 3);
    WindowExtremes(bars, n - 2, prm.amplitude);
    WhipsawMeans(n, prm.amplitude);
    var p, roll := RowAt(bars, prm, n - 3), RollingAt(bars, n - 2, prm.amplitude);
    assert FlipTest(p, bars[n - 3], bars[n - 2], roll) == Flip(0, 1, Some(roll.value.lowPrice), Some(10.0));
  }

  /** The fall turns it. */
  lemma FallTurns(n: nat, prm: Params)
    requires n >= 3 && Usable(prm) && prm.amplitude < n
    ensures RowAt(Whipsaw(n), prm, n - 2).trend == 0 && RowAt(Whipsaw(n), prm, n - 1).trend == 1
  {
    var bars := Whipsaw(n);
    UpTickArms(n, prm);
    WhipsawMeans(n, prm.amplitude);
    var p, roll := RowAt(bars, prm, n - 2), RollingAt(bars, n - 1, prm.amplitude);
    assert FlipTest(p, bars[n - 2], bars[n - 1], roll).trend == 1;
  }

  /** A whipsaw at the end of the warm-up makes the strategy sell where the overlay draws nothing. */
  lemma WhipsawSplitsGates(prm: Params)
    requires Usable(prm) && prm.atrPeriod > Max(prm.amplitude, 2)
    ensures var bars, m := Whipsaw(prm.atrPeriod), prm.atrPeriod - 1;
            Emitted(bars, prm, m) == Some(SellSide) && Drawn(bars, prm, m) == None
  {
    FallTurns(prm.atrPeriod, prm);
    TurnSplitsGates(Whipsaw(prm.atrPeriod), prm);
  }

  lemma TurnSplitsGates(bars: seq<Bar>, prm: Params)
    requires Usable(prm) && |bars| == prm.atrPeriod >= 2
    requires RowAt(bars, prm, |bars| - 2).trend == 0 && RowAt(bars, prm, |bars| - 1).trend == 1
    ensures Emitted(bars, prm, |bars| - 1) == Some(SellSide) && Drawn(bars, prm, |bars| - 1) == None
  {
    var m := |bars| - 1;
    SignalIsWarmFlip(bars, prm, m);
    EmittedIsShown(bars, prm, m);
    MarkerIsShown(bars, prm, |bars|, m, BuySide);
    MarkerIsShown(bars, prm, |bars|, m, SellSide);
  }

  /** Strategy and overlay agree on every bar of the frame. */
  ghost predicate Agree(bars: seq<Bar>, prm: Params)
    requires Usable(prm)
  {
    forall m :: 0 <= m < |bars| ==> Emitted(bars, prm, m) == Drawn(bars, prm, m)
  }

  /**
   * Strategy and overlay agree on every bar of every frame if and only if the ATR period is
   * at most the amplitude, or at most 2: then no trend can have turned by the end of the warm-up.
   */
  lemma GatesAgreeIff(prm: Params)
    requires Usable(prm)
    ensures (forall bars :: Agree(bars, prm)) <==> prm.atrPeriod <= Max(prm.amplitude, 2)
  {
    if prm.atrPeriod <= Max(prm.amplitude, 2) {
      forall bars, m | 0 <= m < |bars| ensures Emitted(bars, prm, m) == Drawn(bars, prm, m) {
        StrategyMatchesOverlay(bars, prm, m);
        NoTurnBeforeWindow(bars, prm, m);
        if m >= 1 { NoTurnBeforeWindow(bars, prm, m - 1); }
      }
    } else {
      WhipsawSplitsGates(prm);
      assert !Agree(Whipsaw(prm.atrPeriod), prm);
    }
  }

  /** The gates do differ: a gap up and a gap down make the strategy sell on the last warm-up bar. */
  lemma GatesDiffer()
    ensures var bars := [Bar(10.0, 9.0, 9.5), Bar(14.0, 12.0, 13.0), Bar(11.0, 9.0, 10.0)];
            var prm := Params(1, 2, 3);
            Emitted(bars, prm, 2) == Some(SellSide) && Drawn(bars, prm, 2) == None
  {
    var bars := [Bar(10.0, 9.0, 9.5), Bar(14.0, 12.0, 13.0), Bar(11.0, 9.0, 10.0)];
    var prm := Params(1, 2, 3);
    WindowOfOne(bars, 1);
    WindowOfOne(bars, 2);
    var r1 := RowAt(bars, prm, 1);
    assert r1 == NextRow(FirstRow(bars[0]), bars[0], bars[1], RollingAt(bars, 1, 1), Atr(bars, 1, 3), 2);
    assert r1.trend == 0 && r1.next == 1 && r1.maxLow == Some(12.0);
    var r2 := RowAt(bars, prm, 2);
    assert r2 == NextRow(r1, bars[1], bars[2], RollingAt(bars, 2, 1), Atr(bars, 2, 3), 2);
    assert r2.trend == 1;
    TurnSplitsGates(bars, prm);
  }

  lemma WindowOfOne(bars: seq<Bar>, i: nat)
    requires i < |bars|
    ensures RollingAt(bars, i, 1) == Some(Rolling(bars[i].high, bars[i].low, bars[i].high, bars[i].low))
  {
  }

  // ----------------------------------------------------------------- the overlay loop

  method BuildOverlay(bars: seq<Bar>, prm: Params) returns (markers: seq<Marker>)
    requires Usable(prm)
    ensures markers == MarkersUpTo(bars, prm, |bars|)
  {
    markers := [];
    var rows, buy, sell := HalfTrend.HalfTrend(bars, prm);
    if |bars| <= prm.atrPeriod { return; }
    for i := prm.atrPeriod to |bars|
      invariant markers == MarkersUpTo(bars, prm, i)
    {
      if buy[i] {
        markers := markers + [Marker(i, BuySide)];
      } else if sell[i] {
        markers := markers + [Marker(i, SellSide)];
      }
    }
  }

  // ------------------------------------------------------------------- the strategy

  datatype Closed = Closed(symbol: string, minute: bool, bar: Bar)

  class HalfTrendStrategy {
    const symbol: Option<string>
    const prm: Params
    var buf: seq<Bar>
    var buy: seq<bool>
    var sell: seq<bool>

    ghost predicate Valid()
      reads this
    {
      && Usable(prm) && |buy| == |sell| == |buf|
      && forall i :: 0 <= i < |buf| ==> buy[i] == BuyAt(buf, prm, i) && sell[i] == SellAt(buf, prm, i)
    }

    constructor (symbol: Option<string>, prm: Params)
      requires Usable(prm)
      ensures this.symbol == symbol && this.prm == prm && Valid() && buf == []
    {
      this.symbol, this.prm := symbol, prm;
      buf, buy, sell := [], [], [];
    }

    /** Re-run the indicator over the whole buffer. */
    method Bind()
      requires Usable(prm)
      modifies this`buy, this`sell
      ensures Valid()
    {
      var rows;
      rows, buy, sell := HalfTrend.HalfTrend(buf, prm);
    }

    method LatestSignal() returns (s: Option<Side>)
      requires Valid()
      ensures s == if buf == [] then None else Emitted(buf, prm, |buf| - 1)
    {
      if |buy| < prm.atrPeriod { return None; }
      var idx := |buy| - 1;
      assert buf[..idx + 1] == buf;
      if buy[idx] { return Some(BuySide); }
      if sell[idx] { return Some(SellSide); }
      return None;
    }

    /** Other symbols and timeframes are ignored; otherwise the bar joins the buffer and is judged. */
    method OnCandleClosed(e: Closed) returns (s: Option<Side>)
      requires Valid()
      modifies this
      ensures Valid()
      ensures (symbol.Some? && e.symbol != symbol.value) || !e.minute ==> buf == old(buf) && s == None
      ensures !((symbol.Some? && e.symbol != symbol.value) || !e.minute) ==>
                buf == old(buf) + [e.bar] && s == Emitted(buf, prm, |buf| - 1)
    {
      if symbol.Some? && e.symbol != symbol.value { return None; }
      if !e.minute { return None; }
      buf := buf + [e.bar];
      Bind();
      s := LatestSignal();
    }
  }

  /** Feeding a stream of closes to the strategy emits, bar by bar, what `Emitted` says of the whole stream. */
  method RunStrategy(bars: seq<Bar>, prm: Params) returns (signals: seq<Option<Side>>)
    requires Usable(prm)
    ensures |signals| == |bars|
    ensures forall m :: 0 <= m < |bars| ==> signals[m] == Emitted(bars, prm, m)
    ensures forall m :: 0 <= m < |bars| && m + 1 != prm.atrPeriod ==> signals[m] == Drawn(bars, prm, m)
  {
    var st := new HalfTrendStrategy(None, prm);
    signals := [];
    for i := 0 to |bars|
      invariant st.Valid() && st.prm == prm && st.symbol == None && st.buf == bars[..i] && |signals| == i
      invariant forall m :: 0 <= m < i ==> signals[m] == Emitted(bars, prm, m)
    {
      var s := st.OnCandleClosed(Closed("", true, bars[i]));
      assert st.buf == bars[..i + 1] && st.buf[..i + 1] == st.buf;
      signals := signals + [s];
    }
    forall m | 0 <= m < |bars| && m + 1 != prm.atrPeriod ensures signals[m] == Drawn(bars, prm, m) {
      StrategyMatchesOverlay(bars, prm, m);
    }
  }
}
