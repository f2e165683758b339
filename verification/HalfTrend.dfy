/**
 * The HalfTrend indicator: rolling columns, the ATR recurrence and the bar-by-bar state loop.
 * NaN is None; `bars` is the whole frame and every column is indexed into it.
 */
module HalfTrend {
  import opened Common

  datatype Bar = Bar(high: real, low: real, close: real)

  datatype Params = Params(amplitude: nat, deviation: int, atrPeriod: nat)

  predicate Usable(prm: Params) { prm.amplitude >= 1 && prm.atrPeriod >= 1 }

  // --------------------------------------------------------------------- columns

  /** Maximum high of the `n` bars ending at `i`. */
  function WindowMax(bars: seq<Bar>, i: nat, n: nat): real
    requires 1 <= n <= i + 1 <= |bars|
  {
    if n == 1 then bars[i].high
    else var m := WindowMax(bars, i - 1, n - 1); if bars[i].high >= m then bars[i].high else m
  }

  function WindowMin(bars: seq<Bar>, i: nat, n: nat): real
    requires 1 <= n <= i + 1 <= |bars|
  {
    if n == 1 then bars[i].low
    else var m := WindowMin(bars, i - 1, n - 1); if bars[i].low <= m then bars[i].low else m
  }

  function WindowSums(bars: seq<Bar>, i: nat, n: nat): (real, real)
    requires 1 <= n <= i + 1 <= |bars|
  {
    if n == 1 then (bars[i].high, bars[i].low)
    else var s := WindowSums(bars, i - 1, n - 1); (s.0 + bars[i].high, s.1 + bars[i].low)
  }

  /** The rolling columns of one bar: highest high, lowest low, and the two means. */
  datatype Rolling = Rolling(highPrice: real, lowPrice: real, highMa: real, lowMa: real)

  function RollingAt(bars: seq<Bar>, i: nat, n: nat): Option<Rolling>
    requires i < |bars| && n >= 1
  {
    if i + 1 < n then None
    else
      var s := WindowSums(bars, i, n);
      Some(Rolling(WindowMax(bars, i, n), WindowMin(bars, i, n), s.0 / n as real, s.1 / n as real))
  }

  function TrueRange(bars: seq<Bar>, i: nat): real
    requires i < |bars|
  {
    var b := bars[i];
    if i == 0 then b.high - b.low
    else MaxR(b.high - b.low, MaxR(Abs(b.high - bars[i - 1].close), Abs(b.low - bars[i - 1].close)))
  }

  /** One minus alpha, with alpha = 1 / period. */
  function Decay(period: nat): (d: real)
    requires period >= 1
    ensures d >= 0.0
  {
    1.0 - 1.0 / period as real
  }

  function TrueRanges(bars: seq<Bar>): seq<real> {
    seq(|bars|, i requires 0 <= i < |bars| => TrueRange(bars, i))
  }

  /** The recurrence behind the weighted mean: each bar discounts what came before. */
  function Discounted(xs: seq<real>, i: nat, d: real): real
    requires i < |xs|
  {
    if i == 0 then xs[0] else d * Discounted(xs, i - 1, d) + xs[i]
  }

  function Ones(n: nat): seq<real> { seq(n, _ => 1.0) }

  lemma {:induction false} DiscountedOnes(n: nat, i: nat, d: real)
    requires i < n && d >= 0.0
    ensures Discounted(Ones(n), i, d) >= 1.0
  {
    if i > 0 {
      DiscountedOnes(n, i - 1, d);
      NonNegativeProduct(d, Discounted(Ones(n), i - 1, d));
    }
  }

  lemma NonNegativeProduct(x: real, y: real)
    requires x >= 0.0 && y >= 0.0
    ensures x * y >= 0.0
  {
  }

  /** The exponentially weighted mean of the true range, undefined before `period` bars. */
  function Atr(bars: seq<Bar>, i: nat, period: nat): Option<real>
    requires i < |bars| && period >= 1
  {
    if i + 1 < period then None
    else
      DiscountedOnes(|bars|, i, Decay(period));
      Some(Discounted(TrueRanges(bars), i, Decay(period)) / Discounted(Ones(|bars|), i, Decay(period)))
  }

  // ------------------------------------------------ what the columns stand for

  function Power(x: real, n: nat): real { if n == 0 then 1.0 else x * Power(x, n - 1) }

  /** The first `k` values, each weighted by the decay to the power of its distance from index `i`. */
  function Weighted(xs: seq<real>, i: nat, k: nat, d: real): real
    requires k <= i + 1 <= |xs|
  {
    if k == 0 then 0.0 else Weighted(xs, i, k - 1, d) + Power(d, i - (k - 1)) * xs[k - 1]
  }

  lemma {:induction false} WeightsShift(xs: seq<real>, i: nat, k: nat, d: real)
    requires 1 <= i < |xs| && k <= i
    ensures Weighted(xs, i, k, d) == d * Weighted(xs, i - 1, k, d)
  {
    if k > 0 {
      WeightsShift(xs, i, k - 1, d);
      var n := i - 1 - (k - 1);
      assert i - (k - 1) == n + 1;
      Factor(d, Weighted(xs, i - 1, k - 1, d), Power(d, n), xs[k - 1]);
    }
  }

  lemma Factor(d: real, b: real, w: real, t: real)
    ensures d * b + d * w * t == d * (b + w * t)
  {
  }

  /** The recurrence weights every value by its age: numerator and denominator of the weighted mean. */
  lemma {:induction false} DiscountedIsWeighted(xs: seq<real>, i: nat, d: real)
    requires i < |xs|
    ensures Discounted(xs, i, d) == Weighted(xs, i, i + 1, d)
  {
    assert Power(d, 0) == 1.0;
    if i > 0 {
      DiscountedIsWeighted(xs, i - 1, d);
      WeightsShift(xs, i, i, d);
    } else {
      assert Weighted(xs, 0, 0, d) == 0.0;
    }
  }

  /** The ATR is the mean of the true ranges so far, weighted by age, on every warm bar. */
  lemma AtrIsWeightedMean(bars: seq<Bar>, i: nat, period: nat)
    requires i < |bars| && 1 <= period <= i + 1
    ensures var d := 1.0 - 1.0 / period as real;
            var w := Weighted(Ones(|bars|), i, i + 1, d);
            w >= 1.0 && Atr(bars, i, period) == Some(Weighted(TrueRanges(bars), i, i + 1, d) / w)
  {
    DiscountedIsWeighted(TrueRanges(bars), i, Decay(period));
    DiscountedIsWeighted(Ones(|bars|), i, Decay(period));
    DiscountedOnes(|bars|, i, Decay(period));
  }

  /** The rolling extremes are attained extremes of the window. */
  lemma {:induction false} WindowExtremes(bars: seq<Bar>, i: nat, n: nat)
    requires 1 <= n <= i + 1 <= |bars|
    ensures forall j :: i + 1 - n <= j <= i ==> bars[j].high <= WindowMax(bars, i, n) && WindowMin(bars, i, n) <= bars[j].low
    ensures exists j :: i + 1 - n <= j <= i && bars[j].high == WindowMax(bars, i, n)
    ensures exists j :: i + 1 - n <= j <= i && bars[j].low == WindowMin(bars, i, n)
  {
    if n > 1 { WindowExtremes(bars, i - 1, n - 1); }
  }

  // ---------------------------------------------------------------- the state loop

  /** One row of the output arrays. */
  datatype Row = Row(trend: int, next: int, maxLow: Option<real>, minHigh: Option<real>,
                     up: Option<real>, down: Option<real>, arrowUp: Option<real>, arrowDown: Option<real>,
                     atrHigh: Option<real>, atrLow: Option<real>)

  function FirstRow(b: Bar): Row {
    Row(0, 0, Some(b.low), Some(b.high), None, None, None, None, None, None)
  }

  /** The larger (smaller) of a fresh value and a carried one, whichever are defined. */
  function Pick(isNew: Option<real>, carried: Option<real>, larger: bool): Option<real> {
    if isNew.Some? && carried.Some? then
      Some(if larger then MaxR(isNew.value, carried.value) else MinR(isNew.value, carried.value))
    else if isNew.Some? then isNew
    else carried
  }

  /** Trend, next trend and the two carried extremes after the flip test. */
  datatype Flip = Flip(trend: int, next: int, maxLow: Option<real>, minHigh: Option<real>)

  function FlipTest(p: Row, prev: Bar, b: Bar, r: Option<Rolling>): Flip {
    if p.next == 1 then
      var maxLow := Pick(if r.Some? then Some(r.value.lowPrice) else None, p.maxLow, true);
      if r.Some? && maxLow.Some? && r.value.highMa < maxLow.value && b.close < prev.low
      then Flip(1, 0, maxLow, Some(r.value.highPrice))
      else Flip(p.trend, p.next, maxLow, p.minHigh)
    else
      var minHigh := Pick(if r.Some? then Some(r.value.highPrice) else None, p.minHigh, false);
      if r.Some? && minHigh.Some? && r.value.lowMa > minHigh.value && b.close > prev.high
      then Flip(0, 1, Some(r.value.lowPrice), minHigh)
      else Flip(p.trend, p.next, p.maxLow, minHigh)
  }

  function Plus(a: Option<real>, b: Option<real>): Option<real> {
    if a.Some? && b.Some? then Some(a.value + b.value) else None
  }

  function Minus(a: Option<real>, b: Option<real>): Option<real> {
    if a.Some? && b.Some? then Some(a.value - b.value) else None
  }

  /** The line and the channel: carried across a flip, otherwise ratcheted by the extreme. */
  function NextRow(p: Row, prev: Bar, b: Bar, r: Option<Rolling>, atr: Option<real>, deviation: int): Row {
    var f := FlipTest(p, prev, b, r);
    var a2 := if atr.Some? then Some(atr.value / 2.0) else None;
    var d := if a2.Some? then Some(deviation as real * a2.value) else None;
    if f.trend == 0 then
      var up := if p.trend != 0 then p.down else Pick(f.maxLow, p.up, true);
      Row(f.trend, f.next, f.maxLow, f.minHigh, up, None,
          if p.trend != 0 then Minus(up, a2) else None, None, Plus(up, d), Minus(up, d))
    else
      var down := if p.trend != 1 then p.up else Pick(f.minHigh, p.down, false);
      Row(f.trend, f.next, f.maxLow, f.minHigh, None, down,
          None, if p.trend != 1 then Plus(down, a2) else None, Plus(down, d), Minus(down, d))
  }

  function RowAt(bars: seq<Bar>, prm: Params, i: nat): Row
    requires i < |bars| && Usable(prm)
  {
    if i == 0 then FirstRow(bars[0])
    else NextRow(RowAt(bars, prm, i - 1), bars[i - 1], bars[i], RollingAt(bars, i, prm.amplitude),
                 Atr(bars, i, prm.atrPeriod), prm.deviation)
  }

  function Ht(r: Row): Option<real> { if r.trend == 0 then r.up else r.down }

  predicate BuyAt(bars: seq<Bar>, prm: Params, i: nat)
    requires i < |bars| && Usable(prm)
  {
    var r := RowAt(bars, prm, i);
    i >= 1 && r.arrowUp.Some? && r.trend == 0 && RowAt(bars, prm, i - 1).trend == 1
  }

  predicate SellAt(bars: seq<Bar>, prm: Params, i: nat)
    requires i < |bars| && Usable(prm)
  {
    var r := RowAt(bars, prm, i);
    i >= 1 && r.arrowDown.Some? && r.trend == 1 && RowAt(bars, prm, i - 1).trend == 0
  }

  // ------------------------------------------------------------ it does not repaint

  lemma {:induction false} WindowsArePrefixStable(bars: seq<Bar>, k: nat, i: nat, n: nat)
    requires i < k <= |bars| && 1 <= n <= i + 1
    ensures WindowMax(bars[..k], i, n) == WindowMax(bars, i, n)
    ensures WindowMin(bars[..k], i, n) == WindowMin(bars, i, n)
    ensures WindowSums(bars[..k], i, n) == WindowSums(bars, i, n)
  {
    if n > 1 { WindowsArePrefixStable(bars, k, i - 1, n - 1); }
  }

  lemma {:induction false} DiscountedIsPrefixStable(xs: seq<real>, ys: seq<real>, i: nat, d: real)
    requires i < |xs| && i < |ys| && forall j :: 0 <= j <= i ==> xs[j] == ys[j]
    ensures Discounted(xs, i, d) == Discounted(ys, i, d)
  {
    if i > 0 { DiscountedIsPrefixStable(xs, ys, i - 1, d); }
  }

  lemma AtrIsPrefixStable(bars: seq<Bar>, k: nat, i: nat, period: nat)
    requires i < k <= |bars| && period >= 1
    ensures Atr(bars[..k], i, period) == Atr(bars, i, period)
  {
    forall j | 0 <= j <= i ensures TrueRanges(bars[..k])[j] == TrueRanges(bars)[j] {
      assert TrueRange(bars[..k], j) == TrueRange(bars, j);
    }
    DiscountedIsPrefixStable(TrueRanges(bars[..k]), TrueRanges(bars), i, Decay(period));
    DiscountedIsPrefixStable(Ones(k), Ones(|bars|), i, Decay(period));
  }

  /** Every output row on a prefix of the frame is the row on the whole frame. */
  lemma {:induction false} RowsArePrefixStable(bars: seq<Bar>, prm: Params, k: nat, i: nat)
    requires i < k <= |bars| && Usable(prm)
    ensures RowAt(bars[..k], prm, i) == RowAt(bars, prm, i)
  {
    if i > 0 {
      RowsArePrefixStable(bars, prm, k, i - 1);
      AtrIsPrefixStable(bars, k, i, prm.atrPeriod);
      if prm.amplitude <= i + 1 { WindowsArePrefixStable(bars, k, i, prm.amplitude); }
    }
  }

  /** HalfTrend does not repaint: the signals on any prefix are those on the whole frame. */
  lemma SignalsDoNotRepaint(bars: seq<Bar>, prm: Params, k: nat, i: nat)
    requires i < k <= |bars| && Usable(prm)
    ensures BuyAt(bars[..k], prm, i) == BuyAt(bars, prm, i)
    ensures SellAt(bars[..k], prm, i) == SellAt(bars, prm, i)
  {
    RowsArePrefixStable(bars, prm, k, i);
    if i > 0 { RowsArePrefixStable(bars, prm, k, i - 1); }
  }

  // --------------------------------------------------------------- line invariants

  /** The trends are 0 or 1 and never both 1, the extremes are always defined, and so is the line from bar 1. */
  ghost predicate RowInv(r: Row, i: nat) {
    && (r.trend == 0 || r.trend == 1) && (r.next == 0 || r.next == 1) && !(r.trend == 1 && r.next == 1)
    && r.maxLow.Some? && r.minHigh.Some?
    && (r.trend == 1 ==> i >= 2) && (r.next == 1 ==> i >= 1)
    && (i >= 1 ==> Ht(r).Some?)
    && (r.trend == 0 ==> r.down.None?) && (r.trend == 1 ==> r.up.None?)
  }

  lemma NextRowKeepsInv(p: Row, prev: Bar, b: Bar, r: Option<Rolling>, atr: Option<real>, deviation: int, i: nat)
    requires RowInv(p, i)
    ensures RowInv(NextRow(p, prev, b, r, atr, deviation), i + 1)
  {
  }

  lemma {:induction false} RowsKeepInv(bars: seq<Bar>, prm: Params, i: nat)
    requires i < |bars| && Usable(prm)
    ensures RowInv(RowAt(bars, prm, i), i)
  {
    if i > 0 {
      RowsKeepInv(bars, prm, i - 1);
      NextRowKeepsInv(RowAt(bars, prm, i - 1), bars[i - 1], bars[i], RollingAt(bars, i, prm.amplitude),
                      Atr(bars, i, prm.atrPeriod), prm.deviation, i - 1);
    }
  }

  /** One step of the line: continuous at a flip, never down in an up run, never up in a down run. */
  lemma LineStep(bars: seq<Bar>, prm: Params, i: nat)
    requires 1 <= i < |bars| - 1 && Usable(prm)
    ensures var r, s := RowAt(bars, prm, i), RowAt(bars, prm, i + 1);
            && Ht(r).Some? && Ht(s).Some?
            && (r.trend != s.trend ==> Ht(s) == Ht(r))
            && (r.trend == 0 && s.trend == 0 ==> Ht(s).value >= Ht(r).value)
            && (r.trend == 1 && s.trend == 1 ==> Ht(s).value <= Ht(r).value)
  {
    RowsKeepInv(bars, prm, i);
    RowsKeepInv(bars, prm, i + 1);
  }

  /** Inside a whole up (down) run the line never falls (rises). */
  lemma {:induction false} LineIsMonotoneInRuns(bars: seq<Bar>, prm: Params, i: nat, j: nat, trend: int)
    requires 1 <= i <= j < |bars| && Usable(prm)
    requires forall k :: i <= k <= j ==> RowAt(bars, prm, k).trend == trend
    ensures var a, b := Ht(RowAt(bars, prm, i)), Ht(RowAt(bars, prm, j));
            && a.Some? && b.Some?
            && (trend == 0 ==> a.value <= b.value) && (trend == 1 ==> a.value >= b.value)
    decreases j
  {
    RowsKeepInv(bars, prm, i);
    if i < j {
      LineIsMonotoneInRuns(bars, prm, i, j - 1, trend);
      LineStep(bars, prm, j - 1);
    }
  }

  // ------------------------------------------------------------ signals alternate

  /** A signal is a trend flip on a bar where the ATR is defined, nothing else. */
  lemma SignalIsWarmFlip(bars: seq<Bar>, prm: Params, i: nat)
    requires 1 <= i < |bars| && Usable(prm)
    ensures BuyAt(bars, prm, i) <==>
            i + 1 >= prm.atrPeriod && RowAt(bars, prm, i - 1).trend == 1 && RowAt(bars, prm, i).trend == 0
    ensures SellAt(bars, prm, i) <==>
            i + 1 >= prm.atrPeriod && RowAt(bars, prm, i - 1).trend == 0 && RowAt(bars, prm, i).trend == 1
  {
    RowsKeepInv(bars, prm, i - 1);
    RowsKeepInv(bars, prm, i);
    var p, r := RowAt(bars, prm, i - 1), RowAt(bars, prm, i);
    assert r == NextRow(p, bars[i - 1], bars[i], RollingAt(bars, i, prm.amplitude), Atr(bars, i, prm.atrPeriod), prm.deviation);
  }

  /** Between two bars of different trend there is a flip to the later one. */
  lemma FlipBetween(bars: seq<Bar>, prm: Params, i: nat, j: nat, trend: int) returns (k: nat)
    requires i < j < |bars| && Usable(prm)
    requires RowAt(bars, prm, i).trend != trend && RowAt(bars, prm, j).trend == trend
    ensures i < k <= j && RowAt(bars, prm, k - 1).trend != trend && RowAt(bars, prm, k).trend == trend
  {
    k := i + 1;
    while RowAt(bars, prm, k).trend != trend
      invariant i < k <= j && RowAt(bars, prm, k - 1).trend != trend
      decreases j - k
    {
      k := k + 1;
    }
  }

  /** Buy and sell signals strictly alternate: between two of the same side lies one of the other. */
  lemma SignalsAlternate(bars: seq<Bar>, prm: Params, i: nat, j: nat)
    requires i < j < |bars| && Usable(prm)
    ensures BuyAt(bars, prm, i) && BuyAt(bars, prm, j) ==> exists k :: i < k < j && SellAt(bars, prm, k)
    ensures SellAt(bars, prm, i) && SellAt(bars, prm, j) ==> exists k :: i < k < j && BuyAt(bars, prm, k)
  {
    SignalFlips(bars, prm, i);
    SignalFlips(bars, prm, j);
    if BuyAt(bars, prm, i) && BuyAt(bars, prm, j) {
      var k := SignalBetween(bars, prm, i, j, 1);
    }
    if SellAt(bars, prm, i) && SellAt(bars, prm, j) {
      var k := SignalBetween(bars, prm, i, j, 0);
    }
  }

  lemma SignalFlips(bars: seq<Bar>, prm: Params, i: nat)
    requires i < |bars| && Usable(prm)
    ensures BuyAt(bars, prm, i) ==>
              i >= 1 && i + 1 >= prm.atrPeriod && RowAt(bars, prm, i - 1).trend == 1 && RowAt(bars, prm, i).trend == 0
    ensures SellAt(bars, prm, i) ==>
              i >= 1 && i + 1 >= prm.atrPeriod && RowAt(bars, prm, i - 1).trend == 0 && RowAt(bars, prm, i).trend == 1
  {
    if i >= 1 { SignalIsWarmFlip(bars, prm, i); }
  }

  /** Between two warm bars of different trend lies the signal of the later one. */
  lemma {:induction false} SignalBetween(bars: seq<Bar>, prm: Params, i: nat, j: nat, trend: int) returns (k: nat)
    requires i < j - 1 < |bars| && Usable(prm) && i + 1 >= prm.atrPeriod && (trend == 0 || trend == 1)
    requires RowAt(bars, prm, i).trend != trend && RowAt(bars, prm, j - 1).trend == trend
    ensures i < k < j && k < |bars| && (if trend == 1 then SellAt(bars, prm, k) else BuyAt(bars, prm, k))
  {
    k := FlipBetween(bars, prm, i, j - 1, trend);
    WarmFlipSignals(bars, prm, k, trend);
  }

  lemma {:induction false} WarmFlipSignals(bars: seq<Bar>, prm: Params, k: nat, trend: int)
    requires 1 <= k < |bars| && Usable(prm) && k + 1 >= prm.atrPeriod && (trend == 0 || trend == 1)
    requires RowAt(bars, prm, k - 1).trend != trend && RowAt(bars, prm, k).trend == trend
    ensures if trend == 1 then SellAt(bars, prm, k) else BuyAt(bars, prm, k)
  {
    RowsKeepInv(bars, prm, k - 1);
    SignalIsWarmFlip(bars, prm, k);
  }

  // ------------------------------------------- when the trend turns, from the bars alone

  function Highs(bars: seq<Bar>): seq<real> { seq(|bars|, i requires 0 <= i < |bars| => bars[i].high) }

  function Lows(bars: seq<Bar>): seq<real> { seq(|bars|, i requires 0 <= i < |bars| => bars[i].low) }

  /** The mean high (low) of the `n` bars ending at `i`. */
  function MeanHigh(bars: seq<Bar>, i: nat, n: nat): real
    requires 1 <= n <= i + 1 <= |bars|
  {
    Sum(Highs(bars)[i + 1 - n..i + 1]) / n as real
  }

  function MeanLow(bars: seq<Bar>, i: nat, n: nat): real
    requires 1 <= n <= i + 1 <= |bars|
  {
    Sum(Lows(bars)[i + 1 - n..i + 1]) / n as real
  }

  lemma SliceGrows(xs: seq<real>, a: nat, b: nat)
    requires a < b <= |xs|
    ensures Sum(xs[a..b]) == Sum(xs[a..b - 1]) + xs[b - 1]
  {
    assert xs[a..b][..b - 1 - a] == xs[a..b - 1];
  }

  lemma {:induction false} SumsAreSlices(bars: seq<Bar>, hs: seq<real>, ls: seq<real>, i: nat, n: nat)
    requires 1 <= n <= i + 1 <= |bars| == |hs| == |ls|
    requires forall k :: 0 <= k < |bars| ==> hs[k] == bars[k].high && ls[k] == bars[k].low
    ensures WindowSums(bars, i, n) == (Sum(hs[i + 1 - n..i + 1]), Sum(ls[i + 1 - n..i + 1]))
  {
    SliceGrows(hs, i + 1 - n, i + 1);
    SliceGrows(ls, i + 1 - n, i + 1);
    if n == 1 {
      assert hs[i..i] == [] && ls[i..i] == [];
    } else {
      SumsAreSlices(bars, hs, ls, i - 1, n - 1);
    }
  }

  lemma RollingMeans(bars: seq<Bar>, i: nat, n: nat)
    requires 1 <= n <= i + 1 <= |bars|
    ensures var r := RollingAt(bars, i, n);
            r.Some? && r.value.highMa == MeanHigh(bars, i, n) && r.value.lowMa == MeanLow(bars, i, n)
            && r.value.highPrice == WindowMax(bars, i, n) && r.value.lowPrice == WindowMin(bars, i, n)
  {
    SumsAreSlices(bars, Highs(bars), Lows(bars), i, n);
  }

  /** The highest low of a full window that ends at a bar from `a` to `i`. */
  function HighestLow(bars: seq<Bar>, n: nat, a: nat, i: nat): real
    requires 1 <= n <= a + 1 && a <= i < |bars|
    decreases i
  {
    if i == a then WindowMin(bars, i, n) else MaxR(WindowMin(bars, i, n), HighestLow(bars, n, a, i - 1))
  }

  /** The lowest high of a full window that ends at a bar from `d` to `i`; the first bar counts as one from 0. */
  function LowestHigh(bars: seq<Bar>, n: nat, d: nat, i: nat): real
    requires n >= 1 && (d == 0 || n <= d + 1) && d <= i < |bars|
    decreases i
  {
    if i == d then (if d == 0 then bars[0].high else WindowMax(bars, i, n))
    else if n <= i + 1 then MinR(WindowMax(bars, i, n), LowestHigh(bars, n, d, i - 1))
    else LowestHigh(bars, n, d, i - 1)
  }

  /** The full window that ends at `j` lies above `x` with all its lows. */
  ghost predicate LowsAbove(bars: seq<Bar>, n: nat, j: nat, x: real)
    requires j < |bars|
  {
    n <= j + 1 && forall m :: j + 1 - n <= m <= j ==> bars[m].low > x
  }

  /** The full window that ends at `j`, or the very first bar, lies below `x` with all its highs. */
  ghost predicate HighsBelow(bars: seq<Bar>, n: nat, j: nat, x: real)
    requires j < |bars|
  {
    (j == 0 || n <= j + 1) && forall m :: Max(0, j + 1 - n) <= m <= j ==> bars[m].high < x
  }

  /** The highest low lies above `x` exactly when all lows of some window do. */
  lemma {:induction false} HighestLowMeans(bars: seq<Bar>, n: nat, a: nat, i: nat, x: real)
    requires 1 <= n <= a + 1 && a <= i < |bars|
    ensures HighestLow(bars, n, a, i) > x <==> exists j :: a <= j <= i && LowsAbove(bars, n, j, x)
    decreases i
  {
    WindowExtremes(bars, i, n);
    assert WindowMin(bars, i, n) > x <==> LowsAbove(bars, n, i, x);
    if i > a { HighestLowMeans(bars, n, a, i - 1, x); }
  }

  /** The lowest high lies below `x` exactly when all highs of some window do. */
  lemma {:induction false} LowestHighMeans(bars: seq<Bar>, n: nat, d: nat, i: nat, x: real)
    requires n >= 1 && (d == 0 || n <= d + 1) && d <= i < |bars|
    ensures LowestHigh(bars, n, d, i) < x <==> exists j :: d <= j <= i && HighsBelow(bars, n, j, x)
    decreases i
  {
    if n <= i + 1 {
      WindowExtremes(bars, i, n);
      assert WindowMax(bars, i, n) < x <==> HighsBelow(bars, n, i, x);
    }
    if i > d { LowestHighMeans(bars, n, d, i - 1, x); }
    assert i == d == 0 ==> (bars[0].high < x <==> HighsBelow(bars, n, 0, x));
  }

  /** Bar `i` falls through what was held since `a`: its mean high and its close. */
  ghost predicate FallsThrough(bars: seq<Bar>, n: nat, a: nat, i: nat)
    requires i < |bars|
  {
    && 1 <= n <= a + 1 && 1 <= a < i
    && MeanHigh(bars, i, n) < HighestLow(bars, n, a, i) && bars[i].close < bars[i - 1].low
  }

  /** Bar `i`, with a full window, breaks out above what capped it since `d`. */
  ghost predicate BreaksOut(bars: seq<Bar>, n: nat, d: nat, i: nat)
    requires i < |bars|
  {
    && 1 <= n <= i + 1 && (d == 0 || n <= d + 1) && d < i
    && MeanLow(bars, i, n) > LowestHigh(bars, n, d, i) && bars[i].close > bars[i - 1].high
  }

  datatype Phase = Start | Up(since: nat) | Down(since: nat)

  function Since(ph: Phase): nat { if ph.Start? then 0 else ph.since }

  /** A phase other than the start began at a bar with a full window. */
  predicate Begun(ph: Phase, n: nat, i: nat) { ph.Start? || (1 <= ph.since <= i && n <= ph.since + 1) }

  /** How a phase moves, without its conditions spelt out. */
  function NextPhase(before: Phase, falls: bool, breaks: bool, i: nat): Phase {
    if before.Up? then (if falls then Down(i) else before) else if breaks then Up(i) else before
  }

  /** The phase of the market after bar `i`: break-outs and falls take turns. */
  ghost function PhaseAt(bars: seq<Bar>, n: nat, i: nat): (ph: Phase)
    requires i < |bars| && n >= 1
    ensures Begun(ph, n, i)
  {
    if i == 0 then Start
    else
      var before := PhaseAt(bars, n, i - 1);
      NextPhase(before, before.Up? && FallsThrough(bars, n, before.since, i),
                !before.Up? && BreaksOut(bars, n, Since(before), i), i)
  }

  /** The row after bar `i` carries the phase: its trends, and the extreme that the next turn is measured against. */
  ghost predicate Carries(bars: seq<Bar>, n: nat, i: nat, r: Row, ph: Phase)
    requires i < |bars| && n >= 1 && Begun(ph, n, i)
  {
    && TrendsOf(r, ph)
    && if ph.Up? then r.maxLow == Some(HighestLow(bars, n, ph.since, i))
       else r.minHigh == Some(LowestHigh(bars, n, Since(ph), i))
  }

  lemma UpStep(bars: seq<Bar>, n: nat, i: nat, p: Row, a: nat, atr: Option<real>, deviation: int)
    requires n >= 1 && 1 <= i < |bars| && Begun(Up(a), n, i - 1) && Carries(bars, n, i - 1, p, Up(a))
    ensures var r := NextRow(p, bars[i - 1], bars[i], RollingAt(bars, i, n), atr, deviation);
            Carries(bars, n, i, r, if FallsThrough(bars, n, a, i) then Down(i) else Up(a))
  {
    RollingMeans(bars, i, n);
  }

  lemma OtherStep(bars: seq<Bar>, n: nat, i: nat, p: Row, ph: Phase, atr: Option<real>, deviation: int)
    requires n >= 1 && 1 <= i < |bars| && !ph.Up? && Begun(ph, n, i - 1) && Carries(bars, n, i - 1, p, ph)
    ensures var r := NextRow(p, bars[i - 1], bars[i], RollingAt(bars, i, n), atr, deviation);
            Carries(bars, n, i, r, if BreaksOut(bars, n, Since(ph), i) then Up(i) else ph)
  {
    if n <= i + 1 { RollingMeans(bars, i, n); }
  }

  /** The state loop computes the phases: `trend` is 1 exactly in a down phase, `nextTrend` exactly in an up phase. */
  lemma {:induction false} TrendFollowsPhase(bars: seq<Bar>, prm: Params, i: nat)
    requires i < |bars| && Usable(prm)
    ensures Carries(bars, prm.amplitude, i, RowAt(bars, prm, i), PhaseAt(bars, prm.amplitude, i))
  {
    var n := prm.amplitude;
    if i > 0 {
      TrendFollowsPhase(bars, prm, i - 1);
      var p, ph, atr := RowAt(bars, prm, i - 1), PhaseAt(bars, n, i - 1), Atr(bars, i, prm.atrPeriod);
      if ph.Up? { UpStep(bars, n, i, p, ph.since, atr, prm.deviation); } else { OtherStep(bars, n, i, p, ph, atr, prm.deviation); }
    }
  }

  /** The two trends of a row, by the phase. */
  predicate TrendsOf(r: Row, ph: Phase) {
    r.trend == (if ph.Down? then 1 else 0) && r.next == (if ph.Up? then 1 else 0)
  }

  lemma {:induction false} TrendsByPhase(bars: seq<Bar>, prm: Params, i: nat)
    requires i < |bars| && Usable(prm)
    ensures TrendsOf(RowAt(bars, prm, i), PhaseAt(bars, prm.amplitude, i))
  {
    TrendFollowsPhase(bars, prm, i);
  }

  /** No bar after `a`, up to `i`, falls through what was held since `a`. */
  ghost predicate NoFallBetween(bars: seq<Bar>, n: nat, a: nat, i: nat)
    requires i < |bars|
    decreases i
  {
    i <= a || (NoFallBetween(bars, n, a, i - 1) && !FallsThrough(bars, n, a, i))
  }

  /** No bar after `d`, up to `i`, breaks out above what capped it since `d`. */
  ghost predicate NoBreakBetween(bars: seq<Bar>, n: nat, d: nat, i: nat)
    requires i < |bars|
    decreases i
  {
    i <= d || (NoBreakBetween(bars, n, d, i - 1) && !BreaksOut(bars, n, d, i))
  }

  lemma {:induction false} NoFallShorter(bars: seq<Bar>, n: nat, a: nat, k: nat, i: nat)
    requires k <= i < |bars| && NoFallBetween(bars, n, a, i)
    ensures NoFallBetween(bars, n, a, k)
    decreases i
  {
    if a < i && k < i { NoFallShorter(bars, n, a, k, i - 1); }
  }

  lemma {:induction false} NoBreakShorter(bars: seq<Bar>, n: nat, d: nat, k: nat, i: nat)
    requires k <= i < |bars| && NoBreakBetween(bars, n, d, i)
    ensures NoBreakBetween(bars, n, d, k)
    decreases i
  {
    if d < i && k < i { NoBreakShorter(bars, n, d, k, i - 1); }
  }

  /** Nothing armed since `d`: from the first bar, or after a turn down. */
  function Quiet(d: nat): Phase { if d == 0 then Start else Down(d) }

  lemma PhaseStep(bars: seq<Bar>, n: nat, i: nat)
    requires 1 <= i < |bars| && n >= 1
    ensures var before := PhaseAt(bars, n, i - 1);
            PhaseAt(bars, n, i)
            == NextPhase(before, FallsThrough(bars, n, Since(before), i), BreaksOut(bars, n, Since(before), i), i)
  {
  }

  lemma UpStays(bars: seq<Bar>, n: nat, i: nat, a: nat)
    requires n >= 1 && a < i < |bars|
    ensures PhaseAt(bars, n, i) == Up(a) <==> PhaseAt(bars, n, i - 1) == Up(a) && !FallsThrough(bars, n, a, i)
  {
  }

  lemma QuietStays(bars: seq<Bar>, n: nat, i: nat, d: nat)
    requires n >= 1 && d < i < |bars|
    ensures PhaseAt(bars, n, i) == Quiet(d) <==> PhaseAt(bars, n, i - 1) == Quiet(d) && !BreaksOut(bars, n, d, i)
  {
  }

  lemma {:induction false} UpLastsUntilFall(bars: seq<Bar>, n: nat, a: nat, i: nat)
    requires a <= i < |bars| && n >= 1 && PhaseAt(bars, n, a) == Up(a)
    ensures PhaseAt(bars, n, i) == Up(a) <==> NoFallBetween(bars, n, a, i)
    decreases i
  {
    if i > a {
      UpLastsUntilFall(bars, n, a, i - 1);
      UpStays(bars, n, i, a);
    }
  }

  lemma {:induction false} DownLastsUntilBreak(bars: seq<Bar>, n: nat, d: nat, i: nat)
    requires d <= i < |bars| && n >= 1 && PhaseAt(bars, n, d) == Quiet(d)
    ensures PhaseAt(bars, n, i) == Quiet(d) <==> NoBreakBetween(bars, n, d, i)
    decreases i
  {
    if i > d {
      DownLastsUntilBreak(bars, n, d, i - 1);
      QuietStays(bars, n, i, d);
    }
  }

  predicate Arms(p: Row, r: Row) { p.next == 0 && r.next == 1 }

  predicate TurnsDown(p: Row, r: Row) { p.trend == 0 && r.trend == 1 }

  /** The next trend is armed at bar `a`: the loop starts to wait for a fall. */
  ghost predicate ArmedAt(bars: seq<Bar>, prm: Params, a: nat)
    requires a < |bars| && Usable(prm)
  {
    a >= 1 && Arms(RowAt(bars, prm, a - 1), RowAt(bars, prm, a))
  }

  /** The trend turns down at bar `d`. */
  ghost predicate TurnedDownAt(bars: seq<Bar>, prm: Params, d: nat)
    requires d < |bars| && Usable(prm)
  {
    d >= 1 && TurnsDown(RowAt(bars, prm, d - 1), RowAt(bars, prm, d))
  }

  lemma {:induction false} TurnsAreStamped(bars: seq<Bar>, prm: Params, i: nat)
    requires i < |bars| && Usable(prm)
    ensures ArmedAt(bars, prm, i) <==> PhaseAt(bars, prm.amplitude, i) == Up(i)
    ensures TurnedDownAt(bars, prm, i) <==> PhaseAt(bars, prm.amplitude, i) == Down(i)
  {
    if i > 0 { StampedAt(bars, prm, i); }
  }

  /** The turns of two rows are those of their phases. */
  ghost predicate Stamped(p: Row, r: Row, ph: Phase, i: nat) {
    (Arms(p, r) <==> ph == Up(i)) && (TurnsDown(p, r) <==> ph == Down(i))
  }

  lemma {:induction false} StampedAt(bars: seq<Bar>, prm: Params, i: nat)
    requires 1 <= i < |bars| && Usable(prm)
    ensures Stamped(RowAt(bars, prm, i - 1), RowAt(bars, prm, i), PhaseAt(bars, prm.amplitude, i), i)
  {
    TrendsByPhase(bars, prm, i);
    TrendsByPhase(bars, prm, i - 1);
    PhaseMoves(bars, prm.amplitude, i);
    StampOfTurn(RowAt(bars, prm, i - 1), RowAt(bars, prm, i),
                PhaseAt(bars, prm.amplitude, i - 1), PhaseAt(bars, prm.amplitude, i), i);
  }

  /** A phase goes on, or a new one of the other kind begins at `i`. */
  predicate MovesTo(before: Phase, ph: Phase, i: nat) {
    && (before.Start? || before.since < i)
    && (ph == before || (ph == Up(i) && !before.Up?) || (ph == Down(i) && before.Up?))
  }

  lemma PhaseMoves(bars: seq<Bar>, n: nat, i: nat)
    requires 1 <= i < |bars| && n >= 1
    ensures MovesTo(PhaseAt(bars, n, i - 1), PhaseAt(bars, n, i), i)
  {
  }

  lemma StampOfTurn(p: Row, r: Row, before: Phase, ph: Phase, i: nat)
    requires TrendsOf(p, before) && TrendsOf(r, ph) && MovesTo(before, ph, i)
    ensures Stamped(p, r, ph, i)
  {
  }

  /**
   * After an arming at bar `a`, the trend first turns down at bar `i` if and only if `i` is the
   * first later bar whose window is full, whose mean high lies below the highest window low
   * since `a`, and whose close lies below the previous low.
   */
  lemma {:induction false} TurnsDownAtFirstFall(bars: seq<Bar>, prm: Params, a: nat, i: nat)
    requires a < i < |bars| && Usable(prm) && ArmedAt(bars, prm, a)
    ensures (RowAt(bars, prm, i).trend == 1 && forall k :: a <= k < i ==> RowAt(bars, prm, k).trend == 0)
            <==> FallsThrough(bars, prm.amplitude, a, i) && NoFallBetween(bars, prm.amplitude, a, i - 1)
  {
    TurnsAreStamped(bars, prm, a);
    if NoFallBetween(bars, prm.amplitude, a, i - 1) {
      UpLastsUntilFall(bars, prm.amplitude, a, i - 1);
      FallStep(bars, prm, a, i);
      AllUp(bars, prm, a, i);
    } else {
      FirstFall(bars, prm, a, i - 1);
    }
  }

  lemma {:induction false} AllUp(bars: seq<Bar>, prm: Params, a: nat, i: nat)
    requires a < i < |bars| && Usable(prm) && PhaseAt(bars, prm.amplitude, a) == Up(a)
    requires NoFallBetween(bars, prm.amplitude, a, i - 1)
    ensures forall k :: a <= k < i ==> RowAt(bars, prm, k).trend == 0
  {
    forall k | a <= k < i ensures RowAt(bars, prm, k).trend == 0 {
      NoFallShorter(bars, prm.amplitude, a, k, i - 1);
      StillUp(bars, prm, a, k);
    }
  }

  lemma {:induction false} FallStep(bars: seq<Bar>, prm: Params, a: nat, i: nat)
    requires 1 <= i < |bars| && Usable(prm) && PhaseAt(bars, prm.amplitude, i - 1) == Up(a)
    ensures RowAt(bars, prm, i).trend == 1 <==> FallsThrough(bars, prm.amplitude, a, i)
  {
    TrendsByPhase(bars, prm, i);
    PhaseStep(bars, prm.amplitude, i);
  }

  lemma {:induction false} StillUp(bars: seq<Bar>, prm: Params, a: nat, k: nat)
    requires a <= k < |bars| && Usable(prm) && PhaseAt(bars, prm.amplitude, a) == Up(a)
    requires NoFallBetween(bars, prm.amplitude, a, k)
    ensures RowAt(bars, prm, k).trend == 0
  {
    UpLastsUntilFall(bars, prm.amplitude, a, k);
    TrendsByPhase(bars, prm, k);
  }

  /** If the market has fallen through by bar `i`, the trend was down in between. */
  lemma {:induction false} FirstFall(bars: seq<Bar>, prm: Params, a: nat, i: nat)
    requires a <= i < |bars| && Usable(prm) && PhaseAt(bars, prm.amplitude, a) == Up(a)
    requires !NoFallBetween(bars, prm.amplitude, a, i)
    ensures exists k :: a <= k <= i && RowAt(bars, prm, k).trend == 1
    decreases i
  {
    if NoFallBetween(bars, prm.amplitude, a, i - 1) {
      UpLastsUntilFall(bars, prm.amplitude, a, i - 1);
      FallStep(bars, prm, a, i);
    } else {
      FirstFall(bars, prm, a, i - 1);
    }
  }

  /**
   * From the first bar, or after a turn down at bar `d`, the next trend is first armed (and a
   * down trend turns up) at bar `i` if and only if `i` is the first later bar whose window is
   * full, whose mean low lies above the lowest window high since `d`, and whose close lies
   * above the previous high.
   */
  lemma {:induction false} ArmsAtFirstBreak(bars: seq<Bar>, prm: Params, d: nat, i: nat)
    requires d < i < |bars| && Usable(prm) && (d == 0 || TurnedDownAt(bars, prm, d))
    ensures (RowAt(bars, prm, i).next == 1 && forall k :: d <= k < i ==> RowAt(bars, prm, k).next == 0)
            <==> BreaksOut(bars, prm.amplitude, d, i) && NoBreakBetween(bars, prm.amplitude, d, i - 1)
    ensures BreaksOut(bars, prm.amplitude, d, i) && NoBreakBetween(bars, prm.amplitude, d, i - 1) ==>
              RowAt(bars, prm, i).trend == 0 && (d > 0 ==> RowAt(bars, prm, i - 1).trend == 1)
  {
    QuietFrom(bars, prm, d);
    if NoBreakBetween(bars, prm.amplitude, d, i - 1) {
      DownLastsUntilBreak(bars, prm.amplitude, d, i - 1);
      BreakStep(bars, prm, d, i);
      AllUnarmed(bars, prm, d, i);
    } else {
      FirstBreak(bars, prm, d, i - 1);
    }
  }

  lemma {:induction false} QuietFrom(bars: seq<Bar>, prm: Params, d: nat)
    requires d < |bars| && Usable(prm) && (d == 0 || TurnedDownAt(bars, prm, d))
    ensures PhaseAt(bars, prm.amplitude, d) == Quiet(d)
  {
    if d > 0 { TurnsAreStamped(bars, prm, d); }
  }

  lemma {:induction false} AllUnarmed(bars: seq<Bar>, prm: Params, d: nat, i: nat)
    requires d < i < |bars| && Usable(prm) && PhaseAt(bars, prm.amplitude, d) == Quiet(d)
    requires NoBreakBetween(bars, prm.amplitude, d, i - 1)
    ensures forall k :: d <= k < i ==> RowAt(bars, prm, k).next == 0
  {
    forall k | d <= k < i ensures RowAt(bars, prm, k).next == 0 {
      NoBreakShorter(bars, prm.amplitude, d, k, i - 1);
      Unarmed(bars, prm, d, k);
    }
  }

  lemma {:induction false} Unarmed(bars: seq<Bar>, prm: Params, d: nat, k: nat)
    requires d <= k < |bars| && Usable(prm) && PhaseAt(bars, prm.amplitude, d) == Quiet(d)
    requires NoBreakBetween(bars, prm.amplitude, d, k)
    ensures RowAt(bars, prm, k).next == 0
  {
    DownLastsUntilBreak(bars, prm.amplitude, d, k);
    TrendsByPhase(bars, prm, k);
  }

  /** A row armed exactly by a break-out, out of a down trend if there was one. */
  ghost predicate ArmedBy(p: Row, r: Row, breaks: bool, d: nat) {
    (r.next == 1 <==> breaks) && (breaks ==> r.trend == 0 && (d > 0 ==> p.trend == 1))
  }

  lemma ArmedByBreak(p: Row, r: Row, falls: bool, breaks: bool, d: nat, i: nat)
    requires TrendsOf(p, Quiet(d)) && TrendsOf(r, NextPhase(Quiet(d), falls, breaks, i))
    ensures ArmedBy(p, r, breaks, d)
  {
  }

  lemma {:induction false} BreakStep(bars: seq<Bar>, prm: Params, d: nat, i: nat)
    requires 1 <= i < |bars| && Usable(prm) && PhaseAt(bars, prm.amplitude, i - 1) == Quiet(d)
    ensures ArmedBy(RowAt(bars, prm, i - 1), RowAt(bars, prm, i), BreaksOut(bars, prm.amplitude, d, i), d)
  {
    TrendsByPhase(bars, prm, i);
    TrendsByPhase(bars, prm, i - 1);
    PhaseStep(bars, prm.amplitude, i);
    ArmedByBreak(RowAt(bars, prm, i - 1), RowAt(bars, prm, i), FallsThrough(bars, prm.amplitude, d, i),
                 BreaksOut(bars, prm.amplitude, d, i), d, i);
  }

  lemma {:induction false} FirstBreak(bars: seq<Bar>, prm: Params, d: nat, i: nat)
    requires d <= i < |bars| && Usable(prm) && PhaseAt(bars, prm.amplitude, d) == Quiet(d)
    requires !NoBreakBetween(bars, prm.amplitude, d, i)
    ensures exists k :: d <= k <= i && RowAt(bars, prm, k).next == 1
    decreases i
  {
    if NoBreakBetween(bars, prm.amplitude, d, i - 1) {
      DownLastsUntilBreak(bars, prm.amplitude, d, i - 1);
      BreakStep(bars, prm, d, i);
    } else {
      FirstBreak(bars, prm, d, i - 1);
    }
  }

  /** Sells are the warm falls out of an up phase, buys the warm break-outs of a down phase. */
  lemma {:induction false} SignalsFollowPhase(bars: seq<Bar>, prm: Params, i: nat)
    requires 1 <= i < |bars| && Usable(prm)
    ensures var before := PhaseAt(bars, prm.amplitude, i - 1);
            && (SellAt(bars, prm, i) <==>
                i + 1 >= prm.atrPeriod && before.Up? && FallsThrough(bars, prm.amplitude, before.since, i))
            && (BuyAt(bars, prm, i) <==>
                i + 1 >= prm.atrPeriod && before.Down? && BreaksOut(bars, prm.amplitude, before.since, i))
  {
    SignalPhases(bars, prm, i);
    PhaseStep(bars, prm.amplitude, i);
  }

  /** A flip down (up) is a change into (out of) a down phase. */
  ghost predicate FlipsWith(p: Row, r: Row, before: Phase, ph: Phase) {
    && (p.trend == 0 && r.trend == 1 <==> !before.Down? && ph.Down?)
    && (p.trend == 1 && r.trend == 0 <==> before.Down? && !ph.Down?)
  }

  lemma FlipsOf(p: Row, r: Row, before: Phase, ph: Phase)
    requires TrendsOf(p, before) && TrendsOf(r, ph)
    ensures FlipsWith(p, r, before, ph)
  {
  }

  lemma {:induction false} FlipsByPhase(bars: seq<Bar>, prm: Params, i: nat)
    requires 1 <= i < |bars| && Usable(prm)
    ensures FlipsWith(RowAt(bars, prm, i - 1), RowAt(bars, prm, i),
                      PhaseAt(bars, prm.amplitude, i - 1), PhaseAt(bars, prm.amplitude, i))
  {
    TrendsByPhase(bars, prm, i - 1);
    TrendsByPhase(bars, prm, i);
    FlipsOf(RowAt(bars, prm, i - 1), RowAt(bars, prm, i), PhaseAt(bars, prm.amplitude, i - 1), PhaseAt(bars, prm.amplitude, i));
  }

  lemma {:induction false} SignalPhases(bars: seq<Bar>, prm: Params, i: nat)
    requires 1 <= i < |bars| && Usable(prm)
    ensures var before, ph := PhaseAt(bars, prm.amplitude, i - 1), PhaseAt(bars, prm.amplitude, i);
            && (SellAt(bars, prm, i) <==> i + 1 >= prm.atrPeriod && !before.Down? && ph.Down?)
            && (BuyAt(bars, prm, i) <==> i + 1 >= prm.atrPeriod && before.Down? && !ph.Down?)
  {
    SignalIsWarmFlip(bars, prm, i);
    FlipsByPhase(bars, prm, i);
  }

  // ------------------------------------------------------------- where the line runs

  /** The line after bar `i`, from the line before: flat at a turn, otherwise ratcheted by the extreme of its phase. */
  ghost predicate LineRule(bars: seq<Bar>, n: nat, i: nat, before: Phase, ph: Phase, line: real, line': real)
    requires 1 <= n && i < |bars| && Begun(ph, n, i)
  {
    match ph
    case Start => line' == line == bars[0].low
    case Up(a) => line' == if before.Down? then line else MaxR(HighestLow(bars, n, a, i), line)
    case Down(d) => line' == if before.Up? then line else MinR(LowestHigh(bars, n, d, i), line)
  }

  /** Before the first break-out the line is the first low. */
  lemma {:induction false} StartLine(bars: seq<Bar>, prm: Params, i: nat)
    requires i < |bars| && Usable(prm) && PhaseAt(bars, prm.amplitude, i).Start?
    ensures RowAt(bars, prm, i).maxLow == Some(bars[0].low)
    ensures i >= 1 ==> Ht(RowAt(bars, prm, i)) == Some(bars[0].low)
    ensures i == 0 ==> RowAt(bars, prm, i).up.None?
  {
    if i > 0 {
      PhaseTurns(bars, prm.amplitude, i);
      StartLine(bars, prm, i - 1);
      TrendsByPhase(bars, prm, i - 1);
      TrendsByPhase(bars, prm, i);
      QuietRow(RowAt(bars, prm, i - 1), bars[i - 1], bars[i], RollingAt(bars, i, prm.amplitude),
               Atr(bars, i, prm.atrPeriod), prm.deviation, bars[0].low);
    }
  }

  lemma QuietRow(p: Row, prev: Bar, b: Bar, roll: Option<Rolling>, atr: Option<real>, deviation: int, low: real)
    requires p.trend == 0 && p.next == 0 && p.maxLow == Some(low) && (p.up.None? || p.up == Some(low))
    requires NextRow(p, prev, b, roll, atr, deviation).next == 0
    ensures var r := NextRow(p, prev, b, roll, atr, deviation); r.maxLow == Some(low) && Ht(r) == Some(low)
  {
  }

  /** The line of the next row, by its own trend and extremes. */
  ghost predicate Follows(p: Row, r: Row) {
    && Ht(p).Some? && Ht(r).Some? && r.maxLow.Some? && r.minHigh.Some?
    && Ht(r).value == if r.trend != p.trend then Ht(p).value
                      else if r.trend == 0 then MaxR(r.maxLow.value, Ht(p).value)
                      else MinR(r.minHigh.value, Ht(p).value)
  }

  lemma RowFollows(bars: seq<Bar>, prm: Params, i: nat)
    requires 2 <= i < |bars| && Usable(prm)
    ensures Follows(RowAt(bars, prm, i - 1), RowAt(bars, prm, i))
  {
    RowsKeepInv(bars, prm, i - 1);
    NextLine(RowAt(bars, prm, i - 1), bars[i - 1], bars[i], RollingAt(bars, i, prm.amplitude),
             Atr(bars, i, prm.atrPeriod), prm.deviation, i - 1);
  }

  lemma {:induction false} LineFollowsPhase(bars: seq<Bar>, prm: Params, i: nat)
    requires 2 <= i < |bars| && Usable(prm)
    ensures Ht(RowAt(bars, prm, i - 1)).Some? && Ht(RowAt(bars, prm, i)).Some?
    ensures LineRule(bars, prm.amplitude, i, PhaseAt(bars, prm.amplitude, i - 1), PhaseAt(bars, prm.amplitude, i),
                     Ht(RowAt(bars, prm, i - 1)).value, Ht(RowAt(bars, prm, i)).value)
  {
    RowFollows(bars, prm, i);
    PhaseTurns(bars, prm.amplitude, i);
    if PhaseAt(bars, prm.amplitude, i).Start? {
      StartLine(bars, prm, i - 1);
      StartLine(bars, prm, i);
    } else {
      TrendsByPhase(bars, prm, i - 1);
      TrendFollowsPhase(bars, prm, i);
      PhaseLine(bars, prm.amplitude, i, RowAt(bars, prm, i - 1), RowAt(bars, prm, i),
                PhaseAt(bars, prm.amplitude, i - 1), PhaseAt(bars, prm.amplitude, i));
    }
  }

  lemma PhaseTurns(bars: seq<Bar>, n: nat, i: nat)
    requires 1 <= i < |bars| && n >= 1
    ensures var before, ph := PhaseAt(bars, n, i - 1), PhaseAt(bars, n, i);
            (ph.Start? ==> before.Start?) && (ph.Down? && before != ph ==> before.Up?)
  {
  }

  lemma PhaseLine(bars: seq<Bar>, n: nat, i: nat, p: Row, r: Row, before: Phase, ph: Phase)
    requires 1 <= n && 1 <= i < |bars| && !ph.Start? && Begun(ph, n, i) && Carries(bars, n, i, r, ph)
    requires TrendsOf(p, before) && Follows(p, r)
    requires ph.Down? && before != ph ==> before.Up?
    ensures LineRule(bars, n, i, before, ph, Ht(p).value, Ht(r).value)
  {
  }

  lemma NextLine(p: Row, prev: Bar, b: Bar, roll: Option<Rolling>, atr: Option<real>, deviation: int, i: nat)
    requires RowInv(p, i) && i >= 1
    ensures Follows(p, NextRow(p, prev, b, roll, atr, deviation))
  {
    NextRowKeepsInv(p, prev, b, roll, atr, deviation, i);
  }

  /** The channel lies half a deviation of the ATR to either side of the line, and an arrow half an ATR off it. */
  ghost predicate Centred(r: Row, line: real, atr: Option<real>, deviation: int) {
    && (atr.None? ==> r.atrHigh.None? && r.atrLow.None?)
    && (atr.Some? ==>
          var d := deviation as real * (atr.value / 2.0);
          && r.atrHigh == Some(line + d) && r.atrLow == Some(line - d)
          && (r.arrowUp.Some? ==> r.arrowUp == Some(line - atr.value / 2.0))
          && (r.arrowDown.Some? ==> r.arrowDown == Some(line + atr.value / 2.0)))
  }

  lemma ChannelIsCentred(bars: seq<Bar>, prm: Params, i: nat)
    requires 1 <= i < |bars| && Usable(prm)
    ensures Ht(RowAt(bars, prm, i)).Some?
    ensures Centred(RowAt(bars, prm, i), Ht(RowAt(bars, prm, i)).value, Atr(bars, i, prm.atrPeriod), prm.deviation)
  {
    RowsKeepInv(bars, prm, i);
    NextChannel(RowAt(bars, prm, i - 1), bars[i - 1], bars[i], RollingAt(bars, i, prm.amplitude),
                Atr(bars, i, prm.atrPeriod), prm.deviation);
  }

  lemma NextChannel(p: Row, prev: Bar, b: Bar, roll: Option<Rolling>, atr: Option<real>, deviation: int)
    requires Ht(NextRow(p, prev, b, roll, atr, deviation)).Some?
    ensures var r := NextRow(p, prev, b, roll, atr, deviation); Centred(r, Ht(r).value, atr, deviation)
  {
    var r := NextRow(p, prev, b, roll, atr, deviation);
    var line := Ht(r).value;
    if atr.Some? {
      var a2 := atr.value / 2.0;
      var d := deviation as real * a2;
      assert r.atrHigh == Plus(Some(line), Some(d)) && r.atrLow == Minus(Some(line), Some(d));
      assert r.atrHigh == Some(line + d);
      assert d == deviation as real * (atr.value / 2.0);
    }
  }

  /** The true range is the width of the smallest band that holds the bar and the previous close. */
  lemma TrueRangeIsSpan(bars: seq<Bar>, i: nat)
    requires i < |bars| && bars[i].low <= bars[i].high
    ensures var b := bars[i];
            var top := if i == 0 then b.high else MaxR(b.high, bars[i - 1].close);
            var bottom := if i == 0 then b.low else MinR(b.low, bars[i - 1].close);
            TrueRange(bars, i) == top - bottom
  {
  }

  // -------------------------------------------------------------------- the program

  /** One running accumulator of the weighted mean. */
  method DiscountedColumn(xs: seq<real>, d: real) returns (col: seq<real>)
    ensures |col| == |xs|
    ensures forall i :: 0 <= i < |xs| ==> col[i] == Discounted(xs, i, d)
  {
    col := [];
    for i := 0 to |xs|
      invariant |col| == i
      invariant forall j :: 0 <= j < i ==> col[j] == Discounted(xs, j, d)
    {
      if i == 0 { col := [xs[0]]; } else { col := col + [d * col[i - 1] + xs[i]]; }
    }
  }

  /** The ATR column, by the running numerator and denominator. */
  method AtrColumn(bars: seq<Bar>, period: nat) returns (atr: seq<Option<real>>)
    requires period >= 1
    ensures |atr| == |bars|
    ensures forall i :: 0 <= i < |bars| ==> atr[i] == Atr(bars, i, period)
  {
    var num := DiscountedColumn(TrueRanges(bars), Decay(period));
    var den := DiscountedColumn(Ones(|bars|), Decay(period));
    atr := [];
    for i := 0 to |bars|
      invariant |atr| == i
      invariant forall j :: 0 <= j < i ==> atr[j] == Atr(bars, j, period)
    {
      DiscountedOnes(|bars|, i, Decay(period));
      atr := atr + [if i + 1 < period then None else Some(num[i] / den[i])];
    }
  }

  method RollingColumn(bars: seq<Bar>, n: nat) returns (col: seq<Option<Rolling>>)
    requires n >= 1
    ensures |col| == |bars|
    ensures forall i :: 0 <= i < |bars| ==> col[i] == RollingAt(bars, i, n)
  {
    col := [];
    for i := 0 to |bars|
      invariant |col| == i
      invariant forall j :: 0 <= j < i ==> col[j] == RollingAt(bars, j, n)
    {
      col := col + [RollingAt(bars, i, n)];
    }
  }

  ghost function AllRows(bars: seq<Bar>, prm: Params): seq<Row>
    requires Usable(prm)
  {
    seq(|bars|, i requires 0 <= i < |bars| => RowAt(bars, prm, i))
  }

  /** The row that the loop appends, from the previous one and the columns. */
  method RowOf(bars: seq<Bar>, prm: Params, i: nat, rows: seq<Row>, roll: Option<Rolling>, atr: Option<real>) returns (row: Row)
    requires Usable(prm) && i < |bars| && rows == AllRows(bars, prm)[..i]
    requires roll == RollingAt(bars, i, prm.amplitude) && atr == Atr(bars, i, prm.atrPeriod)
    ensures row == AllRows(bars, prm)[i]
  {
    if i == 0 { return FirstRow(bars[0]); }
    row := NextRow(rows[i - 1], bars[i - 1], bars[i], roll, atr, prm.deviation);
  }

  /** The state loop: each row from the previous one and the columns. */
  method Rows(bars: seq<Bar>, prm: Params) returns (rows: seq<Row>)
    requires Usable(prm)
    ensures rows == AllRows(bars, prm)
  {
    var atr := AtrColumn(bars, prm.atrPeriod);
    var rolling := RollingColumn(bars, prm.amplitude);
    rows := [];
    for i := 0 to |bars|
      invariant rows == AllRows(bars, prm)[..i]
    {
      var row := RowOf(bars, prm, i, rows, rolling[i], atr[i]);
      rows := rows + [row];
    }
  }

  /** Columns over the whole frame, then the state loop, then the signals. */
  method HalfTrend(bars: seq<Bar>, prm: Params) returns (rows: seq<Row>, buy: seq<bool>, sell: seq<bool>)
    requires Usable(prm)
    ensures |rows| == |buy| == |sell| == |bars|
    ensures forall i :: 0 <= i < |bars| ==> rows[i] == RowAt(bars, prm, i)
    ensures forall i :: 0 <= i < |bars| ==> buy[i] == BuyAt(bars, prm, i) && sell[i] == SellAt(bars, prm, i)
  {
    rows := Rows(bars, prm);
    buy, sell := [], [];
    for i := 0 to |bars|
      invariant |buy| == |sell| == i
      invariant forall j :: 0 <= j < i ==> buy[j] == BuyAt(bars, prm, j) && sell[j] == SellAt(bars, prm, j)
    {
      var isBuy, isSell := false, false;
      if i >= 1 {
        isBuy := rows[i].arrowUp.Some? && rows[i].trend == 0 && rows[i - 1].trend == 1;
        isSell := rows[i].arrowDown.Some? && rows[i].trend == 1 && rows[i - 1].trend == 0;
      }
      assert isBuy == BuyAt(bars, prm, i) && isSell == SellAt(bars, prm, i);
      buy, sell := buy + [isBuy], sell + [isSell];
    }
  }
}
