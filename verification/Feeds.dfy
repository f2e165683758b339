/**
 * The bar/tick round trip: unfolding minute bars into ticks and folding them again gives the
 * very candles that backtest mode takes from the bars directly.
 */
module Feeds {
  import opened Common
  import opened CandleEngine
  import opened TickSimulator

  function CandlesOf(bars: seq<Bar>, seconds: int): seq<Candle>
    requires seconds > 0
  {
    seq(|bars|, i requires 0 <= i < |bars| => CandleOf(bars[i], seconds))
  }

  /** A minute bar on a whole minute, with a well-formed band and no negative volume. */
  predicate MinuteBar(bar: Bar) {
    bar.ts % 60_000_000 == 0 && WellFormed(bar) && bar.low <= bar.high && bar.volume >= 0
  }

  /** Ticks within one minute share the bucket of any timeframe made of whole minutes. */
  lemma OneMinuteOneBucket(ts: nat, i: int, seconds: int)
    requires ts % 60_000_000 == 0 && 0 <= i < 60 && seconds > 0 && seconds % 60 == 0
    ensures Bucket(ts + i * 1_000_000, seconds) == Bucket(ts, seconds)
  {
    SecondsOfMinute(ts, i);
    ModOfMultiple(Epoch(ts), seconds);
    ModShift(Epoch(ts), i, seconds);
  }

  lemma SecondsOfMinute(ts: nat, i: int)
    requires ts % 60_000_000 == 0 && 0 <= i < 60
    ensures Epoch(ts) % 60 == 0 && Epoch(ts + i * 1_000_000) == Epoch(ts) + i
  {
    var m := ts / 60_000_000;
    assert ts == m * 60_000_000;
  }

  lemma ModOfMultiple(e: nat, seconds: int)
    requires e % 60 == 0 && seconds > 0 && seconds % 60 == 0
    ensures e % seconds % 60 == 0
    ensures e % seconds <= seconds - 60
  {
    var q, r := e / seconds, e % seconds;
    var k := seconds / 60;
    assert e == q * seconds + r && seconds == 60 * k;
    assert q * seconds == 60 * (q * k);
    assert r % 60 == (e - 60 * (q * k)) % 60;
  }

  lemma ModShift(e: nat, i: nat, seconds: int)
    requires seconds > 0 && e % seconds + i < seconds
    ensures (e + i) % seconds == e % seconds + i
  {
    var q, r := e / seconds, e % seconds;
    assert e + i == q * seconds + (r + i);
    UniqueMod(e + i, q, r + i, seconds);
  }

  /** Folding ticks of one bucket onto nothing summarises exactly those ticks. */
  lemma {:induction false} OneBucketFold(s: Series, ticks: seq<Tick>, b: int, seconds: int)
    requires seconds > 0 && s.open.None? && ticks != []
    requires forall i :: 0 <= i < |ticks| ==> Bucket(ticks[i].ts, seconds) == b
    ensures var s' := Fed(s, ticks, seconds);
            s'.open.Some? && s'.open.value.bucket == b && s'.closed == s.closed && Summarises(s'.open.value, ticks)
  {
    var n := |ticks| - 1;
    if n == 0 {
      FreshSummary(b, ticks[0]);
      assert ticks[..0] == [] && ticks == [ticks[0]];
    } else {
      OneBucketFold(s, ticks[..n], b, seconds);
      ExtendSummary(Fed(s, ticks[..n], seconds).open.value, ticks[..n], ticks[n]);
      assert ticks[..n] + [ticks[n]] == ticks;
    }
  }

  /** The round trip of one bar, for any ticks the simulator can produce for it. */
  lemma BarRoundTrip(s: Series, bar: Bar, ticks: seq<Tick>, n: int, seconds: int)
    requires seconds > 0 && seconds % 60 == 0 && s.open.None?
    requires MinuteBar(bar) && n <= 60 && Faithful(ticks, bar, n)
    ensures Flushed(Fed(s, ticks, seconds)) == Series(None, s.closed + [CandleOf(bar, seconds)])
  {
    var b := Bucket(bar.ts, seconds);
    forall i | 0 <= i < |ticks| ensures Bucket(ticks[i].ts, seconds) == b { OneMinuteOneBucket(bar.ts, i, seconds); }
    OneBucketFold(s, ticks, b, seconds);
    SummaryIsUnique(Fed(s, ticks, seconds).open.value, CandleOf(bar, seconds), ticks);
  }

  /** The draws of the simulator for one bar. */
  datatype Draws = Draws(hi: int, lows: seq<int>, noise: seq<real>)

  ghost predicate Drawn(d: Draws, bar: Bar, n: int) {
    && 1 <= d.hi < n - 1 && |d.noise| == n
    && (forall i :: 0 <= i < n ==> Abs(d.noise[i]) <= (bar.high - bar.low) * 0.02)
    && (forall k :: 0 <= k < |d.lows| ==> 1 <= d.lows[k] < n - 1)
    && (exists k :: 0 <= k < |d.lows| && Apart(d.hi, d.lows[k], MinGap(n)))
  }

  /** The synthetic feed over a frame: quote, ticks, flush, bar by bar, into a live-mode engine. */
  method PlaySynthetic(engine: CandleEngine, symbol: Symbol, bars: seq<Bar>, n: int, draws: seq<Draws>)
    requires engine.Valid() && !engine.backtest && engine.seconds % 60 == 0
    requires engine.CellOf(symbol).series.open.None?
    requires 4 <= n <= 60 && |draws| == |bars|
    requires forall i :: 0 <= i < |bars| ==> MinuteBar(bars[i]) && Drawn(draws[i], bars[i], n)
    modifies engine
    ensures engine.Valid()
    ensures engine.CellOf(symbol).series
            == Series(None, old(engine.CellOf(symbol)).series.closed + CandlesOf(bars, engine.seconds))
  {
    ghost var start := engine.CellOf(symbol).series.closed;
    for i := 0 to |bars|
      invariant engine.Valid()
      invariant engine.CellOf(symbol).series == Series(None, start + CandlesOf(bars[..i], engine.seconds))
    {
      PlayBar(engine, symbol, bars[i], n, draws[i]);
      CandlesAppend(bars, i, engine.seconds);
    }
    assert bars[..|bars|] == bars;
  }

  method PlayBar(engine: CandleEngine, symbol: Symbol, bar: Bar, n: int, d: Draws)
    requires engine.Valid() && !engine.backtest && engine.seconds % 60 == 0
    requires engine.CellOf(symbol).series.open.None?
    requires 4 <= n <= 60 && MinuteBar(bar) && Drawn(d, bar, n)
    modifies engine
    ensures engine.Valid()
    ensures engine.CellOf(symbol).series
            == Series(None, old(engine.CellOf(symbol)).series.closed + [CandleOf(bar, engine.seconds)])
  {
    ghost var s := engine.CellOf(symbol).series;
    engine.OnQuote(symbol, bar);
    var ticks, lo := Synthesize(bar, n, d.hi, d.lows, d.noise);
    PlayTicks(engine, symbol, ticks.value);
    engine.Flush(symbol);
    BarRoundTrip(s, bar, ticks.value, n, engine.seconds);
  }

  lemma CandlesAppend(bars: seq<Bar>, i: nat, seconds: int)
    requires i < |bars| && seconds > 0
    ensures CandlesOf(bars[..i + 1], seconds) == CandlesOf(bars[..i], seconds) + [CandleOf(bars[i], seconds)]
  {
  }

  method PlayTicks(engine: CandleEngine, symbol: Symbol, ticks: seq<Tick>)
    requires engine.Valid() && !engine.backtest
    modifies engine
    ensures engine.Valid()
    ensures engine.CellOf(symbol).series == Fed(old(engine.CellOf(symbol)).series, ticks, engine.seconds)
    ensures old(engine.CellOf(symbol)).series.open.None? ==>
              engine.lateTicks == old(engine.lateTicks) + LateCount(ticks, engine.seconds)
  {
    ghost var s := engine.CellOf(symbol).series;
    for i := 0 to |ticks|
      invariant engine.Valid()
      invariant engine.CellOf(symbol).series == Fed(s, ticks[..i], engine.seconds)
      invariant s.open.None? ==> engine.lateTicks == old(engine.lateTicks) + LateCount(ticks[..i], engine.seconds)
    {
      if s.open.None? { FlushStartsAfresh(s.closed, ticks[..i], engine.seconds); }
      engine.OnTick(symbol, ticks[i]);
      assert ticks[..i + 1][..i] == ticks[..i];
    }
    assert ticks[..|ticks|] == ticks;
  }

  /** The backtest over the same frame: bar quote, paired close tick, flush. */
  method PlayBacktest(engine: CandleEngine, symbol: Symbol, bars: seq<Bar>)
    requires engine.Valid() && engine.backtest
    requires engine.CellOf(symbol).series.open.None?
    modifies engine
    ensures engine.Valid()
    ensures engine.CellOf(symbol).series
            == Series(None, old(engine.CellOf(symbol)).series.closed + CandlesOf(bars, engine.seconds))
  {
    ghost var start := engine.CellOf(symbol).series.closed;
    for i := 0 to |bars|
      invariant engine.Valid()
      invariant engine.CellOf(symbol).series == Series(None, start + CandlesOf(bars[..i], engine.seconds))
    {
      PlayBacktestBar(engine, symbol, bars[i]);
      CandlesAppend(bars, i, engine.seconds);
    }
    assert bars[..|bars|] == bars;
  }

  method PlayBacktestBar(engine: CandleEngine, symbol: Symbol, bar: Bar)
    requires engine.Valid() && engine.backtest
    requires engine.CellOf(symbol).series.open.None?
    modifies engine
    ensures engine.Valid()
    ensures engine.CellOf(symbol).series
            == Series(None, old(engine.CellOf(symbol)).series.closed + [CandleOf(bar, engine.seconds)])
  {
    engine.OnQuote(symbol, bar);
    engine.OnTick(symbol, Tick(bar.close, bar.volume, bar.ts));
    engine.Flush(symbol);
  }

  /**
   * Zero parity of the two modes: over the same frame of minute bars, whatever the draws, the
   * synthetic feed and the backtest close the same candles.
   */
  method RoundTrip(bars: seq<Bar>, n: int, draws: seq<Draws>, seconds: int, symbol: Symbol)
    returns (live: seq<Candle>, backtest: seq<Candle>)
    requires seconds > 0 && seconds % 60 == 0 && 4 <= n <= 60 && |draws| == |bars|
    requires forall i :: 0 <= i < |bars| ==> MinuteBar(bars[i]) && Drawn(draws[i], bars[i], n)
    ensures live == backtest == CandlesOf(bars, seconds)
  {
    var a := new CandleEngine(seconds, |bars|, false);
    var b := new CandleEngine(seconds, |bars|, true);
    PlaySynthetic(a, symbol, bars, n, draws);
    PlayBacktest(b, symbol, bars);
    live, backtest := a.CellOf(symbol).kept, b.CellOf(symbol).kept;
    assert Kept(a.CellOf(symbol), |bars|) && Kept(b.CellOf(symbol), |bars|);
  }
}
