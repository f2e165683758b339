/** Ticks folded into candles, checked against grouping the on-time ticks by bucket. */
module CandleEngine {
  import opened Common

  /** Timestamps are microseconds since the epoch. */
  datatype Tick = Tick(price: real, quantity: int, ts: nat)
  datatype Bar = Bar(ts: nat, open: real, high: real, low: real, close: real, volume: int)
  datatype Candle = Candle(bucket: int, open: real, high: real, low: real, close: real, volume: int)

  function Epoch(us: nat): nat { us / 1_000_000 }

  function Bucket(us: nat, seconds: int): int
    requires seconds > 0
  {
    Epoch(us) - Epoch(us) % seconds
  }

  /** A tick lies inside its bucket, and buckets start at the multiples of the timeframe. */
  lemma BucketHoldsTick(us: nat, seconds: int)
    requires seconds > 0
    ensures var b := Bucket(us, seconds);
            b % seconds == 0 && b * 1_000_000 <= us < (b + seconds) * 1_000_000
  {
    var e := us / 1_000_000;
    assert e - e % seconds == e / seconds * seconds;
    UniqueMod(Bucket(us, seconds), e / seconds, 0, seconds);
  }

  // ---------------------------------------------------------------- one symbol

  /** The candle being built and every candle closed so far. */
  datatype Series = Series(open: Option<Candle>, closed: seq<Candle>)

  predicate Late(s: Series, t: Tick, seconds: int)
    requires seconds > 0
  {
    s.open.Some? && Bucket(t.ts, seconds) < s.open.value.bucket
  }

  function Extended(c: Candle, t: Tick): Candle {
    c.(high := MaxR(c.high, t.price), low := MinR(c.low, t.price), close := t.price, volume := c.volume + t.quantity)
  }

  function Flushed(s: Series): Series {
    if s.open.None? then s else Series(None, s.closed + [s.open.value])
  }

  function Ingested(s: Series, t: Tick, seconds: int): Series
    requires seconds > 0
  {
    var b := Bucket(t.ts, seconds);
    if Late(s, t, seconds) then s
    else if s.open.Some? && s.open.value.bucket == b then s.(open := Some(Extended(s.open.value, t)))
    else Series(Some(Extended(Candle(b, t.price, t.price, t.price, t.price, 0), t)), Flushed(s).closed)
  }

  /** A bar replaces whatever its bucket holds; there is no late guard on bars. */
  function BarIngested(s: Series, bar: Bar, seconds: int): Series
    requires seconds > 0
  {
    var b := Bucket(bar.ts, seconds);
    Series(Some(Candle(b, bar.open, bar.high, bar.low, bar.close, bar.volume)),
           if s.open.Some? && s.open.value.bucket != b then Flushed(s).closed else s.closed)
  }

  function Fed(s: Series, ticks: seq<Tick>, seconds: int): Series
    requires seconds > 0
  {
    if ticks == [] then s else Ingested(Fed(s, ticks[..|ticks| - 1], seconds), ticks[|ticks| - 1], seconds)
  }

  // ------------------------------------------------------- the group-by reference

  /** A tick is on time when no earlier tick lies in a later bucket. */
  function OnTime(ticks: seq<Tick>, seconds: int): seq<Tick>
    requires seconds > 0
  {
    if ticks == [] then []
    else
      var rest, t := OnTime(ticks[..|ticks| - 1], seconds), ticks[|ticks| - 1];
      if forall k :: 0 <= k < |ticks| - 1 ==> Bucket(ticks[k].ts, seconds) <= Bucket(t.ts, seconds) then rest + [t] else rest
  }

  function Group(ticks: seq<Tick>, b: int, seconds: int): seq<Tick>
    requires seconds > 0
  {
    if ticks == [] then []
    else
      var rest, t := Group(ticks[..|ticks| - 1], b, seconds), ticks[|ticks| - 1];
      if Bucket(t.ts, seconds) == b then rest + [t] else rest
  }

  function Volume(g: seq<Tick>): int {
    if g == [] then 0 else Volume(g[..|g| - 1]) + g[|g| - 1].quantity
  }

  /** First, maximum, minimum, last and sum of a non-empty group. */
  ghost predicate Summarises(c: Candle, g: seq<Tick>) {
    && g != []
    && c.open == g[0].price && c.close == g[|g| - 1].price && c.volume == Volume(g)
    && (forall i :: 0 <= i < |g| ==> c.low <= g[i].price <= c.high)
    && (exists i :: 0 <= i < |g| && g[i].price == c.high)
    && (exists i :: 0 <= i < |g| && g[i].price == c.low)
  }

  /** A group has one summary per bucket label. */
  lemma SummaryIsUnique(c: Candle, d: Candle, g: seq<Tick>)
    requires c.bucket == d.bucket && Summarises(c, g) && Summarises(d, g)
    ensures c == d
  {
    var i :| 0 <= i < |g| && g[i].price == c.high;
    var j :| 0 <= j < |g| && g[j].price == c.low;
    assert d.low <= g[i].price <= d.high && d.low <= g[j].price <= d.high;
    var k :| 0 <= k < |g| && g[k].price == d.high;
    var l :| 0 <= l < |g| && g[l].price == d.low;
    assert c.low <= g[k].price <= c.high && c.low <= g[l].price <= c.high;
  }

  lemma ExtendSummary(c: Candle, g: seq<Tick>, t: Tick)
    requires Summarises(c, g)
    ensures Summarises(Extended(c, t), g + [t])
  {
    var g' := g + [t];
    assert g'[..|g|] == g && g'[|g|] == t;
    var i :| 0 <= i < |g| && g[i].price == c.high;
    var j :| 0 <= j < |g| && g[j].price == c.low;
    assert g'[i] == g[i] && g'[j] == g[j];
    assert g'[if t.price > c.high then |g| else i].price == MaxR(c.high, t.price);
    assert g'[if t.price < c.low then |g| else j].price == MinR(c.low, t.price);
  }

  lemma FreshSummary(b: int, t: Tick)
    ensures Summarises(Extended(Candle(b, t.price, t.price, t.price, t.price, 0), t), [t])
  {
    assert [t][..0] == [] && [t][0] == t;
  }

  function Candles(s: Series): seq<Candle> {
    if s.open.None? then s.closed else s.closed + [s.open.value]
  }

  ghost predicate BucketsIncrease(cs: seq<Candle>) {
    forall i, j :: 0 <= i < j < |cs| ==> cs[i].bucket < cs[j].bucket
  }

  ghost predicate Covers(cs: seq<Candle>, b: int) {
    exists i :: 0 <= i < |cs| && cs[i].bucket == b
  }

  ghost predicate GroupedBy(cs: seq<Candle>, acc: seq<Tick>, seconds: int)
    requires seconds > 0
  {
    BucketsIncrease(cs) && AllSummarise(cs, acc, seconds) && AllCovered(cs, acc, seconds)
  }

  /** Each candle is the summary of the ticks of its bucket. */
  ghost predicate AllSummarise(cs: seq<Candle>, acc: seq<Tick>, seconds: int)
    requires seconds > 0
  {
    forall i :: 0 <= i < |cs| ==> Summarises(cs[i], Group(acc, cs[i].bucket, seconds))
  }

  /** Each tick's bucket has its candle. */
  ghost predicate AllCovered(cs: seq<Candle>, acc: seq<Tick>, seconds: int)
    requires seconds > 0
  {
    forall k :: 0 <= k < |acc| ==> Covers(cs, Bucket(acc[k].ts, seconds))
  }

  lemma GroupAppend(acc: seq<Tick>, t: Tick, b: int, seconds: int)
    requires seconds > 0
    ensures Group(acc + [t], b, seconds) ==
            if Bucket(t.ts, seconds) == b then Group(acc, b, seconds) + [t] else Group(acc, b, seconds)
  {
    assert (acc + [t])[..|acc|] == acc;
  }

  lemma {:induction false} GroupEmpty(acc: seq<Tick>, b: int, seconds: int)
    requires seconds > 0 && forall k :: 0 <= k < |acc| ==> Bucket(acc[k].ts, seconds) != b
    ensures Group(acc, b, seconds) == []
  {
    if acc != [] { GroupEmpty(acc[..|acc| - 1], b, seconds); }
  }

  /** An accepted tick in the newest bucket extends its candle. */
  lemma SameBucketGroups(cs: seq<Candle>, acc: seq<Tick>, t: Tick, seconds: int)
    requires seconds > 0 && cs != [] && GroupedBy(cs, acc, seconds)
    requires cs[|cs| - 1].bucket == Bucket(t.ts, seconds)
    ensures GroupedBy(cs[..|cs| - 1] + [Extended(cs[|cs| - 1], t)], acc + [t], seconds)
  {
    var n := |cs| - 1;
    var cs', acc' := cs[..n] + [Extended(cs[n], t)], acc + [t];
    assert forall i :: 0 <= i < |cs| ==> cs'[i].bucket == cs[i].bucket;
    forall i | 0 <= i < |cs'| ensures Summarises(cs'[i], Group(acc', cs'[i].bucket, seconds)) {
      GroupAppend(acc, t, cs[i].bucket, seconds);
      assert Summarises(cs[i], Group(acc, cs[i].bucket, seconds));
      if i == n { ExtendSummary(cs[n], Group(acc, cs[n].bucket, seconds), t); }
    }
    forall k | 0 <= k < |acc'| ensures Covers(cs', Bucket(acc'[k].ts, seconds)) {
      if k < |acc| {
        assert Covers(cs, Bucket(acc[k].ts, seconds));
        var i :| 0 <= i < |cs| && cs[i].bucket == Bucket(acc[k].ts, seconds);
        assert cs'[i].bucket == Bucket(acc'[k].ts, seconds);
      } else {
        assert cs'[n].bucket == Bucket(acc'[k].ts, seconds);
      }
    }
  }

  /** The summaries of the older candles do not notice a tick of another bucket. */
  lemma OldSummaries(cs: seq<Candle>, acc: seq<Tick>, t: Tick, seconds: int, i: nat)
    requires seconds > 0 && GroupedBy(cs, acc, seconds) && i < |cs| && cs[i].bucket != Bucket(t.ts, seconds)
    ensures Summarises(cs[i], Group(acc + [t], cs[i].bucket, seconds))
  {
    GroupAppend(acc, t, cs[i].bucket, seconds);
  }

  lemma NewSummary(acc: seq<Tick>, t: Tick, seconds: int)
    requires seconds > 0 && Group(acc, Bucket(t.ts, seconds), seconds) == []
    ensures var b := Bucket(t.ts, seconds);
            Summarises(Extended(Candle(b, t.price, t.price, t.price, t.price, 0), t), Group(acc + [t], b, seconds))
  {
    GroupAppend(acc, t, Bucket(t.ts, seconds), seconds);
    FreshSummary(Bucket(t.ts, seconds), t);
    assert [] + [t] == [t];
  }

  lemma StillCovered(cs: seq<Candle>, acc: seq<Tick>, t: Tick, c: Candle, seconds: int)
    requires seconds > 0 && GroupedBy(cs, acc, seconds) && c.bucket == Bucket(t.ts, seconds)
    ensures AllCovered(cs + [c], acc + [t], seconds)
  {
    forall k | 0 <= k < |acc + [t]| ensures Covers(cs + [c], Bucket((acc + [t])[k].ts, seconds)) {
      if k < |acc| {
        CoversMore(cs, c, Bucket(acc[k].ts, seconds));
      } else {
        assert (cs + [c])[|cs|].bucket == c.bucket;
      }
    }
  }

  /** An accepted tick in a later bucket starts a candle of its own. */
  lemma NewBucketGroups(cs: seq<Candle>, acc: seq<Tick>, t: Tick, seconds: int)
    requires seconds > 0 && GroupedBy(cs, acc, seconds)
    requires cs != [] ==> cs[|cs| - 1].bucket < Bucket(t.ts, seconds)
    ensures var b := Bucket(t.ts, seconds);
            GroupedBy(cs + [Extended(Candle(b, t.price, t.price, t.price, t.price, 0), t)], acc + [t], seconds)
  {
    var b := Bucket(t.ts, seconds);
    var c := Extended(Candle(b, t.price, t.price, t.price, t.price, 0), t);
    NoTickBeyond(cs, acc, b, seconds);
    NewSummary(acc, t, seconds);
    StillCovered(cs, acc, t, c, seconds);
    StillIncreasing(cs, c);
    StillSummarised(cs, acc, t, c, seconds);
  }

  lemma StillIncreasing(cs: seq<Candle>, c: Candle)
    requires BucketsIncrease(cs) && (cs != [] ==> cs[|cs| - 1].bucket < c.bucket)
    ensures BucketsIncrease(cs + [c])
  {
    forall i | 0 <= i < |cs| ensures cs[i].bucket < c.bucket { assert cs[i].bucket <= cs[|cs| - 1].bucket; }
  }

  lemma StillSummarised(cs: seq<Candle>, acc: seq<Tick>, t: Tick, c: Candle, seconds: int)
    requires seconds > 0 && GroupedBy(cs, acc, seconds) && BucketsIncrease(cs + [c])
    requires c.bucket == Bucket(t.ts, seconds) && Summarises(c, Group(acc + [t], c.bucket, seconds))
    ensures AllSummarise(cs + [c], acc + [t], seconds)
  {
    var cs' := cs + [c];
    forall i | 0 <= i < |cs'| ensures Summarises(cs'[i], Group(acc + [t], cs'[i].bucket, seconds)) {
      if i < |cs| {
        assert cs'[i].bucket < cs'[|cs|].bucket;
        OldSummaries(cs, acc, t, seconds, i);
      }
    }
  }

  lemma CoversMore(cs: seq<Candle>, c: Candle, b: int)
    requires Covers(cs, b)
    ensures Covers(cs + [c], b)
  {
    var i :| 0 <= i < |cs| && cs[i].bucket == b;
    assert (cs + [c])[i].bucket == b;
  }

  lemma NoTickBeyond(cs: seq<Candle>, acc: seq<Tick>, b: int, seconds: int)
    requires seconds > 0 && GroupedBy(cs, acc, seconds)
    requires cs != [] ==> cs[|cs| - 1].bucket < b
    ensures Group(acc, b, seconds) == []
  {
    forall k | 0 <= k < |acc| ensures Bucket(acc[k].ts, seconds) != b {
      assert Covers(cs, Bucket(acc[k].ts, seconds));
      var i :| 0 <= i < |cs| && cs[i].bucket == Bucket(acc[k].ts, seconds);
      assert cs[i].bucket <= cs[|cs| - 1].bucket;
    }
    GroupEmpty(acc, b, seconds);
  }

  /** The open candle sits in the latest bucket of any tick seen. */
  ghost predicate Newest(s: Series, ticks: seq<Tick>, seconds: int)
    requires seconds > 0
  {
    && (ticks == [] <==> s.open.None?)
    && (forall k :: 0 <= k < |ticks| ==> s.open.Some? && Bucket(ticks[k].ts, seconds) <= s.open.value.bucket)
    && (s.open.Some? ==> exists k :: 0 <= k < |ticks| && Bucket(ticks[k].ts, seconds) == s.open.value.bucket)
  }

  lemma {:induction false} NewestTracked(ticks: seq<Tick>, seconds: int)
    requires seconds > 0
    ensures Newest(Fed(Series(None, []), ticks, seconds), ticks, seconds)
  {
    if ticks != [] {
      var n := |ticks| - 1;
      NewestTracked(ticks[..n], seconds);
      var s, s' := Fed(Series(None, []), ticks[..n], seconds), Fed(Series(None, []), ticks, seconds);
      if Late(s, ticks[n], seconds) {
        var k :| 0 <= k < n && Bucket(ticks[..n][k].ts, seconds) == s.open.value.bucket;
        assert Bucket(ticks[k].ts, seconds) == s'.open.value.bucket;
      } else {
        assert Bucket(ticks[n].ts, seconds) == s'.open.value.bucket;
      }
      forall k | 0 <= k < |ticks| ensures Bucket(ticks[k].ts, seconds) <= s'.open.value.bucket {
        if k < n { assert ticks[..n][k] == ticks[k]; }
      }
    }
  }

  /** The late guard drops exactly the ticks that an earlier tick of a later bucket has overtaken. */
  lemma LateIsOvertaken(ticks: seq<Tick>, seconds: int)
    requires seconds > 0 && ticks != []
    ensures var n := |ticks| - 1;
            Late(Fed(Series(None, []), ticks[..n], seconds), ticks[n], seconds) <==>
            OnTime(ticks, seconds) == OnTime(ticks[..n], seconds)
  {
    var n := |ticks| - 1;
    var s := Fed(Series(None, []), ticks[..n], seconds);
    NewestTracked(ticks[..n], seconds);
    assert forall k :: 0 <= k < n ==> ticks[..n][k] == ticks[k];
    if Late(s, ticks[n], seconds) {
      var k :| 0 <= k < n && Bucket(ticks[..n][k].ts, seconds) == s.open.value.bucket;
      assert Bucket(ticks[k].ts, seconds) > Bucket(ticks[n].ts, seconds);
    } else {
      forall k | 0 <= k < n ensures Bucket(ticks[k].ts, seconds) <= Bucket(ticks[n].ts, seconds) {
        assert Bucket(ticks[..n][k].ts, seconds) <= s.open.value.bucket;
      }
      assert |OnTime(ticks, seconds)| == |OnTime(ticks[..n], seconds)| + 1;
    }
  }

  /** Ticks dropped as late while folding. */
  function LateCount(ticks: seq<Tick>, seconds: int): nat
    requires seconds > 0
  {
    if ticks == [] then 0
    else
      var n := |ticks| - 1;
      LateCount(ticks[..n], seconds) + if Late(Fed(Series(None, []), ticks[..n], seconds), ticks[n], seconds) then 1 else 0
  }

  /**
   * The fold refines group-by: the closed candles and the open one are, in strictly increasing
   * buckets, the summaries of the on-time ticks of each bucket; every tick is either on time
   * or counted as late.
   */
  lemma {:induction false} FoldIsGroupBy(ticks: seq<Tick>, seconds: int)
    requires seconds > 0
    ensures GroupedBy(Candles(Fed(Series(None, []), ticks, seconds)), OnTime(ticks, seconds), seconds)
    ensures |OnTime(ticks, seconds)| + LateCount(ticks, seconds) == |ticks|
  {
    if ticks != [] {
      var n := |ticks| - 1;
      var s, acc, t := Fed(Series(None, []), ticks[..n], seconds), OnTime(ticks[..n], seconds), ticks[n];
      FoldIsGroupBy(ticks[..n], seconds);
      LateIsOvertaken(ticks, seconds);
      NewestTracked(ticks[..n], seconds);
      if !Late(s, t, seconds) {
        assert OnTime(ticks, seconds) == acc + [t];
        var cs := Candles(s);
        if s.open.Some? && s.open.value.bucket == Bucket(t.ts, seconds) {
          SameBucketGroups(cs, acc, t, seconds);
          assert cs[..|cs| - 1] == s.closed;
        } else {
          NewBucketGroups(cs, acc, t, seconds);
          assert Flushed(s).closed == cs;
        }
      }
    }
  }

  /** After a flush the fold starts afresh: earlier candles are only kept in front. */
  lemma {:induction false} FlushStartsAfresh(closed: seq<Candle>, ticks: seq<Tick>, seconds: int)
    requires seconds > 0
    ensures var s, s0 := Fed(Series(None, closed), ticks, seconds), Fed(Series(None, []), ticks, seconds);
            s.open == s0.open && s.closed == closed + s0.closed
  {
    if ticks != [] {
      FlushStartsAfresh(closed, ticks[..|ticks| - 1], seconds);
    }
  }

  // ------------------------------------------------------------------ bars as candles

  function CandleOf(bar: Bar, seconds: int): Candle
    requires seconds > 0
  {
    Candle(Bucket(bar.ts, seconds), bar.open, bar.high, bar.low, bar.close, bar.volume)
  }

  function BarsFed(s: Series, bars: seq<Bar>, seconds: int): Series
    requires seconds > 0
  {
    if bars == [] then s else BarIngested(BarsFed(s, bars[..|bars| - 1], seconds), bars[|bars| - 1], seconds)
  }

  /** Bar `i` is the last of a run of bars of one bucket. */
  predicate EndsRun(bars: seq<Bar>, i: nat, seconds: int)
    requires i < |bars| && seconds > 0
  {
    i == |bars| - 1 || Bucket(bars[i].ts, seconds) != Bucket(bars[i + 1].ts, seconds)
  }

  /** The candles of the bars among the first `k` that end a run. */
  function RunEnds(bars: seq<Bar>, k: nat, seconds: int): seq<Candle>
    requires k <= |bars| && seconds > 0
  {
    if k == 0 then []
    else RunEnds(bars, k - 1, seconds) + if EndsRun(bars, k - 1, seconds) then [CandleOf(bars[k - 1], seconds)] else []
  }

  lemma {:induction false} RunEndsPrefix(bars: seq<Bar>, k: nat, seconds: int)
    requires k < |bars| && seconds > 0
    ensures RunEnds(bars[..|bars| - 1], k, seconds)
            == RunEnds(bars, k, seconds) +
               if k == |bars| - 1 && k > 0 && !EndsRun(bars, k - 1, seconds) then [CandleOf(bars[k - 1], seconds)] else []
  {
    if k > 0 { RunEndsPrefix(bars, k - 1, seconds); }
  }

  /** Bars alone: of each run of bars of one bucket the last wins, and every run gives exactly one candle. */
  lemma {:induction false} LastBarOfRunWins(bars: seq<Bar>, seconds: int)
    requires seconds > 0
    ensures var s := BarsFed(Series(None, []), bars, seconds);
            && Candles(s) == RunEnds(bars, |bars|, seconds)
            && (bars != [] ==> s.open == Some(CandleOf(bars[|bars| - 1], seconds)))
  {
    if bars != [] {
      var n := |bars| - 1;
      LastBarOfRunWins(bars[..n], seconds);
      RunEndsPrefix(bars, n, seconds);
      var s := BarsFed(Series(None, []), bars[..n], seconds);
      if n > 0 && !EndsRun(bars, n - 1, seconds) {
        assert s.closed == (s.closed + [s.open.value])[..|s.closed|] == RunEnds(bars, n, seconds);
      } else {
        assert Candles(s) == Flushed(s).closed == RunEnds(bars, n, seconds);
      }
    }
  }

  // -------------------------------------------------------------------- the engine

  datatype Symbol = Symbol(name: string)

  /** One symbol's dictionaries: its series, the kept buffer, and the bucket last seeded from a bar. */
  datatype Cell = Cell(series: Series, kept: seq<Candle>, seeded: Option<int>)

  const EMPTY := Cell(Series(None, []), [], None)

  /** The kept buffer is the tail of everything closed. */
  ghost predicate Kept(c: Cell, maxCandles: nat) { c.kept == LastN(c.series.closed, maxCandles) }

  /** Append the candle and trim the buffer. */
  method Close(cell: Cell, candle: Candle, maxCandles: nat) returns (r: Cell)
    requires Kept(cell, maxCandles)
    ensures Kept(r, maxCandles)
    ensures r.series == Series(cell.series.open, cell.series.closed + [candle]) && r.seeded == cell.seeded
  {
    var buf := cell.kept + [candle];
    if |buf| > maxCandles { buf := buf[|buf| - maxCandles..]; }
    LastNAppend(cell.series.closed, maxCandles, candle);
    r := cell.(series := Series(cell.series.open, cell.series.closed + [candle]), kept := buf);
  }

  class CandleEngine {
    const seconds: int
    const maxCandles: nat
    const backtest: bool
    var cells: map<Symbol, Cell>
    var lateTicks: nat

    function CellOf(symbol: Symbol): Cell
      reads this
    {
      if symbol in cells then cells[symbol] else EMPTY
    }

    ghost predicate Valid()
      reads this
    {
      seconds > 0 && forall s: Symbol :: s in cells ==> Kept(cells[s], maxCandles)
    }

    constructor (seconds: int, maxCandles: nat, backtest: bool)
      requires seconds > 0
      ensures this.seconds == seconds && this.maxCandles == maxCandles && this.backtest == backtest
      ensures Valid() && lateTicks == 0 && cells == map[]
    {
      this.seconds, this.maxCandles, this.backtest := seconds, maxCandles, backtest;
      cells, lateTicks := map[], 0;
    }

    method Ingest(symbol: Symbol, t: Tick)
      requires Valid()
      modifies this
      ensures Valid() && symbol in cells && cells == old(cells)[symbol := cells[symbol]]
      ensures cells[symbol].series == Ingested(old(CellOf(symbol)).series, t, seconds)
      ensures cells[symbol].seeded == old(CellOf(symbol)).seeded
      ensures lateTicks == old(lateTicks) + if Late(old(CellOf(symbol)).series, t, seconds) then 1 else 0
    {
      var cell, b := CellOf(symbol), Bucket(t.ts, seconds);
      if cell.series.open.Some? && b < cell.series.open.value.bucket {
        lateTicks := lateTicks + 1;
        cells := cells[symbol := cell];
        return;
      }
      var c := Candle(b, t.price, t.price, t.price, t.price, 0);
      if cell.series.open.Some? {
        if cell.series.open.value.bucket == b {
          c := cell.series.open.value;
        } else {
          cell := Close(cell, cell.series.open.value, maxCandles);
        }
      }
      c := c.(high := MaxR(c.high, t.price), low := MinR(c.low, t.price), close := t.price, volume := c.volume + t.quantity);
      cells := cells[symbol := cell.(series := cell.series.(open := Some(c)))];
    }

    /** In backtest mode the close tick paired with a bar is skipped. */
    method OnTick(symbol: Symbol, t: Tick)
      requires Valid()
      modifies this
      ensures Valid() && symbol in cells && cells == old(cells)[symbol := cells[symbol]]
      ensures var cell := old(CellOf(symbol));
              if backtest && cell.seeded == Some(Bucket(t.ts, seconds))
              then cells[symbol] == cell && lateTicks == old(lateTicks)
              else
                && cells[symbol].series == Ingested(cell.series, t, seconds) && cells[symbol].seeded == cell.seeded
                && lateTicks == old(lateTicks) + if Late(cell.series, t, seconds) then 1 else 0
    {
      var cell := CellOf(symbol);
      if backtest && cell.seeded == Some(Bucket(t.ts, seconds)) {
        cells := cells[symbol := cell];
        return;
      }
      Ingest(symbol, t);
    }

    /** Quotes are bars in backtest mode and ignored otherwise. */
    method OnQuote(symbol: Symbol, bar: Bar)
      requires Valid()
      modifies this`cells
      ensures Valid() && symbol in cells && cells == old(cells)[symbol := cells[symbol]]
      ensures !backtest ==> cells[symbol] == old(CellOf(symbol))
      ensures backtest ==> cells[symbol].series == BarIngested(old(CellOf(symbol)).series, bar, seconds)
      ensures backtest ==> cells[symbol].seeded == Some(Bucket(bar.ts, seconds))
    {
      var cell, b := CellOf(symbol), Bucket(bar.ts, seconds);
      if backtest {
        if cell.series.open.Some? && cell.series.open.value.bucket != b {
          cell := Close(cell, cell.series.open.value, maxCandles);
        }
        var c := Candle(b, bar.open, bar.high, bar.low, bar.close, bar.volume);
        cell := cell.(series := cell.series.(open := Some(c)), seeded := Some(b));
      }
      cells := cells[symbol := cell];
    }

    method Flush(symbol: Symbol)
      requires Valid()
      modifies this`cells
      ensures Valid() && symbol in cells && cells == old(cells)[symbol := cells[symbol]]
      ensures cells[symbol].series == Flushed(old(CellOf(symbol)).series)
      ensures cells[symbol].seeded == old(CellOf(symbol)).seeded
    {
      var cell := CellOf(symbol);
      if cell.series.open.Some? {
        var c := cell.series.open.value;
        cell := Close(cell.(series := cell.series.(open := None)), c, maxCandles);
      }
      cells := cells[symbol := cell];
    }

    /** Flush without a symbol: every open candle is closed. */
    method FlushAll()
      requires Valid()
      modifies this`cells
      ensures Valid() && cells.Keys == old(cells).Keys
      ensures forall s: Symbol :: s in cells ==>
                cells[s].series == Flushed(old(cells)[s].series) && cells[s].seeded == old(cells)[s].seeded
    {
      var todo := cells.Keys;
      while todo != {}
        invariant Valid() && cells.Keys == old(cells).Keys && todo <= cells.Keys
        invariant forall s: Symbol :: s in todo ==> cells[s] == old(cells)[s]
        invariant forall s: Symbol :: s in cells && s !in todo ==>
                    cells[s].series == Flushed(old(cells)[s].series) && cells[s].seeded == old(cells)[s].seeded
        decreases |todo|
      {
        var symbol :| symbol in todo;
        todo := todo - {symbol};
        Flush(symbol);
      }
    }
  }
}
