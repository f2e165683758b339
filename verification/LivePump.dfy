/** The API's live candle pump: its session-anchored buckets against the kernel's epoch-anchored ones. */
module LivePump {
  import opened Common
  import opened CandleEngine

  const IST_OFFSET := 19800
  const DAY := 86400

  datatype Exchange = MCX | NSE

  /** Opening and closing time, in seconds after midnight IST. */
  function SessionOpen(x: Exchange): int { if x == MCX then 9 * 3600 else 9 * 3600 + 15 * 60 }

  function SessionClose(x: Exchange): int { if x == MCX then 23 * 3600 + 30 * 60 else 15 * 3600 + 30 * 60 }

  /** The IST calendar day, counted from 1970-01-01 (a Thursday). */
  function IstDay(us: nat): nat { (Epoch(us) + IST_OFFSET) / DAY }

  function WeekDay(day: nat): nat { (day + 3) % 7 }

  /** Microseconds after midnight IST. */
  function TimeOfDay(us: nat): nat { (us + IST_OFFSET * 1_000_000) % (DAY * 1_000_000) }

  predicate IsMarketOpen(x: Exchange, us: nat) {
    WeekDay(IstDay(us)) < 5 && SessionOpen(x) * 1_000_000 <= TimeOfDay(us) < SessionClose(x) * 1_000_000
  }

  /** The epoch second at which the tick's own session opens. */
  function SessionStart(x: Exchange, us: nat): int { IstDay(us) * DAY - IST_OFFSET + SessionOpen(x) }

  /** Whole spans since the session opened. */
  function PumpBucket(x: Exchange, us: nat, span: int): int
    requires span > 0
  {
    var start := SessionStart(x, us);
    var elapsed := Max(us - start * 1_000_000, 0) / 1_000_000;
    start + elapsed / span * span
  }

  lemma InSessionFacts(x: Exchange, us: nat)
    requires IsMarketOpen(x, us)
    ensures us >= SessionStart(x, us) * 1_000_000
    ensures (us - SessionStart(x, us) * 1_000_000) / 1_000_000 == Epoch(us) - SessionStart(x, us) >= 0
  {
    var day := IstDay(us);
    assert us + IST_OFFSET * 1_000_000 == day * (DAY * 1_000_000) + TimeOfDay(us);
  }

  /** Seconds of trading in a session: 14 and a half hours, or 6 and a quarter. */
  function SessionLength(x: Exchange): int { if x == MCX then 52200 else 22500 }

  /** The market is open exactly on weekdays, from the session's start for its length. */
  lemma SessionIsInterval(x: Exchange, us: nat)
    ensures IsMarketOpen(x, us) <==>
            && IstDay(us) % 7 != 2 && IstDay(us) % 7 != 3
            && SessionStart(x, us) * 1_000_000 <= us < (SessionStart(x, us) + SessionLength(x)) * 1_000_000
  {
    var day := IstDay(us);
    assert us + IST_OFFSET * 1_000_000 == day * (DAY * 1_000_000) + TimeOfDay(us);
  }

  lemma FloorFrom(start: int, e: int, span: int)
    requires span > 0 && e >= start && start % span == 0
    ensures start + (e - start) / span * span == e - e % span
  {
    var q := start / span;
    var k, r := (e - start) / span, (e - start) % span;
    assert start == q * span && e - start == k * span + r;
    assert e == (q + k) * span + r;
    UniqueMod(e, q + k, r, span);
  }

  lemma PumpBucketInSession(x: Exchange, us: nat, span: int)
    requires span > 0 && IsMarketOpen(x, us)
    ensures var start := SessionStart(x, us);
            Epoch(us) >= start && PumpBucket(x, us, span) == start + (Epoch(us) - start) / span * span
  {
    InSessionFacts(x, us);
  }

  lemma AlignedBucketsAgree(x: Exchange, us: nat, span: int)
    requires span > 0 && IsMarketOpen(x, us) && SessionStart(x, us) % span == 0
    ensures PumpBucket(x, us, span) == Bucket(us, span)
  {
    PumpBucketInSession(x, us, span);
    FloorFrom(SessionStart(x, us), Epoch(us), span);
  }

  /** The first instant of a trading day's session. */
  function FirstInstant(x: Exchange, day: nat): nat { (day * DAY - IST_OFFSET + SessionOpen(x)) * 1_000_000 }

  lemma FirstInstantIsInSession(x: Exchange, day: nat)
    requires WeekDay(day) < 5
    ensures var us := FirstInstant(x, day);
            IsMarketOpen(x, us) && IstDay(us) == day && Epoch(us) == SessionStart(x, us)
  {
    var us := FirstInstant(x, day);
    assert Epoch(us) == day * DAY - IST_OFFSET + SessionOpen(x);
    assert IstDay(us) == day;
    assert us + IST_OFFSET * 1_000_000 == day * (DAY * 1_000_000) + SessionOpen(x) * 1_000_000;
  }

  lemma FirstBucket(x: Exchange, us: nat, span: int)
    requires span > 0 && IsMarketOpen(x, us) && Epoch(us) == SessionStart(x, us)
    ensures PumpBucket(x, us, span) == Bucket(us, span) <==> SessionStart(x, us) % span == 0
  {
    PumpBucketInSession(x, us, span);
    AtTheStart(SessionStart(x, us), span);
  }

  lemma AtTheStart(start: int, span: int)
    requires span > 0
    ensures start + (start - start) / span * span == start
    ensures start == start - start % span <==> start % span == 0
  {
    assert (start - start) / span == 0;
  }

  /** The two buckets agree on every tick of a day's session exactly when it opens on a span boundary. */
  lemma BucketsAgreeIffAligned(x: Exchange, day: nat, span: int)
    requires span > 0 && WeekDay(day) < 5
    ensures (forall us: nat :: IsMarketOpen(x, us) && IstDay(us) == day ==> PumpBucket(x, us, span) == Bucket(us, span))
            <==> (day * DAY - IST_OFFSET + SessionOpen(x)) % span == 0
  {
    var first := FirstInstant(x, day);
    FirstInstantIsInSession(x, day);
    FirstBucket(x, first, span);
    if (day * DAY - IST_OFFSET + SessionOpen(x)) % span == 0 {
      forall us: nat | IsMarketOpen(x, us) && IstDay(us) == day ensures PumpBucket(x, us, span) == Bucket(us, span) {
        AlignedBucketsAgree(x, us, span);
      }
    }
  }

  /** On every day, both exchanges open on a 1, 5 and 15 minute boundary, and neither on an hour. */
  lemma OpensOnBoundary(x: Exchange, us: nat)
    ensures SessionStart(x, us) % 60 == 0 && SessionStart(x, us) % 300 == 0 && SessionStart(x, us) % 900 == 0
    ensures SessionStart(x, us) % 3600 != 0
  {
    var d := IstDay(us);
    assert SessionStart(x, us) == 900 * (96 * d + if x == MCX then 14 else 15);
    assert SessionStart(x, us) == 3600 * (24 * d + 3) + if x == MCX then 1800 else 2700;
  }

  /** Pump/kernel bucket parity at 1m, 5m and 15m, on every trading day of either exchange. */
  lemma BucketParity(x: Exchange, us: nat, span: int)
    requires IsMarketOpen(x, us) && (span == 60 || span == 300 || span == 900)
    ensures PumpBucket(x, us, span) == Bucket(us, span)
  {
    OpensOnBoundary(x, us);
    AlignedBucketsAgree(x, us, span);
  }

  /** At one hour the first tick of every session already lands in different buckets. */
  lemma NoHourlyParity(x: Exchange, us: nat)
    requires IsMarketOpen(x, us) && Epoch(us) == SessionStart(x, us)
    ensures PumpBucket(x, us, 3600) != Bucket(us, 3600)
  {
    OpensOnBoundary(x, us);
    FirstBucket(x, us, 3600);
  }

  // ------------------------------------------------------------------- the two folds

  /** The subscription's bar and the bars completed before it. */
  datatype Pump = Pump(bar: Option<Candle>, completed: seq<Candle>)

  /** Fold a tick of bucket `b` into the bar, unless it is late. */
  function Merged(p: Pump, b: int, t: Tick): Pump {
    if p.bar.Some? && b < p.bar.value.bucket then p
    else
      var isNew := p.bar.None? || p.bar.value.bucket != b;
      var c := if isNew then Candle(b, t.price, t.price, t.price, t.price, 0) else p.bar.value;
      Pump(Some(c.(high := MaxR(c.high, t.price), low := MinR(c.low, t.price), close := t.price,
                   volume := c.volume + Max(t.quantity, 0))),
           if isNew && p.bar.Some? then p.completed + [p.bar.value] else p.completed)
  }

  predicate Accepts(x: Exchange, t: Tick) { t.price > 0.0 && IsMarketOpen(x, t.ts) }

  function Applied(p: Pump, x: Exchange, t: Tick, span: int): Pump
    requires span > 0
  {
    if Accepts(x, t) then Merged(p, PumpBucket(x, t.ts, span), t) else p
  }

  /** The tick as the pump counts it: a negative quantity is none. */
  function Counted(t: Tick): Tick { t.(quantity := Max(t.quantity, 0)) }

  /** The ticks the pump folds: priced and in session. */
  function Accepted(x: Exchange, ticks: seq<Tick>): seq<Tick> {
    if ticks == [] then []
    else
      var rest, t := Accepted(x, ticks[..|ticks| - 1]), ticks[|ticks| - 1];
      if t.price > 0.0 && IsMarketOpen(x, t.ts) then rest + [Counted(t)] else rest
  }

  lemma MergedMatchesIngested(s: Series, t: Tick, span: int)
    requires span > 0
    ensures var p, s' := Merged(Pump(s.open, s.closed), Bucket(t.ts, span), t), Ingested(s, Counted(t), span);
            p == Pump(s'.open, s'.closed)
  {
  }

  function Pumped(p: Pump, x: Exchange, ticks: seq<Tick>, span: int): Pump
    requires span > 0
  {
    if ticks == [] then p else Applied(Pumped(p, x, ticks[..|ticks| - 1], span), x, ticks[|ticks| - 1], span)
  }

  /**
   * For any ticks whatever, the pump builds the candles, finished and unfinished, that the
   * kernel builds from those of them that are priced and in session.
   */
  lemma {:induction false} PumpMatchesKernel(x: Exchange, ticks: seq<Tick>, span: int)
    requires span == 60 || span == 300 || span == 900
    ensures var s, p := Fed(Series(None, []), Accepted(x, ticks), span), Pumped(Pump(None, []), x, ticks, span);
            p == Pump(s.open, s.closed)
  {
    if ticks != [] {
      var n := |ticks| - 1;
      PumpMatchesKernel(x, ticks[..n], span);
      var t, before := ticks[n], Accepted(x, ticks[..n]);
      if Accepts(x, t) {
        BucketParity(x, t.ts, span);
        MergedMatchesIngested(Fed(Series(None, []), before, span), t, span);
        assert (before + [Counted(t)])[..|before|] == before;
      }
    }
  }

  // ------------------------------------------------------------------- the object

  class PumpState {
    const exchange: Exchange
    const span: int
    var bar: Option<Candle>
    var barStart: Option<int>
    ghost var completed: seq<Candle>

    /** `bar_start` and the bar's own time always agree. */
    ghost predicate Valid()
      reads this
    {
      && span > 0 && bar.Some? == barStart.Some?
      && (bar.Some? ==> barStart.value == bar.value.bucket)
    }

    ghost function View(): Pump
      reads this
    {
      Pump(bar, completed)
    }

    constructor (exchange: Exchange, span: int)
      requires span > 0
      ensures this.exchange == exchange && this.span == span && Valid() && View() == Pump(None, [])
    {
      this.exchange, this.span := exchange, span;
      bar, barStart, completed := None, None, [];
    }

    /** Returns the candle message, or nothing for a rejected tick; `done` is the bar a new one completes. */
    method ApplyTick(t: Tick) returns (message: Option<Candle>, done: Option<Candle>)
      requires Valid()
      modifies this
      ensures Valid() && View() == Applied(old(View()), exchange, t, span)
      ensures message.None? <==>
                !Accepts(exchange, t)
                || (old(bar).Some? && PumpBucket(exchange, t.ts, span) < old(bar).value.bucket)
      ensures message.Some? ==> message == bar
      ensures completed == old(completed) + if done.Some? then [done.value] else []
    {
      message, done := None, None;
      if !Accepts(exchange, t) { return; }
      var start := PumpBucket(exchange, t.ts, span);
      if barStart.Some? && start < barStart.value { return; }
      if bar.None? || Some(start) != barStart {
        done := bar;
        if done.Some? { completed := completed + [done.value]; }
        bar := Some(Candle(start, t.price, t.price, t.price, t.price, 0));
        barStart := Some(start);
      }
      var c := bar.value;
      bar := Some(c.(high := MaxR(c.high, t.price), low := MinR(c.low, t.price), close := t.price,
                     volume := c.volume + Max(t.quantity, 0)));
      message := bar;
    }
  }
}
