/**
 * The lifecycle of a tracked order: how one poll visit turns the broker's cumulative
 * report into incremental fills, and what whole tenures and interleaved sessions conserve.
 */
module Orders {
  import opened Common
  import opened EventStore
  import Portfolio

  datatype Limits = Limits(staleLimit: nat, timeout: int)

  /** The broker's view of an order: status, cumulative filled quantity, average price. */
  datatype Report = Report(status: Status, filled: int, avg: real)
  datatype Outcome = Answered(r: Report) | Throttled | Broken

  datatype Record = Record(ticket: Ticket, price: real, filled: int, status: Status, stale: nat, placedAt: int)

  /** A record while tracked, or as it was when it left the tracker. */
  datatype Slot = Slot(rec: Record, live: bool)

  /** One visit: was the circuit open, did it let a probe through, what came back, and when. */
  datatype Visit = Visit(circuitOpen: bool, probe: bool, o: Outcome, now: int)

  // ------------------------------------------------------------------ one visit

  function FillPrice(rec: Record, r: Report): real { if r.avg != 0.0 then r.avg else rec.price }

  /** Newly filled quantity that is emitted: nothing without a positive price. */
  function Increment(rec: Record, r: Report): (n: int)
    ensures n >= 0
  {
    if r.filled - rec.filled > 0 && FillPrice(rec, r) > 0.0 then r.filled - rec.filled else 0
  }

  function FillEvent(id: OrderId, rec: Record, r: Report, now: int): Event {
    Filled(now, id, Portfolio.Fill(rec.ticket.symbol, rec.ticket.side, Increment(rec, r), FillPrice(rec, r), 0.0))
  }

  function TimeoutEvents(lim: Limits, id: OrderId, rec: Record, r: Report, now: int): seq<Event> {
    if r.status == Pending && now - rec.placedAt > lim.timeout then [TimedOut(now, id)] else []
  }

  function UpdateEvents(id: OrderId, rec: Record, r: Report, now: int): seq<Event> {
    if r.status != rec.status then [Updated(now, id, r.status, r.filled)] else []
  }

  function FillEvents(id: OrderId, rec: Record, r: Report, now: int): seq<Event> {
    if Increment(rec, r) > 0 then [FillEvent(id, rec, r, now)] else []
  }

  /** A cancelled or rejected order has only its unfilled rest refused. */
  function RefusalEvents(id: OrderId, rec: Record, r: Report, now: int): seq<Event> {
    var rest := rec.ticket.quantity - rec.filled - Increment(rec, r);
    if (r.status == Rejected || r.status == Cancelled) && rest > 0 then [Refused(now, id, rest)] else []
  }

  /** Timeout, then update, then fill, then refusal: the order in which poll publishes. */
  function ReportEvents(lim: Limits, id: OrderId, rec: Record, r: Report, now: int): seq<Event> {
    TimeoutEvents(lim, id, rec, r, now) + UpdateEvents(id, rec, r, now) +
    FillEvents(id, rec, r, now) + RefusalEvents(id, rec, r, now)
  }

  function AfterReport(rec: Record, r: Report): Slot {
    Slot(rec.(filled := rec.filled + Increment(rec, r), status := r.status, stale := 0), !Terminal(r.status))
  }

  function Aged(lim: Limits, rec: Record): Slot {
    Slot(rec.(stale := rec.stale + 1), rec.stale + 1 < lim.staleLimit)
  }

  /** The report a visit hears, if any: none when evicted, skipped, throttled or broken. */
  function Heard(lim: Limits, s: Slot, v: Visit): Option<Report> {
    if s.live && v.o.Answered? && (v.circuitOpen ==> v.probe && Aged(lim, s.rec).live) then Some(v.o.r) else None
  }

  function SlotAfter(lim: Limits, s: Slot, v: Visit): Slot {
    if !s.live then s
    else
      var s1 := if v.circuitOpen then Aged(lim, s.rec) else s;
      if !s1.live || (v.circuitOpen && !v.probe) then s1
      else match v.o
        case Throttled => s1
        case Broken => Aged(lim, s1.rec)
        case Answered(r) => AfterReport(s1.rec, r)
  }

  function VisitEvents(lim: Limits, id: OrderId, s: Slot, v: Visit): seq<Event> {
    var h := Heard(lim, s, v);
    if h.Some? then ReportEvents(lim, id, s.rec, h.value, v.now) else []
  }

  // --------------------------------------------------------------------- a tenure

  function SlotAt(lim: Limits, s: Slot, vs: seq<Visit>): Slot {
    if vs == [] then s else SlotAfter(lim, SlotAt(lim, s, vs[..|vs| - 1]), vs[|vs| - 1])
  }

  function TenureEvents(lim: Limits, id: OrderId, s: Slot, vs: seq<Visit>): seq<Event> {
    if vs == [] then []
    else
      var n := |vs| - 1;
      TenureEvents(lim, id, s, vs[..n]) + VisitEvents(lim, id, SlotAt(lim, s, vs[..n]), vs[n])
  }

  function FillSum(events: seq<Event>): int {
    if events == [] then 0
    else FillSum(events[..|events| - 1]) + if events[|events| - 1].Filled? then events[|events| - 1].fill.quantity else 0
  }

  function RefusedSum(events: seq<Event>): int {
    if events == [] then 0
    else RefusedSum(events[..|events| - 1]) + if events[|events| - 1].Refused? then events[|events| - 1].quantity else 0
  }

  /** The largest cumulative quantity heard so far, starting from the count the tenure began with. */
  function Peak(lim: Limits, s: Slot, vs: seq<Visit>): int {
    if vs == [] then s.rec.filled
    else
      var n := |vs| - 1;
      var h := Heard(lim, SlotAt(lim, s, vs[..n]), vs[n]);
      if h.Some? then Max(Peak(lim, s, vs[..n]), h.value.filled) else Peak(lim, s, vs[..n])
  }

  /** Every report heard carries a usable price. */
  ghost predicate AllPriced(lim: Limits, s: Slot, vs: seq<Visit>) {
    if vs == [] then true
    else
      var n := |vs| - 1;
      var h := Heard(lim, SlotAt(lim, s, vs[..n]), vs[n]);
      AllPriced(lim, s, vs[..n]) && (h.Some? ==> FillPrice(s.rec, h.value) > 0.0)
  }

  lemma {:induction false} SumsSplit(xs: seq<Event>, ys: seq<Event>)
    ensures FillSum(xs + ys) == FillSum(xs) + FillSum(ys)
    ensures RefusedSum(xs + ys) == RefusedSum(xs) + RefusedSum(ys)
  {
    if ys == [] {
      assert xs + ys == xs;
    } else {
      var n := |ys| - 1;
      assert (xs + ys)[..|xs + ys| - 1] == xs + ys[..n];
      SumsSplit(xs, ys[..n]);
    }
  }

  lemma SumsOfOne(e: Event)
    ensures FillSum([e]) == if e.Filled? then e.fill.quantity else 0
    ensures RefusedSum([e]) == if e.Refused? then e.quantity else 0
  {
    assert [e][..0] == [];
  }

  /** What a cancelled or rejected order has left to refuse. */
  function Rest(rec: Record, r: Report): int {
    if r.status == Rejected || r.status == Cancelled then Max(0, rec.ticket.quantity - rec.filled - Increment(rec, r)) else 0
  }

  lemma FillEventSums(id: OrderId, rec: Record, r: Report, now: int)
    ensures FillSum(FillEvents(id, rec, r, now)) == Increment(rec, r) && RefusedSum(FillEvents(id, rec, r, now)) == 0
  {
    SumsOfOne(FillEvent(id, rec, r, now));
  }

  lemma RefusalEventSums(id: OrderId, rec: Record, r: Report, now: int)
    ensures FillSum(RefusalEvents(id, rec, r, now)) == 0 && RefusedSum(RefusalEvents(id, rec, r, now)) == Rest(rec, r)
  {
    SumsOfOne(Refused(now, id, rec.ticket.quantity - rec.filled - Increment(rec, r)));
  }

  lemma FourSums(a: seq<Event>, b: seq<Event>, c: seq<Event>, d: seq<Event>)
    ensures FillSum(a + b + c + d) == FillSum(a) + FillSum(b) + FillSum(c) + FillSum(d)
    ensures RefusedSum(a + b + c + d) == RefusedSum(a) + RefusedSum(b) + RefusedSum(c) + RefusedSum(d)
  {
    SumsSplit(a + b + c, d);
    SumsSplit(a + b, c);
    SumsSplit(a, b);
  }

  lemma ReportSums(lim: Limits, id: OrderId, rec: Record, r: Report, now: int)
    ensures FillSum(ReportEvents(lim, id, rec, r, now)) == Increment(rec, r)
    ensures RefusedSum(ReportEvents(lim, id, rec, r, now)) == Rest(rec, r)
  {
    FourSums(TimeoutEvents(lim, id, rec, r, now), UpdateEvents(id, rec, r, now),
             FillEvents(id, rec, r, now), RefusalEvents(id, rec, r, now));
    HeraldSums(lim, id, rec, r, now);
    FillEventSums(id, rec, r, now);
    RefusalEventSums(id, rec, r, now);
  }

  /** Timeouts and updates carry no quantity of their own. */
  lemma HeraldSums(lim: Limits, id: OrderId, rec: Record, r: Report, now: int)
    ensures FillSum(TimeoutEvents(lim, id, rec, r, now)) == 0 == RefusedSum(TimeoutEvents(lim, id, rec, r, now))
    ensures FillSum(UpdateEvents(id, rec, r, now)) == 0 == RefusedSum(UpdateEvents(id, rec, r, now))
  {
    SumsOfOne(TimedOut(now, id));
    SumsOfOne(Updated(now, id, r.status, r.filled));
  }

  /** What one visit does to the count, and what it emits for it. */
  lemma VisitConserves(lim: Limits, id: OrderId, s: Slot, v: Visit)
    ensures var s', h := SlotAfter(lim, s, v), Heard(lim, s, v);
            && s'.rec.filled == s.rec.filled + (if h.Some? then Increment(s.rec, h.value) else 0)
            && FillSum(VisitEvents(lim, id, s, v)) == s'.rec.filled - s.rec.filled
            && s'.rec.ticket == s.rec.ticket && s'.rec.price == s.rec.price
  {
    var h := Heard(lim, s, v);
    if h.Some? { ReportSums(lim, id, s.rec, h.value, v.now); }
  }

  /**
   * Fill conservation over a tenure: emitted fills sum to the growth of the filled count and
   * never exceed the largest report heard; they reach it when every report is priced.
   */
  lemma {:induction false} FillConservation(lim: Limits, id: OrderId, s: Slot, vs: seq<Visit>)
    ensures FillSum(TenureEvents(lim, id, s, vs)) == SlotAt(lim, s, vs).rec.filled - s.rec.filled
    ensures s.rec.filled <= SlotAt(lim, s, vs).rec.filled <= Peak(lim, s, vs)
    ensures AllPriced(lim, s, vs) ==> SlotAt(lim, s, vs).rec.filled == Peak(lim, s, vs)
    ensures SlotAt(lim, s, vs).rec.ticket == s.rec.ticket && SlotAt(lim, s, vs).rec.price == s.rec.price
  {
    if vs != [] {
      var n := |vs| - 1;
      var before := SlotAt(lim, s, vs[..n]);
      FillConservation(lim, id, s, vs[..n]);
      VisitConserves(lim, id, before, vs[n]);
      SumsSplit(TenureEvents(lim, id, s, vs[..n]), VisitEvents(lim, id, before, vs[n]));
    }
  }

  /** Once an order has left the tracker, later visits change nothing and emit nothing. */
  lemma {:induction false} GoneStaysGone(lim: Limits, id: OrderId, s: Slot, vs: seq<Visit>)
    requires !s.live
    ensures SlotAt(lim, s, vs) == s && TenureEvents(lim, id, s, vs) == []
  {
    if vs != [] { GoneStaysGone(lim, id, s, vs[..|vs| - 1]); }
  }

  lemma {:induction false} SlotSplit(lim: Limits, s: Slot, vs: seq<Visit>, ws: seq<Visit>)
    ensures SlotAt(lim, s, vs + ws) == SlotAt(lim, SlotAt(lim, s, vs), ws)
  {
    if ws == [] {
      assert vs + ws == vs;
    } else {
      assert (vs + ws)[..|vs + ws| - 1] == vs + ws[..|ws| - 1];
      SlotSplit(lim, s, vs, ws[..|ws| - 1]);
    }
  }

  lemma Associative(xs: seq<Event>, ys: seq<Event>, zs: seq<Event>)
    ensures xs + ys + zs == xs + (ys + zs)
  {
  }

  lemma {:induction false} TenureSplit(lim: Limits, id: OrderId, s: Slot, vs: seq<Visit>, ws: seq<Visit>)
    ensures SlotAt(lim, s, vs + ws) == SlotAt(lim, SlotAt(lim, s, vs), ws)
    ensures TenureEvents(lim, id, s, vs + ws) == TenureEvents(lim, id, s, vs) + TenureEvents(lim, id, SlotAt(lim, s, vs), ws)
  {
    SlotSplit(lim, s, vs, ws);
    if ws == [] {
      assert vs + ws == vs;
    } else {
      var n := |ws| - 1;
      assert (vs + ws)[..|vs + ws| - 1] == vs + ws[..n];
      TenureSplit(lim, id, s, vs, ws[..n]);
      Associative(TenureEvents(lim, id, s, vs), TenureEvents(lim, id, SlotAt(lim, s, vs), ws[..n]),
                  VisitEvents(lim, id, SlotAt(lim, s, vs + ws[..n]), ws[n]));
    }
  }

  /** Nothing is refused while the order is live, or when it leaves by eviction or completion. */
  lemma {:induction false} NothingRefusedEarly(lim: Limits, id: OrderId, s: Slot, vs: seq<Visit>)
    requires s.live && (SlotAt(lim, s, vs).live || SlotAt(lim, s, vs).rec.status == Completed)
    requires s.rec.status != Completed
    ensures RefusedSum(TenureEvents(lim, id, s, vs)) == 0
  {
    if vs != [] {
      var n := |vs| - 1;
      var before := SlotAt(lim, s, vs[..n]);
      NothingRefusedEarly(lim, id, s, vs[..n]);
      SumsSplit(TenureEvents(lim, id, s, vs[..n]), VisitEvents(lim, id, before, vs[n]));
      var h := Heard(lim, before, vs[n]);
      if h.Some? { ReportSums(lim, id, before.rec, h.value, vs[n].now); }
    }
  }

  /**
   * A tenure that ends in a cancellation or rejection heard at its last visit: the fills and
   * the refused rest together make up the ordered quantity, unless the order was over-filled;
   * and whatever visits follow, nothing more is emitted.
   */
  lemma CancelledOrderBalances(lim: Limits, id: OrderId, s: Slot, vs: seq<Visit>, v: Visit, later: seq<Visit>)
    requires s.live && s.rec.status != Completed && SlotAt(lim, s, vs).live
    requires Heard(lim, SlotAt(lim, s, vs), v).Some?
    requires v.o.r.status == Cancelled || v.o.r.status == Rejected
    ensures var events := TenureEvents(lim, id, s, vs + [v] + later);
            && events == TenureEvents(lim, id, s, vs + [v])
            && (SlotAt(lim, s, vs + [v]).rec.filled <= s.rec.ticket.quantity ==>
                  s.rec.filled + FillSum(events) + RefusedSum(events) == s.rec.ticket.quantity)
  {
    var before := SlotAt(lim, s, vs);
    assert (vs + [v])[..|vs|] == vs;
    TenureSplit(lim, id, s, vs + [v], later);
    GoneStaysGone(lim, id, SlotAt(lim, s, vs + [v]), later);
    FillConservation(lim, id, s, vs + [v]);
    FillConservation(lim, id, s, vs);
    NothingRefusedEarly(lim, id, s, vs);
    SumsSplit(TenureEvents(lim, id, s, vs), VisitEvents(lim, id, before, v));
    ReportSums(lim, id, before.rec, v.o.r, v.now);
  }

  // ------------------------------------------------------- what the emitted events say

  /** A fill of the order: its symbol and side, the unseen part of a report heard at visit `j`, at the report's average or the order's price. */
  ghost predicate FillOf(lim: Limits, id: OrderId, s: Slot, vs: seq<Visit>, j: nat, e: Event)
    requires j < |vs|
  {
    var before, v := SlotAt(lim, s, vs[..j]), vs[j];
    && before.live && v.o.Answered?
    && e.Filled? && e.id == id && e.ts == v.now
    && e.fill.symbol == s.rec.ticket.symbol && e.fill.side == s.rec.ticket.side && e.fill.charges == 0.0
    && e.fill.quantity == v.o.r.filled - before.rec.filled > 0
    && e.fill.price == (if v.o.r.avg != 0.0 then v.o.r.avg else s.rec.price) > 0.0
  }

  ghost predicate SomeFillOf(lim: Limits, id: OrderId, s: Slot, vs: seq<Visit>, e: Event) {
    exists j :: 0 <= j < |vs| && FillOf(lim, id, s, vs, j, e)
  }

  lemma FillOfLonger(lim: Limits, id: OrderId, s: Slot, vs: seq<Visit>, e: Event)
    requires vs != [] && SomeFillOf(lim, id, s, vs[..|vs| - 1], e)
    ensures SomeFillOf(lim, id, s, vs, e)
  {
    var n := |vs| - 1;
    var j :| 0 <= j < n && FillOf(lim, id, s, vs[..n], j, e);
    assert vs[..n][..j] == vs[..j];
    assert FillOf(lim, id, s, vs, j, e);
  }

  /** The fills of one report. */
  lemma ReportFill(lim: Limits, id: OrderId, rec: Record, r: Report, now: int, e: Event)
    requires e in ReportEvents(lim, id, rec, r, now) && e.Filled?
    ensures && e.id == id && e.ts == now && e.fill.charges == 0.0
            && e.fill.symbol == rec.ticket.symbol && e.fill.side == rec.ticket.side
            && e.fill.quantity == r.filled - rec.filled > 0
            && e.fill.price == (if r.avg != 0.0 then r.avg else rec.price) > 0.0
  {
  }

  /** Every fill a tenure emits is a fill of the order: its own symbol and side, at the reported or the order's price. */
  lemma {:induction false} FillsCarryTheOrder(lim: Limits, id: OrderId, s: Slot, vs: seq<Visit>, e: Event)
    requires e in TenureEvents(lim, id, s, vs) && e.Filled?
    ensures SomeFillOf(lim, id, s, vs, e)
  {
    var n := |vs| - 1;
    var before := SlotAt(lim, s, vs[..n]);
    if e in TenureEvents(lim, id, s, vs[..n]) {
      FillsCarryTheOrder(lim, id, s, vs[..n], e);
      FillOfLonger(lim, id, s, vs, e);
    } else {
      FillConservation(lim, id, s, vs[..n]);
      ReportFill(lim, id, before.rec, vs[n].o.r, vs[n].now, e);
      assert FillOf(lim, id, s, vs, n, e);
    }
  }

  /** Fills all of one symbol and side net to plus their sum for a buy, minus it for a sell. */
  lemma {:induction false} OneSidedNet(es: seq<Event>, symbol: string, side: Portfolio.Side)
    requires forall i :: 0 <= i < |es| && es[i].Filled? ==> es[i].fill.symbol == symbol && es[i].fill.side == side
    ensures Portfolio.NetQuantity(LoggedFills(es), symbol) == if side.Buy? then FillSum(es) else -FillSum(es)
  {
    if es != [] {
      var n := |es| - 1;
      OneSidedNet(es[..n], symbol, side);
      OneMoreFill(es[..n], es[n], symbol);
      assert es == es[..n] + [es[n]];
    }
  }

  lemma OneMoreFill(es: seq<Event>, e: Event, symbol: string)
    ensures FillSum(es + [e]) == FillSum(es) + if e.Filled? then e.fill.quantity else 0
    ensures Portfolio.NetQuantity(LoggedFills(es + [e]), symbol)
            == Portfolio.NetQuantity(LoggedFills(es), symbol)
               + if e.Filled? && e.fill.symbol == symbol then Portfolio.Signed(e.fill) else 0
  {
    assert (es + [e])[..|es|] == es;
    LoggedFillsAppend(es, e);
    if e.Filled? {
      Portfolio.NetQuantityAppend(LoggedFills(es), e.fill, symbol);
    } else {
      assert LoggedFills(es + [e]) == LoggedFills(es);
    }
  }

  /** A tenure moves the position by its fills, in the direction of the order. */
  lemma TenureMovesPosition(lim: Limits, id: OrderId, s: Slot, vs: seq<Visit>)
    ensures var es := TenureEvents(lim, id, s, vs);
            var grown := SlotAt(lim, s, vs).rec.filled - s.rec.filled;
            Portfolio.NetQuantity(LoggedFills(es), s.rec.ticket.symbol)
            == if s.rec.ticket.side.Buy? then grown else -grown
  {
    var es := TenureEvents(lim, id, s, vs);
    forall i | 0 <= i < |es| && es[i].Filled? ensures es[i].fill.symbol == s.rec.ticket.symbol && es[i].fill.side == s.rec.ticket.side {
      FillsCarryTheOrder(lim, id, s, vs, es[i]);
    }
    OneSidedNet(es, s.rec.ticket.symbol, s.rec.ticket.side);
    FillConservation(lim, id, s, vs);
  }

  // ------------------------------------------------------------ timeouts and staleness

  /** The visits that hear a pending order more than the timeout after it was placed. */
  function Overdue(lim: Limits, s: Slot, vs: seq<Visit>): nat {
    if vs == [] then 0
    else
      var n := |vs| - 1;
      var h := Heard(lim, SlotAt(lim, s, vs[..n]), vs[n]);
      Overdue(lim, s, vs[..n]) + if h.Some? && h.value.status == Pending && vs[n].now > s.rec.placedAt + lim.timeout then 1 else 0
  }

  function TimeoutCount(es: seq<Event>): nat {
    if es == [] then 0 else TimeoutCount(es[..|es| - 1]) + if es[|es| - 1].TimedOut? then 1 else 0
  }

  lemma {:induction false} TimeoutsSplit(xs: seq<Event>, ys: seq<Event>)
    ensures TimeoutCount(xs + ys) == TimeoutCount(xs) + TimeoutCount(ys)
  {
    if ys == [] {
      assert xs + ys == xs;
    } else {
      assert (xs + ys)[..|xs + ys| - 1] == xs + ys[..|ys| - 1];
      TimeoutsSplit(xs, ys[..|ys| - 1]);
    }
  }

  lemma TimeoutsOfReport(lim: Limits, id: OrderId, rec: Record, r: Report, now: int)
    ensures TimeoutCount(ReportEvents(lim, id, rec, r, now)) == if r.status == Pending && now > rec.placedAt + lim.timeout then 1 else 0
  {
    var t, u := TimeoutEvents(lim, id, rec, r, now), UpdateEvents(id, rec, r, now);
    var f, x := FillEvents(id, rec, r, now), RefusalEvents(id, rec, r, now);
    TimeoutsSplit(t + u + f, x);
    TimeoutsSplit(t + u, f);
    TimeoutsSplit(t, u);
    NoTimeouts(u);
    NoTimeouts(f);
    NoTimeouts(x);
    if t != [] { assert t[..0] == []; }
  }

  lemma {:induction false} NoTimeouts(es: seq<Event>)
    requires forall i :: 0 <= i < |es| ==> !es[i].TimedOut?
    ensures TimeoutCount(es) == 0
  {
    if es != [] { NoTimeouts(es[..|es| - 1]); }
  }

  /** A timeout is announced at exactly the visits that hear the order still pending after its time; the clock runs from the placement. */
  lemma {:induction false} TimeoutsAreOverdueVisits(lim: Limits, id: OrderId, s: Slot, vs: seq<Visit>)
    ensures TimeoutCount(TenureEvents(lim, id, s, vs)) == Overdue(lim, s, vs)
    ensures SlotAt(lim, s, vs).rec.placedAt == s.rec.placedAt
  {
    if vs != [] {
      var n := |vs| - 1;
      var before := SlotAt(lim, s, vs[..n]);
      TimeoutsAreOverdueVisits(lim, id, s, vs[..n]);
      TimeoutsSplit(TenureEvents(lim, id, s, vs[..n]), VisitEvents(lim, id, before, vs[n]));
      var h := Heard(lim, before, vs[n]);
      if h.Some? { TimeoutsOfReport(lim, id, before.rec, h.value, vs[n].now); }
    }
  }

  /** A visit without an answer: the circuit is open and lets no probe through, or the call is throttled or fails. */
  predicate Silent(v: Visit) { !v.o.Answered? || (v.circuitOpen && !v.probe) }

  /** What silence adds to the staleness: one for an open circuit, one for a failed call. */
  function Misses(vs: seq<Visit>): nat {
    if vs == [] then 0
    else
      var v := vs[|vs| - 1];
      Misses(vs[..|vs| - 1]) + (if v.circuitOpen then 1 else 0) + if v.o.Broken? && (v.circuitOpen ==> v.probe) then 1 else 0
  }

  /** Through silence an order stays tracked, unchanged but for its staleness, exactly until the misses reach the limit. */
  lemma {:induction false} SilenceEvictsAtLimit(lim: Limits, s: Slot, vs: seq<Visit>)
    requires s.live && forall k :: 0 <= k < |vs| ==> Silent(vs[k])
    ensures var end, stale := SlotAt(lim, s, vs), s.rec.stale + Misses(vs);
            && (end.live <==> Misses(vs) == 0 || stale < lim.staleLimit)
            && (end.live ==> end.rec == s.rec.(stale := stale))
  {
    if vs != [] { SilenceEvictsAtLimit(lim, s, vs[..|vs| - 1]); }
  }

  /** An answer clears the staleness; only a terminal one ends the tenure. */
  lemma AnswerClearsStaleness(lim: Limits, s: Slot, v: Visit)
    requires Heard(lim, s, v).Some?
    ensures var end := SlotAfter(lim, s, v);
            && end.rec.stale == 0 && end.rec.status == v.o.r.status
            && (end.live <==> v.o.r.status == Pending || v.o.r.status == PartiallyFilled)
  {
  }
}
