/**
 * Crash recovery: what the delta map folded from the log says about an order, against what
 * the tracker itself knew when it crashed, in every interleaving of orders, and what the
 * restored tracker then emits.
 */
module CrashRecovery {
  import opened Common
  import opened EventStore
  import opened Orders
  import Portfolio

  // --------------------------------------------------------------------- sessions

  datatype Session = Session(open: map<OrderId, Record>, log: seq<Event>)

  /**
   * Placing and adopting start a tenure; a placement filled at once is never tracked (should
   * its id be tracked already, that record absorbs the fill); a crash leaves the log, from which
   * the open orders of the `known` symbols are restored; other events are not about orders.
   */
  datatype Step =
    | Place(id: OrderId, rec: Record, now: int)
    | PlaceFilled(id: OrderId, rec: Record, r: Report, now: int)
    | Adopt(id: OrderId, rec: Record)
    | VisitOrder(id: OrderId, v: Visit)
    | Crash(known: set<string>)
    | Other(ts: int)

  /** The record `restore_open` rebuilds from a delta. */
  function RestoredRecord(d: Delta): Record { Record(d.ticket, 0.0, d.filled, d.status, 0, d.placedAt) }

  /** The tracker `restore_open` rebuilds from a log. */
  function RestoredOpen(log: seq<Event>, known: set<string>): map<OrderId, Record> {
    var m := OpenOrderDeltas(log);
    map id | id in m && m[id].ticket.symbol in known :: RestoredRecord(m[id])
  }

  function Next(lim: Limits, s: Session, step: Step): Session {
    match step
    case Place(id, rec, now) => Session(s.open[id := rec], s.log + [Accepted(now, id, rec.ticket)])
    case PlaceFilled(id, rec, r, now) =>
      var base := rec.(filled := if id in s.open then s.open[id].filled else 0);
      Session(if id in s.open then s.open[id := s.open[id].(filled := base.filled + Increment(base, r))] else s.open,
              s.log + [Accepted(now, id, rec.ticket)] + FillEvents(id, base, r, now))
    case Adopt(id, rec) => if id in s.open then s else s.(open := s.open[id := rec])
    case VisitOrder(id, v) =>
      if id !in s.open then s
      else
        var slot := Slot(s.open[id], true);
        var slot' := SlotAfter(lim, slot, v);
        Session(if slot'.live then s.open[id := slot'.rec] else s.open - {id}, s.log + VisitEvents(lim, id, slot, v))
    case Crash(known) => s.(open := RestoredOpen(s.log, known))
    case Other(ts) => s.(log := s.log + [Derived(ts)])
  }

  function RunSession(lim: Limits, s: Session, steps: seq<Step>): Session {
    if steps == [] then s else Next(lim, RunSession(lim, s, steps[..|steps| - 1]), steps[|steps| - 1])
  }

  /** The step starts no other tenure of `id`. */
  predicate Continues(st: Step, id: OrderId) { st.VisitOrder? || st.Crash? || st.Other? || st.id != id }

  /** No step ends the tenure of `id` by a crash or starts another. */
  ghost predicate OneTenure(steps: seq<Step>, id: OrderId) {
    forall k :: 0 <= k < |steps| ==> Continues(steps[k], id) && !steps[k].Crash?
  }

  function VisitsOf(steps: seq<Step>, id: OrderId): seq<Visit> {
    if steps == [] then []
    else
      var rest, st := VisitsOf(steps[..|steps| - 1], id), steps[|steps| - 1];
      if st.VisitOrder? && st.id == id then rest + [st.v] else rest
  }

  // -------------------------------------------------------- one order's own events

  predicate About(e: Event, id: OrderId) { !e.Market? && !e.Derived? && e.id == id }

  function EventsOf(log: seq<Event>, id: OrderId): seq<Event> {
    if log == [] then []
    else
      var rest, e := EventsOf(log[..|log| - 1], id), log[|log| - 1];
      if About(e, id) then rest + [e] else rest
  }

  lemma {:induction false} EventsOfSplit(xs: seq<Event>, ys: seq<Event>, id: OrderId)
    ensures EventsOf(xs + ys, id) == EventsOf(xs, id) + EventsOf(ys, id)
  {
    if ys == [] {
      assert xs + ys == xs;
    } else {
      var n := |ys| - 1;
      assert (xs + ys)[..|xs + ys| - 1] == xs + ys[..n];
      EventsOfSplit(xs, ys[..n], id);
    }
  }

  lemma {:induction false} EventsOfUniform(es: seq<Event>, id: OrderId)
    ensures (forall k :: 0 <= k < |es| ==> About(es[k], id)) ==> EventsOf(es, id) == es
    ensures (forall k :: 0 <= k < |es| ==> !About(es[k], id)) ==> EventsOf(es, id) == []
  {
    if es != [] { EventsOfUniform(es[..|es| - 1], id); }
  }

  /** Events about `id`, none of which starts a new tenure. */
  ghost predicate Own(es: seq<Event>, id: OrderId) {
    forall k :: 0 <= k < |es| ==> About(es[k], id) && !es[k].Accepted?
  }

  lemma ReportEventsAreOwn(lim: Limits, id: OrderId, rec: Record, r: Report, now: int)
    ensures Own(ReportEvents(lim, id, rec, r, now), id)
  {
    var t, u := TimeoutEvents(lim, id, rec, r, now), UpdateEvents(id, rec, r, now);
    var f, x := FillEvents(id, rec, r, now), RefusalEvents(id, rec, r, now);
    OwnConcat(t, u, id);
    OwnConcat(t + u, f, id);
    OwnConcat(t + u + f, x, id);
  }

  lemma VisitEventsAreOwn(lim: Limits, id: OrderId, s: Slot, v: Visit, other: OrderId)
    ensures Own(VisitEvents(lim, id, s, v), id)
    ensures EventsOf(VisitEvents(lim, id, s, v), other) == if id == other then VisitEvents(lim, id, s, v) else []
  {
    var h := Heard(lim, s, v);
    if h.Some? { ReportEventsAreOwn(lim, id, s.rec, h.value, v.now); }
    OwnEventsOf(VisitEvents(lim, id, s, v), id, other);
  }

  lemma OwnEventsOf(es: seq<Event>, id: OrderId, other: OrderId)
    requires Own(es, id)
    ensures EventsOf(es, other) == if id == other then es else []
  {
    EventsOfUniform(es, other);
  }

  /** The session shows of `id` exactly what a tenure of `vs` makes of it. */
  ghost predicate Shows(lim: Limits, s: Session, own: seq<Event>, id: OrderId, slot: Slot, vs: seq<Visit>) {
    var end := SlotAt(lim, slot, vs);
    && (id in s.open <==> end.live)
    && (id in s.open ==> s.open[id] == end.rec)
    && EventsOf(s.log, id) == own + TenureEvents(lim, id, slot, vs)
  }

  lemma VisitShows(lim: Limits, s: Session, own: seq<Event>, id: OrderId, slot: Slot, vs: seq<Visit>, v: Visit)
    requires Shows(lim, s, own, id, slot, vs)
    ensures Shows(lim, Next(lim, s, VisitOrder(id, v)), own, id, slot, vs + [v])
  {
    var mid := SlotAt(lim, slot, vs);
    assert (vs + [v])[..|vs|] == vs;
    StepOnLog(lim, s, VisitOrder(id, v), id);
    if mid.live {
      assert mid == Slot(s.open[id], true);
      Associative(own, TenureEvents(lim, id, slot, vs), VisitEvents(lim, id, mid, v));
    }
  }

  /**
   * Orders do not interfere: in every interleaving, the record of an order and the events
   * about it are those of its own visits alone.
   */
  lemma {:induction false} OrdersDoNotInterfere(lim: Limits, s: Session, steps: seq<Step>, id: OrderId)
    requires id in s.open && OneTenure(steps, id)
    ensures Shows(lim, RunSession(lim, s, steps), EventsOf(s.log, id), id, Slot(s.open[id], true), VisitsOf(steps, id))
  {
    if steps != [] {
      var n := |steps| - 1;
      OrdersDoNotInterfere(lim, s, steps[..n], id);
      var before, vs := RunSession(lim, s, steps[..n]), VisitsOf(steps[..n], id);
      if steps[n].VisitOrder? && steps[n].id == id {
        VisitShows(lim, before, EventsOf(s.log, id), id, Slot(s.open[id], true), vs, steps[n].v);
      } else {
        StepOnLog(lim, before, steps[n], id);
      }
    }
  }

  /** What one step appends to the log about `id`. */
  lemma StepOnLog(lim: Limits, s: Session, st: Step, id: OrderId)
    requires Continues(st, id)
    ensures var s' := Next(lim, s, st);
            EventsOf(s'.log, id) == EventsOf(s.log, id) +
              if st.VisitOrder? && st.id == id && id in s.open
              then VisitEvents(lim, id, Slot(s.open[id], true), st.v) else []
  {
    match st
    case Place(other, rec, now) => ForeignEvents(s.log, [Accepted(now, other, rec.ticket)], id);
    case PlaceFilled(other, rec, r, now) => PlaceFilledOnLog(lim, s, other, rec, r, now, id);
    case Adopt(_, _) =>
    case Crash(_) =>
    case VisitOrder(other, v) =>
      if other in s.open {
        EventsOfSplit(s.log, VisitEvents(lim, other, Slot(s.open[other], true), v), id);
        VisitEventsAreOwn(lim, other, Slot(s.open[other], true), v, id);
      }
    case Other(ts) => ForeignEvents(s.log, [Derived(ts)], id);
  }

  lemma ForeignEvents(log: seq<Event>, es: seq<Event>, id: OrderId)
    requires forall k :: 0 <= k < |es| ==> !About(es[k], id)
    ensures EventsOf(log + es, id) == EventsOf(log, id)
  {
    EventsOfSplit(log, es, id);
    EventsOfUniform(es, id);
  }

  lemma PlaceFilledOnLog(lim: Limits, s: Session, other: OrderId, rec: Record, r: Report, now: int, id: OrderId)
    requires other != id
    ensures EventsOf(Next(lim, s, PlaceFilled(other, rec, r, now)).log, id) == EventsOf(s.log, id)
  {
    var base := rec.(filled := if other in s.open then s.open[other].filled else 0);
    ForeignEvents(s.log, [Accepted(now, other, rec.ticket)], id);
    ForeignEvents(s.log + [Accepted(now, other, rec.ticket)], FillEvents(other, base, r, now), id);
  }

  /** The fold, the fills and the overhang of an order depend on its own events only. */
  lemma {:induction false} FoldIsLocal(log: seq<Event>, id: OrderId)
    ensures var own := EventsOf(log, id);
            && (id in Deltas(log) <==> id in Deltas(own))
            && (id in Deltas(log) ==> Deltas(log)[id] == Deltas(own)[id])
            && FilledSince(log, id) == FilledSince(own, id)
            && Overhang(log, id) == Overhang(own, id)
  {
    if log != [] {
      var n := |log| - 1;
      FoldIsLocal(log[..n], id);
      var own := EventsOf(log[..n], id);
      if About(log[n], id) { assert (own + [log[n]])[..|own|] == own; }
    }
  }

  // ----------------------------------------------- what a tenure does to the fold

  /** The new quantity carried by a report that also changes the status. */
  function JumpOf(rec: Record, r: Report): (j: int)
    ensures j >= 0
  {
    if r.status != rec.status then Max(0, r.filled - rec.filled) else 0
  }

  /** The largest such quantity heard in a tenure. */
  function Jump(lim: Limits, s: Slot, vs: seq<Visit>): (j: int)
    ensures j >= 0
  {
    if vs == [] then 0
    else
      var n := |vs| - 1;
      var before := SlotAt(lim, s, vs[..n]);
      var h := Heard(lim, before, vs[n]);
      Max(Jump(lim, s, vs[..n]), if h.Some? then JumpOf(before.rec, h.value) else 0)
  }

  /** The state of the fold that matters for one order. */
  datatype FoldView = FoldView(filled: int, overhang: int, live: bool)

  ghost function ViewOf(log: seq<Event>, id: OrderId): FoldView {
    FoldView(FilledSince(log, id), Overhang(log, id), id in Deltas(log) && !Terminal(Deltas(log)[id].status))
  }

  function ViewAfter(w: FoldView, e: Event): FoldView {
    match e
    case Filled(_, _, fill) => w.(filled := w.filled + fill.quantity)
    case Updated(_, _, status, cum) => w.(overhang := Max(w.overhang, cum - w.filled), live := !Terminal(status))
    case Refused(_, _, _) => w.(live := false)
    case _ => w
  }

  lemma ViewStep(log: seq<Event>, id: OrderId, e: Event)
    requires About(e, id) && !e.Accepted? && id in Deltas(log)
    ensures id in Deltas(log + [e]) && ViewOf(log + [e], id) == ViewAfter(ViewOf(log, id), e)
    ensures Deltas(log + [e])[id].ticket == Deltas(log)[id].ticket
  {
    assert (log + [e])[..|log|] == log;
  }

  /** At most one event, folded. */
  function ViewAfterAll(w: FoldView, es: seq<Event>): FoldView {
    if es == [] then w else ViewAfter(ViewAfterAll(w, es[..|es| - 1]), es[|es| - 1])
  }

  lemma {:induction false} ViewSteps(log: seq<Event>, id: OrderId, es: seq<Event>)
    requires id in Deltas(log) && Own(es, id)
    ensures id in Deltas(log + es) && ViewOf(log + es, id) == ViewAfterAll(ViewOf(log, id), es)
    ensures Deltas(log + es)[id].ticket == Deltas(log)[id].ticket
  {
    if es == [] {
      assert log + es == log;
    } else {
      var n := |es| - 1;
      ViewSteps(log, id, es[..n]);
      assert log + es == log + es[..n] + [es[n]];
      ViewStep(log + es[..n], id, es[n]);
    }
  }

  lemma {:induction false} ViewAllSplit(w: FoldView, xs: seq<Event>, ys: seq<Event>)
    ensures ViewAfterAll(w, xs + ys) == ViewAfterAll(ViewAfterAll(w, xs), ys)
  {
    if ys == [] {
      assert xs + ys == xs;
    } else {
      assert (xs + ys)[..|xs + ys| - 1] == xs + ys[..|ys| - 1];
      ViewAllSplit(w, xs, ys[..|ys| - 1]);
    }
  }

  lemma ViewOfOne(w: FoldView, e: Event)
    ensures ViewAfterAll(w, [e]) == ViewAfter(w, e)
  {
    assert [e][..0] == [];
  }

  /** Updated before Filled: the fold raises its count first and adds the fill on top. */
  lemma ReportOnView(lim: Limits, id: OrderId, rec: Record, r: Report, now: int, w: FoldView)
    requires w.overhang >= 0 && w.live
    ensures var w' := ViewAfterAll(w, ReportEvents(lim, id, rec, r, now));
            && w'.filled == w.filled + Increment(rec, r)
            && w'.overhang == Max(w.overhang, if r.status != rec.status then r.filled - w.filled else 0)
            && (AfterReport(rec, r).live ==> w'.live)
  {
    var t, u := TimeoutEvents(lim, id, rec, r, now), UpdateEvents(id, rec, r, now);
    var f, x := FillEvents(id, rec, r, now), RefusalEvents(id, rec, r, now);
    ViewAllSplit(w, t + u + f, x);
    ViewAllSplit(w, t + u, f);
    ViewAllSplit(w, t, u);
    TimeoutOnView(lim, id, rec, r, now, w);
    UpdateOnView(id, rec, r, now, w);
    var w1 := ViewAfterAll(w, u);
    FillOnView(id, rec, r, now, w1);
    RefusalOnView(id, rec, r, now, ViewAfterAll(w1, f));
  }

  /** With the tracker's count equal to the fills, the overhang grows by the jump. */
  lemma ReportInStep(lim: Limits, id: OrderId, rec: Record, r: Report, now: int, w: FoldView)
    requires w.filled == rec.filled && w.overhang >= 0 && w.live
    ensures var w' := ViewAfterAll(w, ReportEvents(lim, id, rec, r, now));
            && w'.filled == AfterReport(rec, r).rec.filled
            && w'.overhang == Max(w.overhang, JumpOf(rec, r))
            && (AfterReport(rec, r).live ==> w'.live)
  {
    ReportOnView(lim, id, rec, r, now, w);
  }

  lemma TimeoutOnView(lim: Limits, id: OrderId, rec: Record, r: Report, now: int, w: FoldView)
    ensures ViewAfterAll(w, TimeoutEvents(lim, id, rec, r, now)) == w
  {
    ViewOfOne(w, TimedOut(now, id));
  }

  lemma UpdateOnView(id: OrderId, rec: Record, r: Report, now: int, w: FoldView)
    ensures ViewAfterAll(w, UpdateEvents(id, rec, r, now)) ==
            if r.status != rec.status
            then w.(overhang := Max(w.overhang, r.filled - w.filled), live := !Terminal(r.status)) else w
  {
    ViewOfOne(w, Updated(now, id, r.status, r.filled));
  }

  lemma FillOnView(id: OrderId, rec: Record, r: Report, now: int, w: FoldView)
    ensures ViewAfterAll(w, FillEvents(id, rec, r, now)) == w.(filled := w.filled + Increment(rec, r))
  {
    ViewOfOne(w, FillEvent(id, rec, r, now));
  }

  lemma RefusalOnView(id: OrderId, rec: Record, r: Report, now: int, w: FoldView)
    ensures var w' := ViewAfterAll(w, RefusalEvents(id, rec, r, now));
            w'.filled == w.filled && w'.overhang == w.overhang && (!Terminal(r.status) ==> w' == w)
  {
    ViewOfOne(w, Refused(now, id, rec.ticket.quantity - rec.filled - Increment(rec, r)));
  }

  lemma {:induction false} TenureOnView(lim: Limits, id: OrderId, s: Slot, vs: seq<Visit>, w: FoldView)
    requires w == FoldView(s.rec.filled, 0, true) && s.live
    ensures var w', end := ViewAfterAll(w, TenureEvents(lim, id, s, vs)), SlotAt(lim, s, vs);
            end.live ==> w' == FoldView(end.rec.filled, Jump(lim, s, vs), true)
  {
    if vs != [] {
      var n := |vs| - 1;
      var before := SlotAt(lim, s, vs[..n]);
      TenureOnView(lim, id, s, vs[..n], w);
      var w1 := ViewAfterAll(w, TenureEvents(lim, id, s, vs[..n]));
      ViewAllSplit(w, TenureEvents(lim, id, s, vs[..n]), VisitEvents(lim, id, before, vs[n]));
      if before.live { VisitOnView(lim, id, before, vs[n], w1); }
    }
  }

  lemma VisitOnView(lim: Limits, id: OrderId, s: Slot, v: Visit, w: FoldView)
    requires s.live && w.filled == s.rec.filled && w.overhang >= 0 && w.live
    ensures var w', h, end := ViewAfterAll(w, VisitEvents(lim, id, s, v)), Heard(lim, s, v), SlotAfter(lim, s, v);
            end.live ==> w' == FoldView(end.rec.filled, Max(w.overhang, if h.Some? then JumpOf(s.rec, h.value) else 0), true)
  {
    var h := Heard(lim, s, v);
    if h.Some? { ReportInStep(lim, id, s.rec, h.value, v.now, w); }
  }

  lemma {:induction false} TenureEventsAreOwn(lim: Limits, id: OrderId, s: Slot, vs: seq<Visit>)
    ensures Own(TenureEvents(lim, id, s, vs), id)
  {
    if vs != [] {
      var n := |vs| - 1;
      TenureEventsAreOwn(lim, id, s, vs[..n]);
      VisitEventsAreOwn(lim, id, SlotAt(lim, s, vs[..n]), vs[n], id);
      OwnConcat(TenureEvents(lim, id, s, vs[..n]), VisitEvents(lim, id, SlotAt(lim, s, vs[..n]), vs[n]), id);
    }
  }

  lemma OwnConcat(xs: seq<Event>, ys: seq<Event>, id: OrderId)
    requires Own(xs, id) && Own(ys, id)
    ensures Own(xs + ys, id)
  {
  }

  // -------------------------------------------------------------- the main theorems

  /**
   * For an order placed in the session and still tracked, in every interleaving: the count
   * recovered from the log is the tracker's own count plus the largest quantity that came in
   * with a status change.  The order survives the crash exactly when that sum is below its
   * quantity.
   */
  lemma RecoveredCount(lim: Limits, s: Session, id: OrderId, rec: Record, now: int, steps: seq<Step>)
    requires rec.filled == 0 && OneTenure(steps, id)
    requires id in RunSession(lim, Next(lim, s, Place(id, rec, now)), steps).open
    ensures var s' := RunSession(lim, Next(lim, s, Place(id, rec, now)), steps);
            var jump := Jump(lim, Slot(rec, true), VisitsOf(steps, id));
            && id in Deltas(s'.log)
            && Deltas(s'.log)[id].filled == s'.open[id].filled + jump
            && (id in OpenOrderDeltas(s'.log) <==> s'.open[id].filled + jump < rec.ticket.quantity)
  {
    var s1 := Next(lim, s, Place(id, rec, now));
    var slot, vs := Slot(rec, true), VisitsOf(steps, id);
    var s' := RunSession(lim, s1, steps);
    var events, own := TenureEvents(lim, id, slot, vs), EventsOf(s1.log, id);
    OrdersDoNotInterfere(lim, s1, steps, id);
    FoldIsLocal(s'.log, id);
    JustAccepted(s.log, id, rec, now);
    TenureEventsAreOwn(lim, id, slot, vs);
    ViewSteps(own, id, events);
    TenureOnView(lim, id, slot, vs, ViewOf(own, id));
    DeltaIsFillsPlusOverhang(s'.log, id);
  }

  lemma JustAccepted(log: seq<Event>, id: OrderId, rec: Record, now: int)
    ensures var own := EventsOf(log + [Accepted(now, id, rec.ticket)], id);
            ViewOf(own, id) == FoldView(0, 0, true) && id in Deltas(own) && Deltas(own)[id].ticket == rec.ticket
  {
    var e := Accepted(now, id, rec.ticket);
    assert (log + [e])[..|log|] == log;
    var own := EventsOf(log, id);
    assert (own + [e])[..|own|] == own;
    FoldAtAcceptance(own, e);
  }

  lemma FoldAtAcceptance(own: seq<Event>, e: Event)
    requires e.Accepted?
    ensures ViewOf(own + [e], e.id) == FoldView(0, 0, true)
    ensures e.id in Deltas(own + [e]) && Deltas(own + [e])[e.id].ticket == e.ticket
  {
    assert (own + [e])[..|own|] == own;
  }

  /** Report `k` of the tenure changed the status and carried new quantity. */
  ghost predicate CarriedByChange(lim: Limits, s: Slot, vs: seq<Visit>, k: nat)
    requires k < |vs|
  {
    var before := SlotAt(lim, s, vs[..k]);
    var h := Heard(lim, before, vs[k]);
    h.Some? && h.value.status != before.rec.status && h.value.filled > before.rec.filled
  }

  lemma {:induction false} NoJumpIffQuietChanges(lim: Limits, s: Slot, vs: seq<Visit>)
    ensures Jump(lim, s, vs) == 0 <==> forall k :: 0 <= k < |vs| ==> !CarriedByChange(lim, s, vs, k)
  {
    if vs != [] {
      var n := |vs| - 1;
      NoJumpIffQuietChanges(lim, s, vs[..n]);
      forall k | 0 <= k < n ensures CarriedByChange(lim, s, vs, k) <==> CarriedByChange(lim, s, vs[..n], k) {
        assert vs[..n][..k] == vs[..k];
      }
      assert Jump(lim, s, vs) == 0 <==> Jump(lim, s, vs[..n]) == 0 && !CarriedByChange(lim, s, vs, n);
    }
  }

  /** Recovery is exact if and only if no report that changed the status brought new quantity. */
  lemma RecoveryIsExactIff(lim: Limits, s: Session, id: OrderId, rec: Record, now: int, steps: seq<Step>)
    requires rec.filled == 0 && OneTenure(steps, id)
    requires id in RunSession(lim, Next(lim, s, Place(id, rec, now)), steps).open
    ensures var s', vs := RunSession(lim, Next(lim, s, Place(id, rec, now)), steps), VisitsOf(steps, id);
            && id in Deltas(s'.log)
            && (Deltas(s'.log)[id].filled == s'.open[id].filled <==>
                forall k :: 0 <= k < |vs| ==> !CarriedByChange(lim, Slot(rec, true), vs, k))
  {
    RecoveredCount(lim, s, id, rec, now, steps);
    NoJumpIffQuietChanges(lim, Slot(rec, true), VisitsOf(steps, id));
  }

  lemma OneStep(lim: Limits, s: Session, id: OrderId, v: Visit)
    ensures RunSession(lim, s, [VisitOrder(id, v)]) == Next(lim, s, VisitOrder(id, v))
    ensures VisitsOf([VisitOrder(id, v)], id) == [v]
  {
    var steps := [VisitOrder(id, v)];
    assert steps[..0] == [] && [] + [v] == [v];
  }

  lemma JumpOfOne(lim: Limits, slot: Slot, v: Visit)
    ensures Jump(lim, slot, [v]) == if Heard(lim, slot, v).Some? then JumpOf(slot.rec, v.o.r) else 0
  {
    assert [v][..0] == [];
    assert SlotAt(lim, slot, [v][..0]) == slot && Jump(lim, slot, [v][..0]) == 0;
  }

  /**
   * The ordinary first partial fill already breaks recovery: a pending order whose first
   * report is a priced partial fill of `f` is recovered with 2f, and is dropped altogether
   * when 2f reaches its quantity.
   */
  lemma FirstPartialFillCountsTwice(lim: Limits, s: Session, id: OrderId, ticket: Ticket, price: real, now: int, f: int, avg: real)
    requires 0 < f && avg > 0.0
    ensures var rec := Record(ticket, price, 0, Pending, 0, now);
            var visit := VisitOrder(id, Visit(false, false, Answered(Report(PartiallyFilled, f, avg)), now));
            var s' := RunSession(lim, Next(lim, s, Place(id, rec, now)), [visit]);
            && id in s'.open && s'.open[id].filled == f
            && id in Deltas(s'.log) && Deltas(s'.log)[id].filled == 2 * f
            && (id in OpenOrderDeltas(s'.log) <==> 2 * f < ticket.quantity)
  {
    var rec := Record(ticket, price, 0, Pending, 0, now);
    var v := Visit(false, false, Answered(Report(PartiallyFilled, f, avg)), now);
    var steps := [VisitOrder(id, v)];
    var s1 := Next(lim, s, Place(id, rec, now));
    OneStep(lim, s1, id, v);
    JumpOfOne(lim, Slot(rec, true), v);
    var after := SlotAfter(lim, Slot(rec, true), v);
    assert after == Slot(rec.(filled := f, status := PartiallyFilled, stale := 0), true);
    RecoveredCount(lim, s, id, rec, now, steps);
  }

  // ------------------------------------------------------------------- the restart

  /** The largest cumulative quantity heard, with no starting count; zero when nothing was heard. */
  function TopReport(lim: Limits, s: Slot, vs: seq<Visit>): int {
    if vs == [] then 0
    else
      var n := |vs| - 1;
      var h := Heard(lim, SlotAt(lim, s, vs[..n]), vs[n]);
      if h.Some? then Max(TopReport(lim, s, vs[..n]), h.value.filled) else TopReport(lim, s, vs[..n])
  }

  lemma {:induction false} PeakIsTop(lim: Limits, s: Slot, vs: seq<Visit>)
    requires s.rec.filled >= 0
    ensures Peak(lim, s, vs) == Max(s.rec.filled, TopReport(lim, s, vs))
  {
    if vs != [] { PeakIsTop(lim, s, vs[..|vs| - 1]); }
  }

  /**
   * Across a crash, the fills emitted before it (`filled`) and after it never exceed what the
   * broker reported; and when every report is priced, exactly the recovered excess `jump`
   * (or what is left to fill, if less) is never emitted.
   */
  lemma RestartNeverOverfills(lim: Limits, id: OrderId, d: Delta, filled: nat, jump: nat, vs: seq<Visit>)
    requires d.filled == filled + jump
    ensures var s := Slot(RestoredRecord(d), true);
            var total, top := filled + FillSum(TenureEvents(lim, id, s, vs)), TopReport(lim, s, vs);
            && total <= Max(filled, top)
            && (AllPriced(lim, s, vs) ==>
                  var missing := Max(filled, top) - total;
                  missing == if top - filled <= 0 then 0 else if jump <= top - filled then jump else top - filled)
  {
    var s := Slot(RestoredRecord(d), true);
    FillConservation(lim, id, s, vs);
    PeakIsTop(lim, s, vs);
  }

  lemma {:induction false} ViewCountsFills(w: FoldView, es: seq<Event>)
    ensures ViewAfterAll(w, es).filled == w.filled + FillSum(es)
  {
    if es != [] { ViewCountsFills(w, es[..|es| - 1]); }
  }

  /** The fills logged for an order grow by exactly what a further tenure emits. */
  lemma TenureGrowsLoggedFills(lim: Limits, s: Session, id: OrderId, steps: seq<Step>)
    requires id in s.open && id in Deltas(s.log) && OneTenure(steps, id)
    ensures FilledSince(RunSession(lim, s, steps).log, id)
            == FilledSince(s.log, id) + FillSum(TenureEvents(lim, id, Slot(s.open[id], true), VisitsOf(steps, id)))
  {
    var s', own := RunSession(lim, s, steps), EventsOf(s.log, id);
    var events := TenureEvents(lim, id, Slot(s.open[id], true), VisitsOf(steps, id));
    OrdersDoNotInterfere(lim, s, steps, id);
    FoldIsLocal(s.log, id);
    FoldIsLocal(s'.log, id);
    TenureEventsAreOwn(lim, id, Slot(s.open[id], true), VisitsOf(steps, id));
    ViewSteps(own, id, events);
    ViewCountsFills(ViewOf(own, id), events);
  }

  // ---------------------------------------------- adoption of orders nobody tracks

  /** What is emitted for `id` from here on keeps its fills within `filled` and the broker's reports. */
  ghost predicate StaysWithinReports(lim: Limits, s: Session, id: OrderId, filled: int, later: seq<Step>)
    requires id in s.open
  {
    FilledSince(RunSession(lim, s, later).log, id) <= Max(filled, TopReport(lim, Slot(s.open[id], true), VisitsOf(later, id)))
  }

  ghost predicate NeverOverfills(lim: Limits, s: Session, id: OrderId, filled: int)
    requires id in s.open
  {
    forall later :: OneTenure(later, id) ==> StaysWithinReports(lim, s, id, filled, later)
  }

  /**
   * An adopted record starts at 0: what was filled before the adoption is emitted again, in
   * full when every later report is priced.
   */
  lemma AdoptionRepeatsFills(lim: Limits, s: Session, id: OrderId, later: seq<Step>)
    requires id in s.open && s.open[id].filled == 0 && id in Deltas(s.log) && OneTenure(later, id)
    ensures var slot, vs := Slot(s.open[id], true), VisitsOf(later, id);
            var filled, total := FilledSince(s.log, id), FilledSince(RunSession(lim, s, later).log, id);
            && filled <= total <= filled + Max(0, TopReport(lim, slot, vs))
            && (AllPriced(lim, slot, vs) ==> total == filled + Max(0, TopReport(lim, slot, vs)))
  {
    var slot, vs := Slot(s.open[id], true), VisitsOf(later, id);
    TenureGrowsLoggedFills(lim, s, id, later);
    FillConservation(lim, id, slot, vs);
    PeakIsTop(lim, slot, vs);
  }

  /** A closed-circuit visit at which the broker reports `filled`, priced. */
  function PricedVisit(filled: int): Visit { Visit(false, false, Answered(Report(PartiallyFilled, filled, 1.0)), 0) }

  lemma HeardAlone(lim: Limits, slot: Slot, v: Visit)
    requires slot.live && !v.circuitOpen && v.o.Answered? && v.o.r.avg > 0.0
    ensures AllPriced(lim, slot, [v]) && TopReport(lim, slot, [v]) == Max(0, v.o.r.filled)
  {
    assert [v][..0] == [];
    assert SlotAt(lim, slot, [v][..0]) == slot && TopReport(lim, slot, [v][..0]) == 0 && AllPriced(lim, slot, [v][..0]);
  }

  /**
   * Adopting an order with a past, after an eviction or a crash, is safe if and only if
   * nothing of it had been filled: otherwise the broker's next report counts all of it again.
   */
  lemma AdoptionIsSafeIff(lim: Limits, s: Session, id: OrderId, adopted: Record)
    requires id !in s.open && id in Deltas(s.log) && adopted.filled == 0
    ensures NeverOverfills(lim, Next(lim, s, Adopt(id, adopted)), id, FilledSince(s.log, id)) <==> FilledSince(s.log, id) <= 0
  {
    var s1, filled := Next(lim, s, Adopt(id, adopted)), FilledSince(s.log, id);
    if filled <= 0 {
      forall later | OneTenure(later, id) ensures StaysWithinReports(lim, s1, id, filled, later) {
        AdoptionRepeatsFills(lim, s1, id, later);
        TopIsNotNegative(lim, Slot(adopted, true), VisitsOf(later, id));
      }
    } else {
      var v := PricedVisit(filled);
      OneStep(lim, s1, id, v);
      HeardAlone(lim, Slot(adopted, true), v);
      AdoptionRepeatsFills(lim, s1, id, [VisitOrder(id, v)]);
      assert !StaysWithinReports(lim, s1, id, filled, [VisitOrder(id, v)]);
    }
  }

  lemma {:induction false} TopIsNotNegative(lim: Limits, s: Slot, vs: seq<Visit>)
    ensures TopReport(lim, s, vs) >= 0
  {
    if vs != [] { TopIsNotNegative(lim, s, vs[..|vs| - 1]); }
  }

  // ------------------------------------------------------------- a crash and a restart

  /**
   * A crash, a restore, and then the orphan reconciliation that follows every poll: it adopts
   * `id` unless the restore already tracks it.
   */
  function Restart(lim: Limits, crashed: Session, known: set<string>, id: OrderId, adopted: Record): (s: Session)
    ensures id in s.open && s.log == crashed.log
  {
    Next(lim, Next(lim, crashed, Crash(known)), Adopt(id, adopted))
  }

  /** What the restarted tracker holds of an order that was tracked at the crash. */
  lemma RestartedRecord(lim: Limits, s: Session, id: OrderId, rec: Record, now: int, steps: seq<Step>,
                        known: set<string>, adopted: Record)
    requires rec.filled == 0 && OneTenure(steps, id) && rec.ticket.symbol in known
    requires id in RunSession(lim, Next(lim, s, Place(id, rec, now)), steps).open
    ensures var crashed := RunSession(lim, Next(lim, s, Place(id, rec, now)), steps);
            var filled, jump := crashed.open[id].filled, Jump(lim, Slot(rec, true), VisitsOf(steps, id));
            && id in Deltas(crashed.log) && FilledSince(crashed.log, id) == filled >= 0
            && Deltas(crashed.log)[id].filled == filled + jump
            && (id in Next(lim, crashed, Crash(known)).open <==> filled + jump < rec.ticket.quantity)
            && Restart(lim, crashed, known, id, adopted).open[id]
               == if filled + jump < rec.ticket.quantity then RestoredRecord(Deltas(crashed.log)[id]) else adopted
  {
    RecoveredCount(lim, s, id, rec, now, steps);
    TrackedView(lim, s, id, rec, now, steps);
    CountIsLogged(lim, s, id, rec, now, steps);
  }

  /**
   * A whole crash: an order placed, polled in any interleaving, restored from the log or
   * dropped and adopted, and polled again in any interleaving.  Restored, its fills never
   * exceed what the broker reported, and with every later report priced exactly the recovered
   * excess is missing.  Dropped, everything filled before the crash is emitted once more.
   */
  lemma CrashAndRestart(lim: Limits, s: Session, id: OrderId, rec: Record, now: int, steps: seq<Step>,
                        known: set<string>, adopted: Record, later: seq<Step>)
    requires rec.filled == 0 && adopted.filled == 0 && OneTenure(steps, id) && OneTenure(later, id)
    requires rec.ticket.symbol in known
    requires id in RunSession(lim, Next(lim, s, Place(id, rec, now)), steps).open
    ensures var crashed := RunSession(lim, Next(lim, s, Place(id, rec, now)), steps);
            var restarted := Restart(lim, crashed, known, id, adopted);
            var slot, vs := Slot(restarted.open[id], true), VisitsOf(later, id);
            var filled, jump := crashed.open[id].filled, Jump(lim, Slot(rec, true), VisitsOf(steps, id));
            var total, top := FilledSince(RunSession(lim, restarted, later).log, id), TopReport(lim, slot, vs);
            if filled + jump < rec.ticket.quantity then
              && total <= Max(filled, top)
              && (AllPriced(lim, slot, vs) ==>
                    Max(filled, top) - total
                    == if top <= filled then 0 else if jump <= top - filled then jump else top - filled)
            else
              && total <= filled + top
              && (AllPriced(lim, slot, vs) ==> total == filled + top)
  {
    var crashed := RunSession(lim, Next(lim, s, Place(id, rec, now)), steps);
    var restarted := Restart(lim, crashed, known, id, adopted);
    var filled, jump := crashed.open[id].filled, Jump(lim, Slot(rec, true), VisitsOf(steps, id));
    RestartedRecord(lim, s, id, rec, now, steps, known, adopted);
    if filled + jump < rec.ticket.quantity {
      TenureGrowsLoggedFills(lim, restarted, id, later);
      RestartNeverOverfills(lim, id, Deltas(crashed.log)[id], filled, jump, VisitsOf(later, id));
    } else {
      AdoptionRepeatsFills(lim, restarted, id, later);
      TopIsNotNegative(lim, Slot(adopted, true), VisitsOf(later, id));
    }
  }

  /**
   * A restart with adoption never over-fills if and only if, at the crash, the recovered count
   * is below the quantity or nothing had been filled.
   */
  lemma RestartIsSafeIff(lim: Limits, s: Session, id: OrderId, rec: Record, now: int, steps: seq<Step>,
                         known: set<string>, adopted: Record)
    requires rec.filled == 0 && adopted.filled == 0 && OneTenure(steps, id) && rec.ticket.symbol in known
    requires id in RunSession(lim, Next(lim, s, Place(id, rec, now)), steps).open
    ensures var crashed := RunSession(lim, Next(lim, s, Place(id, rec, now)), steps);
            var filled, jump := crashed.open[id].filled, Jump(lim, Slot(rec, true), VisitsOf(steps, id));
            NeverOverfills(lim, Restart(lim, crashed, known, id, adopted), id, filled)
            <==> filled + jump < rec.ticket.quantity || filled == 0
  {
    var crashed := RunSession(lim, Next(lim, s, Place(id, rec, now)), steps);
    var restarted := Restart(lim, crashed, known, id, adopted);
    var filled, jump := crashed.open[id].filled, Jump(lim, Slot(rec, true), VisitsOf(steps, id));
    RestartedRecord(lim, s, id, rec, now, steps, known, adopted);
    if filled + jump < rec.ticket.quantity {
      forall later | OneTenure(later, id) ensures StaysWithinReports(lim, restarted, id, filled, later) {
        CrashAndRestart(lim, s, id, rec, now, steps, known, adopted, later);
      }
    } else {
      AdoptionIsSafeIff(lim, Next(lim, crashed, Crash(known)), id, adopted);
    }
  }

  /**
   * The over-fill on an ordinary order: a first partial fill of at least half the quantity, a
   * crash that drops the order, its adoption, and the same report once more fill it twice.
   */
  lemma DroppedOrderFillsTwice(lim: Limits, s: Session, id: OrderId, ticket: Ticket, price: real, now: int, f: int, avg: real,
                               known: set<string>, adopted: Record)
    requires 0 < f < ticket.quantity <= 2 * f && avg > 0.0 && adopted.filled == 0 && ticket.symbol in known
    ensures var rec := Record(ticket, price, 0, Pending, 0, now);
            var visit := VisitOrder(id, Visit(false, false, Answered(Report(PartiallyFilled, f, avg)), now));
            var crashed := RunSession(lim, Next(lim, s, Place(id, rec, now)), [visit]);
            var restarted := Restart(lim, crashed, known, id, adopted);
            && id !in OpenOrderDeltas(crashed.log)
            && FilledSince(crashed.log, id) == f
            && FilledSince(RunSession(lim, restarted, [visit]).log, id) == 2 * f
  {
    var rec := Record(ticket, price, 0, Pending, 0, now);
    var v := Visit(false, false, Answered(Report(PartiallyFilled, f, avg)), now);
    var visit := VisitOrder(id, v);
    var crashed := RunSession(lim, Next(lim, s, Place(id, rec, now)), [visit]);
    var restarted := Restart(lim, crashed, known, id, adopted);
    FirstPartialFillCountsTwice(lim, s, id, ticket, price, now, f, avg);
    CountIsLogged(lim, s, id, rec, now, [visit]);
    OneStep(lim, restarted, id, v);
    HeardAlone(lim, Slot(adopted, true), v);
    AdoptionRepeatsFills(lim, restarted, id, [visit]);
  }

  // ---------------------------------------------------------- any number of crashes

  /** The report that a step hears about `id`, if any. */
  function HeardBy(lim: Limits, s: Session, st: Step, id: OrderId): Option<Report> {
    if st.VisitOrder? && st.id == id && id in s.open then Heard(lim, Slot(s.open[id], true), st.v) else None
  }

  /** The largest cumulative quantity heard about `id`; zero when nothing was heard. */
  function Reported(lim: Limits, s: Session, steps: seq<Step>, id: OrderId): int {
    if steps == [] then 0
    else
      var n := |steps| - 1;
      var h := HeardBy(lim, RunSession(lim, s, steps[..n]), steps[n], id);
      if h.Some? then Max(Reported(lim, s, steps[..n], id), h.value.filled) else Reported(lim, s, steps[..n], id)
  }

  /** The overhang of `id` at the last crash; zero before the first. */
  function LastOverhang(lim: Limits, s: Session, steps: seq<Step>, id: OrderId): int {
    if steps == [] then 0
    else
      var n := |steps| - 1;
      if steps[n].Crash? then Overhang(RunSession(lim, s, steps[..n]).log, id) else LastOverhang(lim, s, steps[..n], id)
  }

  /** The tracked count runs ahead of the logged fills by what the last restore put on top. */
  ghost predicate AheadBy(s: Session, id: OrderId, ticket: Ticket, top: int, ahead: int) {
    && id in Deltas(s.log) && Deltas(s.log)[id].ticket == ticket
    && 0 <= FilledSince(s.log, id) <= top
    && 0 <= ahead <= Overhang(s.log, id)
    && (id in s.open ==> s.open[id].filled == FilledSince(s.log, id) + ahead && !Terminal(Deltas(s.log)[id].status))
  }

  /** What a visit does to the fold of its order. */
  lemma VisitOnFold(lim: Limits, id: OrderId, rec: Record, v: Visit, log: seq<Event>)
    requires id in Deltas(log) && !Terminal(Deltas(log)[id].status)
    ensures var slot := Slot(rec, true);
            var log', h := log + VisitEvents(lim, id, slot, v), Heard(lim, slot, v);
            && id in Deltas(log') && Deltas(log')[id].ticket == Deltas(log)[id].ticket
            && FilledSince(log', id) == FilledSince(log, id) + (if h.Some? then Increment(rec, h.value) else 0)
            && Overhang(log', id) >= Overhang(log, id)
            && (SlotAfter(lim, slot, v).live ==> !Terminal(Deltas(log')[id].status))
  {
    var slot := Slot(rec, true);
    var h, es := Heard(lim, slot, v), VisitEvents(lim, id, slot, v);
    if h.Some? {
      VisitEventsAreOwn(lim, id, slot, v, id);
      ViewSteps(log, id, es);
      ReportOnView(lim, id, rec, h.value, v.now, ViewOf(log, id));
    } else {
      assert log + es == log;
    }
  }

  lemma VisitKeepsAhead(lim: Limits, s: Session, v: Visit, id: OrderId, ticket: Ticket, top: int, ahead: int)
    requires AheadBy(s, id, ticket, top, ahead) && id in s.open
    ensures var h := Heard(lim, Slot(s.open[id], true), v);
            AheadBy(Next(lim, s, VisitOrder(id, v)), id, ticket, if h.Some? then Max(top, h.value.filled) else top, ahead)
  {
    VisitOnFold(lim, id, s.open[id], v, s.log);
    VisitConserves(lim, id, Slot(s.open[id], true), v);
  }

  /** A step that does not visit `id` leaves its fold alone. */
  lemma ForeignStep(lim: Limits, s: Session, st: Step, id: OrderId)
    requires Continues(st, id) && !(st.VisitOrder? && st.id == id && id in s.open)
    ensures var log := Next(lim, s, st).log;
            && (id in Deltas(log) <==> id in Deltas(s.log))
            && (id in Deltas(log) ==> Deltas(log)[id] == Deltas(s.log)[id])
            && FilledSince(log, id) == FilledSince(s.log, id)
            && Overhang(log, id) == Overhang(s.log, id)
  {
    StepOnLog(lim, s, st, id);
    assert EventsOf(Next(lim, s, st).log, id) == EventsOf(s.log, id);
    FoldIsLocal(s.log, id);
    FoldIsLocal(Next(lim, s, st).log, id);
  }

  lemma StepKeepsAhead(lim: Limits, s: Session, st: Step, id: OrderId, ticket: Ticket, top: int, ahead: int)
    requires AheadBy(s, id, ticket, top, ahead) && Continues(st, id)
    ensures var h := HeardBy(lim, s, st, id);
            AheadBy(Next(lim, s, st), id, ticket, if h.Some? then Max(top, h.value.filled) else top,
                    if st.Crash? then Overhang(s.log, id) else ahead)
  {
    if st.VisitOrder? && st.id == id && id in s.open {
      VisitKeepsAhead(lim, s, st.v, id, ticket, top, ahead);
    } else {
      ForeignStep(lim, s, st, id);
      DeltaIsFillsPlusOverhang(s.log, id);
    }
  }

  lemma {:induction false} RunKeepsAhead(lim: Limits, s: Session, steps: seq<Step>, id: OrderId, ticket: Ticket)
    requires AheadBy(s, id, ticket, 0, 0) && forall k :: 0 <= k < |steps| ==> Continues(steps[k], id)
    ensures AheadBy(RunSession(lim, s, steps), id, ticket, Reported(lim, s, steps, id), LastOverhang(lim, s, steps, id))
  {
    if steps != [] {
      var n := |steps| - 1;
      RunKeepsAhead(lim, s, steps[..n], id, ticket);
      StepKeepsAhead(lim, RunSession(lim, s, steps[..n]), steps[n], id, ticket,
                     Reported(lim, s, steps[..n], id), LastOverhang(lim, s, steps[..n], id));
    }
  }

  /**
   * Any number of crashes and restores, without adoption: the fills of an order never exceed
   * the largest report heard.  While it is tracked, the excess a further crash would recover is
   * the growth of the overhang since the last one, and it survives that crash exactly when the
   * recovered count is below its quantity.
   */
  lemma CrashesNeverOverfill(lim: Limits, s: Session, id: OrderId, rec: Record, now: int, steps: seq<Step>)
    requires rec.filled == 0 && forall k :: 0 <= k < |steps| ==> Continues(steps[k], id)
    ensures var s1 := Next(lim, s, Place(id, rec, now));
            var s' := RunSession(lim, s1, steps);
            var excess := Overhang(s'.log, id) - LastOverhang(lim, s1, steps, id);
            && 0 <= FilledSince(s'.log, id) <= Reported(lim, s1, steps, id)
            && id in Deltas(s'.log)
            && (id in s'.open ==>
                  && s'.open[id].filled == FilledSince(s'.log, id) + LastOverhang(lim, s1, steps, id)
                  && excess >= 0
                  && Deltas(s'.log)[id].filled == s'.open[id].filled + excess
                  && (id in OpenOrderDeltas(s'.log) <==> s'.open[id].filled + excess < rec.ticket.quantity))
  {
    var s1 := Next(lim, s, Place(id, rec, now));
    FoldAtAcceptance(s.log, Accepted(now, id, rec.ticket));
    RunKeepsAhead(lim, s1, steps, id, rec.ticket);
    DeltaIsFillsPlusOverhang(RunSession(lim, s1, steps).log, id);
  }

  // ------------------------------------------------------ the order keeps its identity

  function StatusAfter(st: Status, es: seq<Event>): Status {
    if es == [] then st
    else
      var e := es[|es| - 1];
      if e.Updated? then e.status else if e.Refused? then Rejected else StatusAfter(st, es[..|es| - 1])
  }

  /** Ticket and placement time of a delta never change; its status is the last one announced. */
  lemma {:induction false} LabelSteps(log: seq<Event>, id: OrderId, es: seq<Event>)
    requires id in Deltas(log) && Own(es, id)
    ensures id in Deltas(log + es)
    ensures var d, d' := Deltas(log)[id], Deltas(log + es)[id];
            d'.ticket == d.ticket && d'.placedAt == d.placedAt && d'.status == StatusAfter(d.status, es)
  {
    if es == [] {
      assert log + es == log;
    } else {
      var n := |es| - 1;
      LabelSteps(log, id, es[..n]);
      assert (log + es)[..|log + es| - 1] == log + es[..n];
    }
  }

  lemma {:induction false} StatusSplit(st: Status, xs: seq<Event>, ys: seq<Event>)
    ensures StatusAfter(st, xs + ys) == StatusAfter(StatusAfter(st, xs), ys)
  {
    if ys == [] {
      assert xs + ys == xs;
    } else {
      assert (xs + ys)[..|xs + ys| - 1] == xs + ys[..|ys| - 1];
      StatusSplit(st, xs, ys[..|ys| - 1]);
    }
  }

  /** The announced status follows the tracker's as long as the order lives. */
  lemma ReportOnStatus(lim: Limits, id: OrderId, rec: Record, r: Report, now: int)
    requires !Terminal(r.status)
    ensures StatusAfter(rec.status, ReportEvents(lim, id, rec, r, now)) == r.status
  {
    var t, u := TimeoutEvents(lim, id, rec, r, now), UpdateEvents(id, rec, r, now);
    var f := FillEvents(id, rec, r, now);
    assert RefusalEvents(id, rec, r, now) == [];
    StatusSplit(rec.status, t + u, f);
    StatusSplit(rec.status, t, u);
    assert t + u + f + [] == t + u + f;
    SilentOnStatus(rec.status, t);
    SilentOnStatus(StatusAfter(rec.status, t + u), f);
    if u != [] { assert u[..0] == []; }
  }

  lemma {:induction false} SilentOnStatus(st: Status, es: seq<Event>)
    requires forall k :: 0 <= k < |es| ==> !es[k].Updated? && !es[k].Refused?
    ensures StatusAfter(st, es) == st
  {
    if es != [] { SilentOnStatus(st, es[..|es| - 1]); }
  }

  /**
   * Log and tracker agree on which order `id` is: its ticket, when it was accepted, and (if it
   * was tracked as pending at first, or restored since) its status.
   */
  ghost predicate Identified(s: Session, id: OrderId, ticket: Ticket, at: int, pending: bool) {
    && id in Deltas(s.log) && Deltas(s.log)[id].ticket == ticket && Deltas(s.log)[id].placedAt == at
    && (id in s.open ==> s.open[id].ticket == ticket && (pending ==> s.open[id].status == Deltas(s.log)[id].status))
  }

  lemma VisitKeepsIdentity(lim: Limits, s: Session, v: Visit, id: OrderId, ticket: Ticket, at: int, pending: bool)
    requires Identified(s, id, ticket, at, pending) && id in s.open
    ensures Identified(Next(lim, s, VisitOrder(id, v)), id, ticket, at, pending)
  {
    var slot := Slot(s.open[id], true);
    var h := Heard(lim, slot, v);
    VisitEventsAreOwn(lim, id, slot, v, id);
    LabelSteps(s.log, id, VisitEvents(lim, id, slot, v));
    VisitConserves(lim, id, slot, v);
    if h.Some? && !Terminal(h.value.status) { ReportOnStatus(lim, id, slot.rec, h.value, v.now); }
  }

  lemma StepKeepsIdentity(lim: Limits, s: Session, st: Step, id: OrderId, ticket: Ticket, at: int, pending: bool)
    requires Identified(s, id, ticket, at, pending) && Continues(st, id)
    ensures Identified(Next(lim, s, st), id, ticket, at, pending)
  {
    if st.VisitOrder? && st.id == id && id in s.open {
      VisitKeepsIdentity(lim, s, st.v, id, ticket, at, pending);
    } else {
      ForeignStep(lim, s, st, id);
    }
  }

  lemma {:induction false} RunKeepsIdentity(lim: Limits, s: Session, steps: seq<Step>, id: OrderId, ticket: Ticket, at: int, pending: bool)
    requires Identified(s, id, ticket, at, pending) && forall k :: 0 <= k < |steps| ==> Continues(steps[k], id)
    ensures Identified(RunSession(lim, s, steps), id, ticket, at, pending)
  {
    if steps != [] {
      var n := |steps| - 1;
      RunKeepsIdentity(lim, s, steps[..n], id, ticket, at, pending);
      StepKeepsIdentity(lim, RunSession(lim, s, steps[..n]), steps[n], id, ticket, at, pending);
    }
  }

  lemma PlacedIsIdentified(lim: Limits, s: Session, id: OrderId, rec: Record, now: int)
    ensures Identified(Next(lim, s, Place(id, rec, now)), id, rec.ticket, now, rec.status == Pending)
  {
    assert (s.log + [Accepted(now, id, rec.ticket)])[..|s.log|] == s.log;
  }

  /** A restored record has the ticket, count, status and placement time of its delta. */
  lemma RestoredFields(lim: Limits, s: Session, known: set<string>, id: OrderId)
    ensures var open := Next(lim, s, Crash(known)).open;
            && (id in open <==> id in OpenOrderDeltas(s.log) && Deltas(s.log)[id].ticket.symbol in known)
            && (id in open ==>
                  var d := Deltas(s.log)[id];
                  && open[id].ticket == d.ticket && open[id].filled == d.filled && open[id].status == d.status
                  && open[id].placedAt == d.placedAt && open[id].stale == 0 && open[id].price == 0.0)
  {
  }

  /**
   * What a restore gives back: an order is restored exactly when its symbol is known and its
   * recovered count is below its quantity, and then it is the order that was tracked, with its
   * ticket, its time of acceptance, its status (if placed as pending) and its count plus the jump.
   */
  lemma RestoreKeepsOrder(lim: Limits, s: Session, id: OrderId, rec: Record, now: int, steps: seq<Step>, known: set<string>)
    requires rec.filled == 0 && OneTenure(steps, id)
    requires id in RunSession(lim, Next(lim, s, Place(id, rec, now)), steps).open
    ensures var crashed := RunSession(lim, Next(lim, s, Place(id, rec, now)), steps);
            var tracked, restored := crashed.open[id], Next(lim, crashed, Crash(known)).open;
            var jump := Jump(lim, Slot(rec, true), VisitsOf(steps, id));
            && (id in restored <==> rec.ticket.symbol in known && tracked.filled + jump < rec.ticket.quantity)
            && (id in restored ==>
                  && restored[id].ticket == tracked.ticket == rec.ticket
                  && restored[id].placedAt == now
                  && restored[id].filled == tracked.filled + jump
                  && restored[id].stale == 0 && restored[id].price == 0.0
                  && (rec.status == Pending ==> restored[id].status == tracked.status))
  {
    var crashed := RunSession(lim, Next(lim, s, Place(id, rec, now)), steps);
    RecoveredCount(lim, s, id, rec, now, steps);
    PlacedIsIdentified(lim, s, id, rec, now);
    RunKeepsIdentity(lim, Next(lim, s, Place(id, rec, now)), steps, id, rec.ticket, now, rec.status == Pending);
    RestoredFields(lim, crashed, known, id);
  }

  // -------------------------------------------------------- the position an order leaves

  /** No event of `es` accepts `id` again, and its fills are of the order's symbol and side. */
  ghost predicate Fitting(es: seq<Event>, id: OrderId, ticket: Ticket) {
    forall k :: 0 <= k < |es| && About(es[k], id) ==> FittingOne(es[k], ticket)
  }

  predicate FittingOne(e: Event, ticket: Ticket) {
    !e.Accepted? && (e.Filled? ==> e.fill.symbol == ticket.symbol && e.fill.side == ticket.side)
  }

  lemma VisitEventsFit(lim: Limits, other: OrderId, rec: Record, v: Visit, id: OrderId, ticket: Ticket)
    requires other == id ==> rec.ticket == ticket
    ensures Fitting(VisitEvents(lim, other, Slot(rec, true), v), id, ticket)
  {
    var slot := Slot(rec, true);
    var es, h := VisitEvents(lim, other, slot, v), Heard(lim, slot, v);
    VisitEventsAreOwn(lim, other, slot, v, id);
    forall k | 0 <= k < |es| && About(es[k], id) ensures FittingOne(es[k], ticket) {
      if es[k].Filled? { ReportFill(lim, other, rec, h.value, v.now, es[k]); }
    }
  }

  lemma PlaceFilledFits(other: OrderId, base: Record, r: Report, now: int, id: OrderId, ticket: Ticket)
    requires other != id
    ensures Fitting([Accepted(now, other, base.ticket)] + FillEvents(other, base, r, now), id, ticket)
  {
  }

  /** What a step appends fits the order. */
  lemma StepFits(lim: Limits, s: Session, st: Step, id: OrderId, ticket: Ticket) returns (es: seq<Event>)
    requires Continues(st, id) && (id in s.open ==> s.open[id].ticket == ticket)
    ensures Next(lim, s, st).log == s.log + es && Fitting(es, id, ticket)
  {
    match st
    case Place(other, rec, now) => es := [Accepted(now, other, rec.ticket)];
    case PlaceFilled(other, rec, r, now) =>
      var base := rec.(filled := if other in s.open then s.open[other].filled else 0);
      PlaceFilledFits(other, base, r, now, id, ticket);
      es := [Accepted(now, other, rec.ticket)] + FillEvents(other, base, r, now);
    case VisitOrder(other, v) =>
      if other in s.open {
        VisitEventsFit(lim, other, s.open[other], v, id, ticket);
        es := VisitEvents(lim, other, Slot(s.open[other], true), v);
      } else {
        es := [];
      }
    case Other(ts) => es := [Derived(ts)];
    case _ => es := [];
  }

  lemma {:induction false} RunFits(lim: Limits, s: Session, steps: seq<Step>, id: OrderId, ticket: Ticket, at: int) returns (es: seq<Event>)
    requires Identified(s, id, ticket, at, false) && forall k :: 0 <= k < |steps| ==> Continues(steps[k], id)
    ensures RunSession(lim, s, steps).log == s.log + es && Fitting(es, id, ticket)
  {
    if steps == [] {
      es := [];
    } else {
      var n := |steps| - 1;
      var before := RunFits(lim, s, steps[..n], id, ticket, at);
      RunKeepsIdentity(lim, s, steps[..n], id, ticket, at, false);
      var more := StepFits(lim, RunSession(lim, s, steps[..n]), steps[n], id, ticket);
      es := before + more;
      FittingConcat(before, more, id, ticket);
      Associative(s.log, before, more);
    }
  }

  lemma FittingConcat(xs: seq<Event>, ys: seq<Event>, id: OrderId, ticket: Ticket)
    requires Fitting(xs, id, ticket) && Fitting(ys, id, ticket)
    ensures Fitting(xs + ys, id, ticket)
  {
  }

  lemma {:induction false} FilledSinceGrows(log: seq<Event>, es: seq<Event>, id: OrderId, ticket: Ticket)
    requires Fitting(es, id, ticket)
    ensures FilledSince(log + es, id) == FilledSince(log, id) + FillSum(EventsOf(es, id))
  {
    if es == [] {
      assert log + es == log;
    } else {
      var n := |es| - 1;
      FilledSinceGrows(log, es[..n], id, ticket);
      assert (log + es)[..|log + es| - 1] == log + es[..n];
      var own := EventsOf(es[..n], id);
      if About(es[n], id) { assert FittingOne(es[n], ticket) && (own + [es[n]])[..|own|] == own; }
    }
  }

  lemma {:induction false} OwnEventsFit(es: seq<Event>, id: OrderId, ticket: Ticket)
    requires Fitting(es, id, ticket)
    ensures forall k :: 0 <= k < |EventsOf(es, id)| ==> FittingOne(EventsOf(es, id)[k], ticket)
  {
    if es != [] { OwnEventsFit(es[..|es| - 1], id, ticket); }
  }

  /**
   * Through any polls, crashes and restores, without adoption, the fills logged for an order
   * since its placement move the position of its own symbol, in the direction of its side, by
   * exactly the quantity filled.
   */
  lemma OrderMovesItsPosition(lim: Limits, s: Session, id: OrderId, rec: Record, now: int, steps: seq<Step>)
    requires forall k :: 0 <= k < |steps| ==> Continues(steps[k], id)
    ensures var s1 := Next(lim, s, Place(id, rec, now));
            var s' := RunSession(lim, s1, steps);
            && |s1.log| <= |s'.log|
            && var own := EventsOf(s'.log[|s1.log|..], id);
            var filled := FilledSince(s'.log, id);
            Portfolio.NetQuantity(LoggedFills(own), rec.ticket.symbol) == if rec.ticket.side.Buy? then filled else -filled
  {
    var s1 := Next(lim, s, Place(id, rec, now));
    PlacedIsIdentified(lim, s, id, rec, now);
    var es := RunFits(lim, s1, steps, id, rec.ticket, now);
    assert RunSession(lim, s1, steps).log[|s1.log|..] == es;
    AcceptanceResets(s.log, id, rec, now);
    FilledSinceGrows(s1.log, es, id, rec.ticket);
    OwnEventsFit(es, id, rec.ticket);
    OneSidedNet(EventsOf(es, id), rec.ticket.symbol, rec.ticket.side);
  }

  /** A placement filled at once: never tracked, and its fill is of the order's symbol and side, at the reported or the order's price. */
  lemma FilledPlacement(lim: Limits, s: Session, id: OrderId, rec: Record, r: Report, now: int)
    requires id !in s.open
    ensures var s' := Next(lim, s, PlaceFilled(id, rec, r, now));
            var price := if r.avg != 0.0 then r.avg else rec.price;
            && s'.open == s.open
            && s'.log == s.log + [Accepted(now, id, rec.ticket)] +
                 (if r.filled > 0 && price > 0.0
                  then [Filled(now, id, Portfolio.Fill(rec.ticket.symbol, rec.ticket.side, r.filled, price, 0.0))] else [])
            && FilledSince(s'.log, id) == if r.filled > 0 && price > 0.0 then r.filled else 0
  {
    AcceptanceResets(s.log, id, rec, now);
    var log := s.log + [Accepted(now, id, rec.ticket)];
    var es := FillEvents(id, rec.(filled := 0), r, now);
    if es != [] { assert (log + es)[..|log|] == log; } else { assert log + es == log; }
  }

  /** While an order is tracked, its count is the fills logged since its acceptance. */
  lemma CountIsLogged(lim: Limits, s: Session, id: OrderId, rec: Record, now: int, steps: seq<Step>)
    requires rec.filled == 0 && OneTenure(steps, id)
    requires id in RunSession(lim, Next(lim, s, Place(id, rec, now)), steps).open
    ensures var s' := RunSession(lim, Next(lim, s, Place(id, rec, now)), steps);
            s'.open[id].filled == FilledSince(s'.log, id) >= 0
  {
    var s1 := Next(lim, s, Place(id, rec, now));
    AcceptanceResets(s.log, id, rec, now);
    TenureGrowsLoggedFills(lim, s1, id, steps);
    OrdersDoNotInterfere(lim, s1, steps, id);
    FillConservation(lim, id, Slot(rec, true), VisitsOf(steps, id));
  }

  lemma AcceptanceResets(log: seq<Event>, id: OrderId, rec: Record, now: int)
    ensures var log' := log + [Accepted(now, id, rec.ticket)]; FilledSince(log', id) == 0 && id in Deltas(log')
  {
    assert (log + [Accepted(now, id, rec.ticket)])[..|log|] == log;
  }

  /** A terminal report leaves the fold either terminal or with nothing remaining. */
  lemma TerminalReportOnView(lim: Limits, id: OrderId, rec: Record, r: Report, now: int, w: FoldView)
    requires Terminal(r.status) && rec.status != Completed
    ensures ViewAfterAll(w, ReportEvents(lim, id, rec, r, now)).live ==>
              rec.filled + Increment(rec, r) >= rec.ticket.quantity
  {
    var t, u := TimeoutEvents(lim, id, rec, r, now), UpdateEvents(id, rec, r, now);
    var f, x := FillEvents(id, rec, r, now), RefusalEvents(id, rec, r, now);
    ViewAllSplit(w, t + u + f, x);
    ViewAllSplit(w, t + u, f);
    ViewAllSplit(w, t, u);
    TimeoutOnView(lim, id, rec, r, now, w);
    UpdateOnView(id, rec, r, now, w);
    FillOnView(id, rec, r, now, ViewAfterAll(w, u));
    var w2 := ViewAfterAll(ViewAfterAll(w, u), f);
    ViewOfOne(w2, Refused(now, id, rec.ticket.quantity - rec.filled - Increment(rec, r)));
  }

  /** The state of a tracked order's fold, in every interleaving. */
  lemma TrackedView(lim: Limits, s: Session, id: OrderId, rec: Record, now: int, steps: seq<Step>)
    requires rec.filled == 0 && OneTenure(steps, id)
    requires id in RunSession(lim, Next(lim, s, Place(id, rec, now)), steps).open
    ensures var s' := RunSession(lim, Next(lim, s, Place(id, rec, now)), steps);
            && s'.open[id] == SlotAt(lim, Slot(rec, true), VisitsOf(steps, id)).rec
            && id in Deltas(s'.log) && Deltas(s'.log)[id].ticket == rec.ticket
            && FilledSince(s'.log, id) == s'.open[id].filled
  {
    var s1 := Next(lim, s, Place(id, rec, now));
    var slot, vs, own := Slot(rec, true), VisitsOf(steps, id), EventsOf(s1.log, id);
    OrdersDoNotInterfere(lim, s1, steps, id);
    FoldIsLocal(RunSession(lim, s1, steps).log, id);
    JustAccepted(s.log, id, rec, now);
    TenureEventsAreOwn(lim, id, slot, vs);
    ViewSteps(own, id, TenureEvents(lim, id, slot, vs));
    CountIsLogged(lim, s, id, rec, now, steps);
  }

  /**
   * Finished orders are not recovered: once a poll has heard a terminal report, the order is
   * not among the open deltas of the log, whatever other steps follow.
   */
  lemma FinishedOrdersAreNotRecovered(lim: Limits, s: Session, id: OrderId, rec: Record, now: int,
                                      steps: seq<Step>, v: Visit, later: seq<Step>)
    requires rec.filled == 0 && rec.status != Completed && OneTenure(steps, id) && OneTenure(later, id)
    requires id in RunSession(lim, Next(lim, s, Place(id, rec, now)), steps).open
    requires var tracked := RunSession(lim, Next(lim, s, Place(id, rec, now)), steps);
             Heard(lim, Slot(tracked.open[id], true), v).Some? && Terminal(v.o.r.status)
    ensures var tracked := RunSession(lim, Next(lim, s, Place(id, rec, now)), steps);
            id !in OpenOrderDeltas(RunSession(lim, tracked, [VisitOrder(id, v)] + later).log)
  {
    var tracked := RunSession(lim, Next(lim, s, Place(id, rec, now)), steps);
    var all := [VisitOrder(id, v)] + later;
    var slot := Slot(tracked.open[id], true);
    TrackedView(lim, s, id, rec, now, steps);
    TrackedIsNotCompleted(lim, s, id, rec, now, steps);
    OrdersDoNotInterfere(lim, tracked, all, id);
    FirstVisitEndsIt(lim, id, slot, v, later);
    FoldIsLocal(tracked.log, id);
    FoldIsLocal(RunSession(lim, tracked, all).log, id);
    TerminalVisitCloses(lim, id, slot, v, EventsOf(tracked.log, id));
  }

  lemma TrackedIsNotCompleted(lim: Limits, s: Session, id: OrderId, rec: Record, now: int, steps: seq<Step>)
    requires rec.status != Completed && OneTenure(steps, id)
    requires id in RunSession(lim, Next(lim, s, Place(id, rec, now)), steps).open
    ensures var s' := RunSession(lim, Next(lim, s, Place(id, rec, now)), steps);
            s'.open[id].status != Completed && s'.open[id].ticket == rec.ticket
  {
    OrdersDoNotInterfere(lim, Next(lim, s, Place(id, rec, now)), steps, id);
    LiveIsNotCompleted(lim, Slot(rec, true), VisitsOf(steps, id));
    FillConservation(lim, id, Slot(rec, true), VisitsOf(steps, id));
  }

  /** The events of a visit that hears a terminal report close the order in the fold. */
  lemma TerminalVisitCloses(lim: Limits, id: OrderId, slot: Slot, v: Visit, own: seq<Event>)
    requires Heard(lim, slot, v).Some? && Terminal(v.o.r.status) && slot.rec.status != Completed
    requires id in Deltas(own) && Deltas(own)[id].ticket == slot.rec.ticket && FilledSince(own, id) == slot.rec.filled
    ensures var log := own + VisitEvents(lim, id, slot, v); id in Deltas(log) && !StillOpen(Deltas(log)[id])
  {
    var events := VisitEvents(lim, id, slot, v);
    VisitEventsAreOwn(lim, id, slot, v, id);
    ViewSteps(own, id, events);
    TerminalReportOnView(lim, id, slot.rec, v.o.r, v.now, ViewOf(own, id));
    ViewCountsFills(ViewOf(own, id), events);
    ReportSums(lim, id, slot.rec, v.o.r, v.now);
    DeltaIsFillsPlusOverhang(own + events, id);
  }

  lemma {:induction false} LiveIsNotCompleted(lim: Limits, s: Slot, vs: seq<Visit>)
    requires s.rec.status != Completed
    ensures SlotAt(lim, s, vs).live ==> SlotAt(lim, s, vs).rec.status != Completed
  {
    if vs != [] { LiveIsNotCompleted(lim, s, vs[..|vs| - 1]); }
  }

  /** A first visit that ends the tenure emits all the events there will be. */
  lemma FirstVisitEndsIt(lim: Limits, id: OrderId, slot: Slot, v: Visit, later: seq<Step>)
    requires !SlotAfter(lim, slot, v).live
    ensures TenureEvents(lim, id, slot, VisitsOf([VisitOrder(id, v)] + later, id)) == VisitEvents(lim, id, slot, v)
  {
    VisitsOfCons(VisitOrder(id, v), later, id);
    var vs := VisitsOf(later, id);
    assert [v][..0] == [];
    assert SlotAt(lim, slot, [v]) == SlotAfter(lim, slot, v);
    assert TenureEvents(lim, id, slot, [v]) == [] + VisitEvents(lim, id, slot, v);
    TenureSplit(lim, id, slot, [v], vs);
    GoneStaysGone(lim, id, SlotAfter(lim, slot, v), vs);
  }

  lemma {:induction false} VisitsOfCons(st: Step, steps: seq<Step>, id: OrderId)
    requires st.VisitOrder? && st.id == id
    ensures VisitsOf([st] + steps, id) == [st.v] + VisitsOf(steps, id)
  {
    if steps == [] {
      assert [st] + steps == [st] && [st][..0] == [];
    } else {
      var n := |steps| - 1;
      assert ([st] + steps)[..n + 1] == [st] + steps[..n];
      VisitsOfCons(st, steps[..n], id);
    }
  }
}
