/** The live execution target as an object: submission, polling, crash restore and fallback ids. */
module BrokerExecution {
  import opened Common
  import opened EventStore
  import opened Orders
  import CrashRecovery
  import Portfolio
  import Guard
  import CB = CircuitBreaker

  /** What the venue did with a placement. */
  datatype Placement = Raised | Accepts(id: Option<OrderId>, r: Report)

  datatype Submission = NoInstrument | AlreadyPlaced(id: OrderId) | InFlight | PlacementRejected | PlacedAs(id: OrderId)

  /** The broker's response to one status call, with the wall clock and the monotone clock. */
  datatype Answer = Answer(o: Outcome, now: int, mono: real)

  function Plain(o: Outcome): CB.Outcome {
    match o
    case Answered(_) => CB.Answered
    case Throttled => CB.Throttled
    case Broken => CB.Broken
  }

  function Tail(id: OrderId): Option<nat> {
    match id
    case Brk(n) => Some(n)
    case Venue(_, tail) => tail
  }

  /** An accepted placement as a step of the session. */
  function Placing(id: OrderId, rec: Record, r: Report, now: int): CrashRecovery.Step {
    if r.status == Completed then CrashRecovery.PlaceFilled(id, rec, r, now) else CrashRecovery.Place(id, rec, now)
  }

  /**
   * What an accepted placement leaves of a new id: a completed one is filled at once, as far as
   * it is priced, and never tracked; any other is tracked with nothing filled.
   */
  lemma PlacingBooks(lim: Limits, s: CrashRecovery.Session, id: OrderId, rec: Record, r: Report, now: int)
    requires rec.filled == 0 && id !in s.open
    ensures var s' := CrashRecovery.Next(lim, s, Placing(id, rec, r, now));
            var price := if r.avg != 0.0 then r.avg else rec.price;
            && (id in s'.open <==> r.status != Completed)
            && (id in s'.open ==> s'.open[id] == rec)
            && FilledSince(s'.log, id) == (if r.status == Completed && r.filled > 0 && price > 0.0 then r.filled else 0)
            && |s'.log| > |s.log| && s'.log[|s.log|] == Accepted(now, id, rec.ticket)
  {
    CrashRecovery.AcceptanceResets(s.log, id, rec, now);
    if r.status == Completed { CrashRecovery.FilledPlacement(lim, s, id, rec, r, now); }
  }

  predicate Announced(e: Event) { e.Filled? || e.Refused? }

  /** What poll returns: the fills and refusals among the published events. */
  function Announcements(es: seq<Event>): seq<Event> {
    if es == [] then []
    else
      var rest, e := Announcements(es[..|es| - 1]), es[|es| - 1];
      if Announced(e) then rest + [e] else rest
  }

  lemma {:induction false} AnnouncementsSplit(xs: seq<Event>, ys: seq<Event>)
    ensures Announcements(xs + ys) == Announcements(xs) + Announcements(ys)
  {
    if ys == [] {
      assert xs + ys == xs;
    } else {
      assert (xs + ys)[..|xs + ys| - 1] == xs + ys[..|ys| - 1];
      AnnouncementsSplit(xs, ys[..|ys| - 1]);
    }
  }

  /** What poll returns carries every filled and every refused quantity it published, and nothing else. */
  lemma {:induction false} AnnouncementsCarryAll(es: seq<Event>)
    ensures FillSum(Announcements(es)) == FillSum(es) && RefusedSum(Announcements(es)) == RefusedSum(es)
    ensures forall e :: e in Announcements(es) <==> e in es && (e.Filled? || e.Refused?)
  {
    if es != [] {
      var n := |es| - 1;
      AnnouncementsCarryAll(es[..n]);
      SumsSplit(Announcements(es[..n]), [es[n]]);
      SumsOfOne(es[n]);
      assert es == es[..n] + [es[n]];
    }
  }

  /** An admitted probe is an ordinary call on the record aged by one. */
  lemma ProbeIsCallOnAged(lim: Limits, s: CrashRecovery.Session, id: OrderId, o: Outcome, now: int)
    requires id in s.open && Aged(lim, s.open[id]).live
    ensures var aged := s.(open := s.open[id := Aged(lim, s.open[id]).rec]);
            CrashRecovery.Next(lim, aged, CrashRecovery.VisitOrder(id, Visit(false, false, o, now)))
            == CrashRecovery.Next(lim, s, CrashRecovery.VisitOrder(id, Visit(true, true, o, now)))
  {
    var aged := s.open[id := Aged(lim, s.open[id]).rec];
    var after := SlotAfter(lim, Slot(s.open[id], true), Visit(true, true, o, now)).rec;
    assert aged - {id} == s.open - {id} && aged[id := after] == s.open[id := after];
    assert VisitEvents(lim, id, Slot(aged[id], true), Visit(false, false, o, now))
        == VisitEvents(lim, id, Slot(s.open[id], true), Visit(true, true, o, now));
  }

  lemma NextOnlyAppends(lim: Limits, s: CrashRecovery.Session, step: CrashRecovery.Step)
    ensures s.log <= CrashRecovery.Next(lim, s, step).log
  {
  }

  lemma AnnouncedSince(start: nat, before: seq<Event>, after: seq<Event>)
    requires start <= |before| && before <= after
    ensures Announcements(after[start..]) == Announcements(before[start..]) + Announcements(after[|before|..])
  {
    AnnouncementsSplit(before[start..], after[|before|..]);
    assert after[start..] == before[start..] + after[|before|..];
  }

  class BrokerExecution {
    const limits: Limits
    const guard: Guard.MemoryIdempotencyGuard
    const breaker: CB.CircuitBreaker
    var open: map<OrderId, Record>
    var seqNo: nat
    var log: seq<Event>

    ghost function View(): CrashRecovery.Session
      reads this
    {
      CrashRecovery.Session(open, log)
    }

    ghost predicate Valid()
      reads this, guard, breaker
    {
      guard.Valid() && breaker.Valid()
    }

    constructor (limits: Limits, guard: Guard.MemoryIdempotencyGuard, breaker: CB.CircuitBreaker)
      requires guard.Valid() && breaker.Valid()
      ensures this.limits == limits && this.guard == guard && this.breaker == breaker
      ensures Valid() && View() == CrashRecovery.Session(map[], []) && seqNo == 0
    {
      this.limits, this.guard, this.breaker := limits, guard, breaker;
      open, seqNo, log := map[], 0, [];
    }

    /** A fallback id above every number used or recovered so far, and of no tracked order. */
    method NextBrkId() returns (id: OrderId)
      modifies this`seqNo
      ensures id == Brk(seqNo) && seqNo > old(seqNo) && id !in open
    {
      ghost var taken := set k | k in open && k.Brk? && k.n > seqNo;
      while true
        invariant seqNo >= old(seqNo)
        invariant taken == set k | k in open && k.Brk? && k.n > seqNo
        decreases taken
      {
        seqNo := seqNo + 1;
        id := Brk(seqNo);
        if id !in open { return; }
        taken := taken - {id};
      }
    }

    /**
     * Placement behind the guard: a completed or reserved key never reaches the venue; a
     * failed placement leaves no trace; an accepted one is recorded and published once.
     */
    method Submit(ticket: Ticket, price: real, key: Guard.Key, backed: bool, placement: Placement, now: int)
      returns (result: Submission)
      requires Valid()
      modifies this, guard
      ensures Valid() && seqNo >= old(seqNo)
      ensures result == NoInstrument <==> !backed
      ensures !result.PlacedAs? ==> View() == old(View()) && guard.View() == old(guard.View())
      ensures backed ==>
                match Guard.Checked(old(guard.View()), key).1
                case Duplicate(id) => result == AlreadyPlaced(id)
                case InFlight => result == InFlight
                case Fresh => if placement.Raised? then result == PlacementRejected else result.PlacedAs?
      ensures result.PlacedAs? ==>
                && guard.View() == Guard.Recorded(Guard.Checked(old(guard.View()), key).0, key, result.id, guard.cap)
                && (placement.id.Some? ==> result.id == placement.id.value)
                && (placement.id.None? ==> result.id !in old(open) && result.id.Brk? && result.id.n > old(seqNo))
                && View() == CrashRecovery.Next(limits, old(View()),
                     Placing(result.id, Record(ticket, price, 0, placement.r.status, 0, now), placement.r, now))
    {
      if !backed { return NoInstrument; }
      var a := guard.CheckAndReserve(key);
      match a
      case Duplicate(id) => return AlreadyPlaced(id);
      case InFlight => return InFlight;
      case Fresh =>
      if placement.Raised? {
        guard.Release(key);
        assert guard.reserved == old(guard.reserved);
        return PlacementRejected;
      }
      var id;
      if placement.id.Some? { id := placement.id.value; } else { id := NextBrkId(); }
      guard.RecordResult(key, id);
      Track(id, Record(ticket, price, 0, placement.r.status, 0, now), placement.r, now);
      result := PlacedAs(id);
    }

    /** Publish the acceptance, then the fill of a synchronous broker or the start of a tenure. */
    method Track(id: OrderId, rec: Record, r: Report, now: int)
      modifies this`open, this`log
      ensures View() == CrashRecovery.Next(limits, old(View()), Placing(id, rec, r, now))
    {
      log := log + [Accepted(now, id, rec.ticket)];
      if r.status == Completed {
        EmitFill(id, rec, r, now);
      } else {
        open := open[id := rec];
      }
    }

    /** Emit the newly filled quantity, measured against the tracked record if there is one. */
    method EmitFill(id: OrderId, order: Record, r: Report, now: int)
      modifies this`open, this`log
      ensures var base := order.(filled := if id in old(open) then old(open)[id].filled else 0);
              && log == old(log) + FillEvents(id, base, r, now)
              && open == (if id in old(open)
                          then old(open)[id := old(open)[id].(filled := base.filled + Increment(base, r))] else old(open))
    {
      var already := if id in open then open[id].filled else 0;
      ghost var base := order.(filled := already);
      var newQty := r.filled - already;
      var price := if r.avg != 0.0 then r.avg else order.price;
      if newQty <= 0 || price <= 0.0 {
        if id in open { assert open == open[id := open[id].(filled := base.filled + Increment(base, r))]; }
        return;
      }
      log := log + [Filled(now, id, Portfolio.Fill(order.ticket.symbol, order.ticket.side, newQty, price, 0.0))];
      if id in open { open := open[id := open[id].(filled := already + newQty)]; }
    }

    /** One order's turn in poll. */
    method VisitOrder(id: OrderId, answer: Answer) returns (ghost v: Visit)
      requires Valid()
      modifies this`open, this`log, breaker
      ensures Valid()
      ensures v.o == answer.o && v.now == answer.now
      ensures v.circuitOpen == (old(breaker.state) == CB.Open)
      ensures v.probe == CB.MaybeReset(breaker.config, old(breaker.View()), answer.mono).1
      ensures View() == CrashRecovery.Next(limits, old(View()), CrashRecovery.VisitOrder(id, v))
      ensures id !in old(open) ==> breaker.View() == old(breaker.View())
      ensures id in old(open) ==>
                breaker.View() == CB.Next(breaker.config, old(breaker.View()),
                  CB.Visit(answer.mono, Plain(answer.o), !Aged(limits, old(open)[id]).live))
      ensures answer.o.Throttled? ==> breaker.failures == old(breaker.failures)
      ensures log != old(log) ==>
                && id in old(open) && answer.o.Answered?
                && CB.Calls(breaker.config, old(breaker.View()),
                     CB.Visit(answer.mono, Plain(answer.o), !Aged(limits, old(open)[id]).live))
    {
      v := Visit(breaker.state == CB.Open, CB.MaybeReset(breaker.config, breaker.View(), answer.mono).1, answer.o, answer.now);
      if id !in open { return; }
      var rec := open[id];
      if breaker.state == CB.Open {
        rec := rec.(stale := rec.stale + 1);
        if rec.stale >= limits.staleLimit {
          open := open - {id};
          return;
        }
        open := open[id := rec];
        var probe := breaker.MaybeResetNow(answer.mono);
        if !probe { return; }
        ProbeIsCallOnAged(limits, old(View()), id, answer.o, answer.now);
      }
      Call(id, rec, answer);
    }

    /** The status call itself, once the circuit has let it through. */
    method Call(id: OrderId, rec: Record, answer: Answer)
      requires Valid() && id in open && open[id] == rec
      modifies this`open, this`log, breaker
      ensures Valid() && breaker.View() == CB.Settle(breaker.config, old(breaker.View()), Plain(answer.o), answer.mono)
      ensures View() == CrashRecovery.Next(limits, old(View()),
                CrashRecovery.VisitOrder(id, Visit(false, false, answer.o, answer.now)))
    {
      match answer.o
      case Throttled =>
      case Broken =>
        breaker.Failed(answer.mono);
        var failed := rec.(stale := rec.stale + 1);
        open := if failed.stale >= limits.staleLimit then open - {id} else open[id := failed];
      case Answered(r) =>
        breaker.Succeeded();
        Reported(id, rec, r, answer.now);
    }

    /** Reset the staleness, then announce a timeout and a change of status. */
    method Heralded(id: OrderId, rec: Record, r: Report, now: int)
      requires id in open
      modifies this`open, this`log
      ensures log == old(log) + (TimeoutEvents(limits, id, rec, r, now) + UpdateEvents(id, rec, r, now))
      ensures open == old(open)[id := rec.(stale := 0, status := r.status)]
    {
      open := open[id := rec.(stale := 0)];
      if r.status == Pending && now - rec.placedAt > limits.timeout {
        log := log + [TimedOut(now, id)];
      }
      if r.status != rec.status {
        open := open[id := open[id].(status := r.status)];
        log := log + [Updated(now, id, r.status, r.filled)];
      }
    }

    /** The report path: timeout, status change, fill, and the terminal statuses. */
    method Reported(id: OrderId, rec: Record, r: Report, now: int)
      requires id in open && open[id].filled == rec.filled
      modifies this`open, this`log
      ensures log == old(log) + ReportEvents(limits, id, rec, r, now)
      ensures open == if AfterReport(rec, r).live then old(open)[id := AfterReport(rec, r).rec] else old(open) - {id}
    {
      Heralded(id, rec, r, now);
      EmitFill(id, rec, r, now);
      assert rec.(filled := rec.filled) == rec;
      if r.status == Completed {
        open := open - {id};
      } else if r.status == Rejected || r.status == Cancelled {
        var remaining := rec.ticket.quantity - open[id].filled;
        if remaining > 0 {
          log := log + [Refused(now, id, remaining)];
        }
        open := open - {id};
      }
    }

    /**
     * Poll visits a snapshot of the tracked ids; the session moves by exactly those visits,
     * and the returned list is the fills and refusals they published.
     */
    method Poll(ids: seq<OrderId>, answers: seq<Answer>)
      returns (emitted: seq<Event>, ghost steps: seq<CrashRecovery.Step>)
      requires Valid() && |ids| == |answers|
      modifies this`open, this`log, breaker
      ensures Valid() && |steps| == |ids|
      ensures forall i :: 0 <= i < |ids| ==>
                steps[i].VisitOrder? && steps[i].id == ids[i] && steps[i].v.o == answers[i].o && steps[i].v.now == answers[i].now
      ensures View() == CrashRecovery.RunSession(limits, old(View()), steps)
      ensures |log| >= |old(log)| && emitted == Announcements(log[|old(log)|..])
    {
      emitted, steps := [], [];
      for i := 0 to |ids|
        invariant Valid() && |steps| == i
        invariant forall j :: 0 <= j < i ==>
                    steps[j].VisitOrder? && steps[j].id == ids[j] && steps[j].v.o == answers[j].o && steps[j].v.now == answers[j].now
        invariant View() == CrashRecovery.RunSession(limits, old(View()), steps)
        invariant |log| >= |old(log)| && emitted == Announcements(log[|old(log)|..])
      {
        ghost var before := log;
        var news, v := VisitAndAnnounce(ids[i], answers[i]);
        emitted := emitted + news;
        ghost var step := CrashRecovery.VisitOrder(ids[i], v);
        AnnouncedSince(|old(log)|, before, log);
        assert (steps + [step])[..i] == steps;
        steps := steps + [step];
      }
    }

    /** A visit and the fills and refusals it published. */
    method VisitAndAnnounce(id: OrderId, answer: Answer) returns (news: seq<Event>, ghost v: Visit)
      requires Valid()
      modifies this`open, this`log, breaker
      ensures Valid() && v.o == answer.o && v.now == answer.now
      ensures View() == CrashRecovery.Next(limits, old(View()), CrashRecovery.VisitOrder(id, v))
      ensures old(log) <= log && news == Announcements(log[|old(log)|..])
    {
      var n := |log|;
      v := VisitOrder(id, answer);
      NextOnlyAppends(limits, old(View()), CrashRecovery.VisitOrder(id, v));
      news := NewAnnouncements(n);
    }

    method NewAnnouncements(n: nat) returns (es: seq<Event>)
      requires n <= |log|
      ensures es == Announcements(log[n..])
    {
      es := [];
      for i := n to |log|
        invariant es == Announcements(log[n..i])
      {
        assert log[n..i + 1][..i - n] == log[n..i];
        if Announced(log[i]) { es := es + [log[i]]; }
      }
      assert log[n..|log|] == log[n..];
    }

    /** Rebuild the tracker from recovered deltas; later fallback ids cannot collide with recovered ones. */
    method RestoreOpen(deltas: map<OrderId, Delta>, known: set<string>) returns (restored: nat)
      modifies this`open, this`seqNo
      ensures Rebuilt(old(open), open, deltas, known, {})
      ensures old(open) == map[] && deltas == OpenOrderDeltas(log) ==>
                View() == CrashRecovery.Next(limits, old(View()), CrashRecovery.Crash(known))
      ensures restored == |open| - |old(open)|
      ensures PastTails(old(open), open, old(seqNo), seqNo)
    {
      restored := 0;
      var todo := deltas.Keys;
      while todo != {}
        invariant todo <= deltas.Keys
        invariant Rebuilt(old(open), open, deltas, known, todo)
        invariant restored == |open| - |old(open)|
        invariant PastTails(old(open), open, old(seqNo), seqNo)
        decreases |todo|
      {
        var id :| id in todo;
        todo := todo - {id};
        if id in open || deltas[id].ticket.symbol !in known { continue; }
        open := open[id := CrashRecovery.RestoredRecord(deltas[id])];
        if Tail(id).Some? && Tail(id).value > seqNo { seqNo := Tail(id).value; }
        restored := restored + 1;
      }
      if old(open) == map[] && deltas == OpenOrderDeltas(log) { RebuiltIsRestored(open, log, known); }
    }
  }

  /** Tracked records stay; of the deltas, those outside `todo` with a known symbol have become records. */
  ghost predicate Rebuilt(before: map<OrderId, Record>, open: map<OrderId, Record>, deltas: map<OrderId, Delta>,
                          known: set<string>, todo: set<OrderId>) {
    && (forall id :: id in open <==> id in before || (id in deltas && id !in todo && deltas[id].ticket.symbol in known))
    && (forall id :: id in open ==>
          open[id] == if id in before then before[id] else CrashRecovery.RestoredRecord(deltas[id]))
  }

  /** `n` has passed the number an id ends with, if it has one. */
  predicate PastTail(id: OrderId, n: nat) {
    (id.Brk? ==> n >= id.n) && (id.Venue? && id.tail.Some? ==> n >= id.tail.value)
  }

  /** The sequence has passed the number of every id added to the tracker. */
  ghost predicate PastTails(before: map<OrderId, Record>, open: map<OrderId, Record>, n: nat, n': nat) {
    n' >= n && forall id :: id in open && id !in before ==> PastTail(id, n')
  }

  lemma RebuiltIsRestored(open: map<OrderId, Record>, log: seq<Event>, known: set<string>)
    requires Rebuilt(map[], open, OpenOrderDeltas(log), known, {})
    ensures open == CrashRecovery.RestoredOpen(log, known)
  {
  }
}
