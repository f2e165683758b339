/**
 * The append-only event record: the open-order deltas folded from it after a crash, and
 * the order in which market data and fills are replayed.
 */
module EventStore {
  import opened Common
  import Portfolio

  datatype Status = Pending | PartiallyFilled | Completed | Rejected | Cancelled

  predicate Terminal(s: Status) { s == Completed || s == Rejected || s == Cancelled }

  /** `BRK-` ids carry a sequence number; `tail` is the numeric last token of any other id, if it has one. */
  datatype OrderId = Brk(n: nat) | Venue(name: string, tail: Option<nat>)

  datatype Ticket = Ticket(symbol: string, exchange: string, side: Portfolio.Side, quantity: int, strategy: string)

  datatype Event =
    | Market(ts: int, what: int)
    | Accepted(ts: int, id: OrderId, ticket: Ticket)
    | Filled(ts: int, id: OrderId, fill: Portfolio.Fill)
    | Updated(ts: int, id: OrderId, status: Status, filledQty: int)
    | Refused(ts: int, id: OrderId, quantity: int)
    | TimedOut(ts: int, id: OrderId)
    | Derived(ts: int)

  // -------------------------------------------------------- open-order deltas

  datatype Delta = Delta(ticket: Ticket, filled: int, status: Status, placedAt: int)

  function DeltaStep(m: map<OrderId, Delta>, e: Event): map<OrderId, Delta> {
    match e
    case Accepted(ts, id, ticket) => m[id := Delta(ticket, 0, Pending, ts)]
    case Filled(_, id, fill) =>
      if id in m then m[id := m[id].(filled := m[id].filled + fill.quantity)] else m
    case Updated(_, id, status, cum) =>
      if id in m then m[id := m[id].(status := status, filled := Max(m[id].filled, cum))] else m
    case Refused(_, id, _) =>
      if id in m then m[id := m[id].(status := Rejected)] else m
    case _ => m
  }

  function Deltas(log: seq<Event>): map<OrderId, Delta> {
    if log == [] then map[] else DeltaStep(Deltas(log[..|log| - 1]), log[|log| - 1])
  }

  predicate StillOpen(d: Delta) { !Terminal(d.status) && d.ticket.quantity - d.filled > 0 }

  function OpenOrderDeltas(log: seq<Event>): map<OrderId, Delta> {
    var m := Deltas(log);
    map id | id in m && StillOpen(m[id]) :: m[id]
  }

  /** The order was accepted somewhere in the log. */
  predicate WasAccepted(log: seq<Event>, id: OrderId) {
    log != [] && ((log[|log| - 1].Accepted? && log[|log| - 1].id == id) || WasAccepted(log[..|log| - 1], id))
  }

  /** The quantity filled, by the fill events since the order's last acceptance. */
  function FilledSince(log: seq<Event>, id: OrderId): int {
    if log == [] then 0
    else
      var rest, e := log[..|log| - 1], log[|log| - 1];
      if e.Accepted? && e.id == id then 0
      else FilledSince(rest, id) + if e.Filled? && e.id == id then e.fill.quantity else 0
  }

  /** The most by which an update since the acceptance runs ahead of the fills logged before it. */
  function Overhang(log: seq<Event>, id: OrderId): (r: int)
    ensures r >= 0
  {
    if log == [] then 0
    else
      var rest, e := log[..|log| - 1], log[|log| - 1];
      if e.Accepted? && e.id == id then 0
      else if e.Updated? && e.id == id then Max(Overhang(rest, id), e.filledQty - FilledSince(rest, id))
      else Overhang(rest, id)
  }

  /**
   * On every log whatsoever, the recovered count is the fills since acceptance plus the
   * overhang of the updates.
   */
  lemma {:induction false} DeltaIsFillsPlusOverhang(log: seq<Event>, id: OrderId)
    ensures id in Deltas(log) <==> WasAccepted(log, id)
    ensures id in Deltas(log) ==> Deltas(log)[id].filled == FilledSince(log, id) + Overhang(log, id)
  {
    if log != [] { DeltaIsFillsPlusOverhang(log[..|log| - 1], id); }
  }

  /** The update at `k` reports no more than the fills logged before it. */
  ghost predicate Backed(log: seq<Event>, id: OrderId, k: nat)
    requires k < |log|
  {
    log[k].Updated? && log[k].id == id && !WasAccepted(log[k..], id) ==> log[k].filledQty <= FilledSince(log[..k], id)
  }

  /** No update since the acceptance reports more than the fills logged before it. */
  ghost predicate UpdatesBacked(log: seq<Event>, id: OrderId) {
    forall k :: 0 <= k < |log| ==> Backed(log, id, k)
  }

  lemma AcceptedInSuffix(log: seq<Event>, id: OrderId, k: nat)
    requires k < |log|
    ensures WasAccepted(log[k..], id) <==>
            exists j :: k <= j < |log| && log[j].Accepted? && log[j].id == id
  {
    var tail := log[k..];
    AcceptedSomewhere(tail, id);
    if WasAccepted(tail, id) {
      var j :| 0 <= j < |tail| && tail[j].Accepted? && tail[j].id == id;
      assert log[k + j] == tail[j];
    }
    if j :| k <= j < |log| && log[j].Accepted? && log[j].id == id {
      assert tail[j - k] == log[j];
    }
  }

  lemma {:induction false} AcceptedSomewhere(log: seq<Event>, id: OrderId)
    ensures WasAccepted(log, id) <==> exists j :: 0 <= j < |log| && log[j].Accepted? && log[j].id == id
  {
    if log != [] {
      var n := |log| - 1;
      AcceptedSomewhere(log[..n], id);
      if WasAccepted(log[..n], id) {
        var j :| 0 <= j < n && log[..n][j].Accepted? && log[..n][j].id == id;
        assert log[j].Accepted? && log[j].id == id;
      }
      if j :| 0 <= j < |log| && log[j].Accepted? && log[j].id == id {
        if j < n { assert log[..n][j] == log[j]; }
      }
    }
  }

  lemma {:induction false} NoOverhangIffBacked(log: seq<Event>, id: OrderId)
    ensures Overhang(log, id) == 0 <==> UpdatesBacked(log, id)
  {
    if log != [] {
      var n := |log| - 1;
      var rest, e := log[..n], log[n];
      NoOverhangIffBacked(rest, id);
      if e.Accepted? && e.id == id {
        forall k | 0 <= k < |log| ensures Backed(log, id, k) { AcceptedInSuffix(log, id, k); }
      } else {
        forall k | 0 <= k < n ensures Backed(log, id, k) <==> Backed(rest, id, k) {
          AcceptedInSuffix(log, id, k);
          AcceptedInSuffix(rest, id, k);
          assert log[..k] == rest[..k];
          assert forall j :: 0 <= j < n ==> rest[j] == log[j];
          assert WasAccepted(log[k..], id) <==> WasAccepted(rest[k..], id);
        }
        AcceptedInSuffix(log, id, n);
        assert Backed(log, id, n) <==> (e.Updated? && e.id == id ==> e.filledQty <= FilledSince(rest, id));
        assert UpdatesBacked(log, id) <==> UpdatesBacked(rest, id) && Backed(log, id, n) by {
          if UpdatesBacked(log, id) { forall k | 0 <= k < n ensures Backed(rest, id, k) { assert Backed(log, id, k); } }
          if UpdatesBacked(rest, id) { forall k | 0 <= k < n ensures Backed(log, id, k) { assert Backed(rest, id, k); } }
        }
      }
    }
  }

  /** The fold recovers the true filled count exactly on the logs whose updates are backed by fills. */
  lemma DeltaIsExactIffBacked(log: seq<Event>, id: OrderId)
    requires WasAccepted(log, id)
    ensures id in Deltas(log)
    ensures Deltas(log)[id].filled == FilledSince(log, id) <==> UpdatesBacked(log, id)
    ensures Deltas(log)[id].filled >= FilledSince(log, id)
  {
    DeltaIsFillsPlusOverhang(log, id);
    NoOverhangIffBacked(log, id);
  }

  // --------------------------------------------------------------- recovery order

  predicate Causal(e: Event) { e.Market? || e.Filled? }

  /** Sort key (time, market before fill, append index). */
  predicate Before(log: seq<Event>, i: nat, j: nat)
    requires i < |log| && j < |log|
  {
    var a, b := log[i], log[j];
    a.ts < b.ts || (a.ts == b.ts && (if a.Market? == b.Market? then i < j else a.Market?))
  }

  ghost predicate Indices(log: seq<Event>, s: seq<nat>) {
    forall a :: 0 <= a < |s| ==> s[a] < |log| && Causal(log[s[a]])
  }

  ghost predicate Ordered(log: seq<Event>, s: seq<nat>) {
    Indices(log, s) && forall a, b :: 0 <= a < b < |s| ==> Before(log, s[a], s[b])
  }

  function Insert(log: seq<Event>, s: seq<nat>, i: nat): (r: seq<nat>)
    requires Ordered(log, s) && i < |log| && Causal(log[i]) && i !in s
    ensures Ordered(log, r)
    ensures forall x :: x in r <==> x in s || x == i
  {
    if s == [] then [i]
    else if Before(log, i, s[0]) then [i] + s
    else
      var rest := Insert(log, s[1..], i);
      assert s == [s[0]] + s[1..];
      assert forall a :: 0 <= a < |rest| ==> rest[a] in s[1..] || rest[a] == i;
      assert forall a :: 0 <= a < |rest| ==> Before(log, s[0], rest[a]);
      [s[0]] + rest
  }

  /** The causal events among the first `n`, sorted by the key. */
  function SortedUpTo(log: seq<Event>, n: nat): (r: seq<nat>)
    requires n <= |log|
    ensures Ordered(log, r)
    ensures forall x: nat :: x in r <==> x < n && Causal(log[x])
  {
    if n == 0 then []
    else
      var rest := SortedUpTo(log, n - 1);
      if Causal(log[n - 1]) then Insert(log, rest, n - 1) else rest
  }

  function EventsAt(log: seq<Event>, s: seq<nat>): seq<Event>
    requires forall a :: 0 <= a < |s| ==> s[a] < |log|
  {
    seq(|s|, a requires 0 <= a < |s| => log[s[a]])
  }

  function RecoveryEvents(log: seq<Event>): seq<Event> {
    EventsAt(log, SortedUpTo(log, |log|))
  }

  /**
   * What recovery replays: each causal event of the log exactly once, by time, market data
   * ahead of fills of the same time, and append order within each kind.
   */
  lemma RecoveryIsSortedPermutation(log: seq<Event>) returns (order: seq<nat>)
    ensures forall x: nat :: x in order <==> x < |log| && (log[x].Market? || log[x].Filled?)
    ensures forall a :: 0 <= a < |order| ==> order[a] < |log|
    ensures RecoveryEvents(log) == EventsAt(log, order)
    ensures forall a, b :: 0 <= a < b < |order| ==> order[a] != order[b]
    ensures forall a, b :: 0 <= a < b < |order| ==>
              var x, y := log[order[a]], log[order[b]];
              && x.ts <= y.ts
              && (x.ts == y.ts && y.Market? ==> x.Market?)
              && (x.ts == y.ts && x.Market? == y.Market? ==> order[a] < order[b])
  {
    order := SortedUpTo(log, |log|);
    forall a, b | 0 <= a < b < |order|
      ensures var x, y := log[order[a]], log[order[b]];
              && order[a] != order[b] && x.ts <= y.ts
              && (x.ts == y.ts && y.Market? ==> x.Market?)
              && (x.ts == y.ts && x.Market? == y.Market? ==> order[a] < order[b])
    {
      assert Before(log, order[a], order[b]);
    }
  }

  // ------------------------------------------------------------ replaying the fills

  function FillsIn(events: seq<Event>): seq<Event> {
    if events == [] then []
    else
      var e := events[|events| - 1];
      FillsIn(events[..|events| - 1]) + if e.Filled? then [e] else []
  }

  ghost predicate TimeSorted(events: seq<Event>) {
    forall a, b :: 0 <= a < b < |events| ==> events[a].ts <= events[b].ts
  }

  lemma {:induction false} FillsInSplit(xs: seq<Event>, ys: seq<Event>)
    ensures FillsIn(xs + ys) == FillsIn(xs) + FillsIn(ys)
  {
    if ys == [] {
      assert xs + ys == xs;
    } else {
      var n := |ys| - 1;
      assert (xs + ys)[..|xs + ys| - 1] == xs + ys[..n];
      FillsInSplit(xs, ys[..n]);
    }
  }

  lemma FillsInOne(e: Event)
    ensures FillsIn([e]) == if e.Filled? then [e] else []
  {
    assert [e][..0] == [];
  }

  lemma {:induction false} FillsInSubset(events: seq<Event>)
    ensures forall e :: e in FillsIn(events) ==> e in events && e.Filled?
    ensures TimeSorted(events) ==> TimeSorted(FillsIn(events))
  {
    if events != [] {
      var n := |events| - 1;
      FillsInSubset(events[..n]);
      assert forall e :: e in events[..n] ==> e in events;
      if TimeSorted(events) {
        var fs, rest := FillsIn(events), FillsIn(events[..n]);
        forall a, b | 0 <= a < b < |fs| ensures fs[a].ts <= fs[b].ts {
          if b == |rest| { assert rest[a] in events[..n]; }
        }
      }
    }
  }

  lemma FillsAtCons(log: seq<Event>, x: nat, s: seq<nat>)
    requires x < |log| && forall a :: 0 <= a < |s| ==> s[a] < |log|
    ensures FillsIn(EventsAt(log, [x] + s)) == (if log[x].Filled? then [log[x]] else []) + FillsIn(EventsAt(log, s))
  {
    assert EventsAt(log, [x] + s) == [log[x]] + EventsAt(log, s);
    FillsInSplit([log[x]], EventsAt(log, s));
    FillsInOne(log[x]);
  }

  lemma FillsBehind(log: seq<Event>, x: nat, t: seq<nat>, r: seq<nat>, more: seq<Event>)
    requires x < |log| && (forall a :: 0 <= a < |t| ==> t[a] < |log|) && (forall a :: 0 <= a < |r| ==> r[a] < |log|)
    requires FillsIn(EventsAt(log, r)) == FillsIn(EventsAt(log, t)) + more
    ensures FillsIn(EventsAt(log, [x] + r)) == FillsIn(EventsAt(log, [x] + t)) + more
  {
    FillsAtCons(log, x, t);
    FillsAtCons(log, x, r);
  }

  ghost predicate LatestFill(log: seq<Event>, s: seq<nat>, i: nat)
    requires Ordered(log, s) && i < |log|
  {
    && (forall a :: 0 <= a < |s| ==> s[a] < i)
    && (log[i].Filled? ==> forall a :: 0 <= a < |s| && log[s[a]].Filled? ==> log[s[a]].ts <= log[i].ts)
  }

  /** Inserting leaves the other fills in place; a fill no earlier than all of them goes last. */
  lemma {:induction false} InsertAmongFills(log: seq<Event>, s: seq<nat>, i: nat)
    requires Ordered(log, s) && i < |log| && Causal(log[i]) && LatestFill(log, s, i)
    ensures FillsIn(EventsAt(log, Insert(log, s, i)))
            == FillsIn(EventsAt(log, s)) + if log[i].Filled? then [log[i]] else []
  {
    if s == [] {
      FillsAtCons(log, i, []);
      assert [i] + [] == [i];
    } else if Before(log, i, s[0]) {
      FillsAtCons(log, i, s);
      if log[i].Filled? { NoLaterFills(log, s, i); }
    } else {
      var t := s[1..];
      assert Ordered(log, t) && s == [s[0]] + t;
      assert LatestFill(log, t, i);
      InsertAmongFills(log, t, i);
      FillsBehind(log, s[0], t, Insert(log, t, i), if log[i].Filled? then [log[i]] else []);
    }
  }

  lemma NoLaterFills(log: seq<Event>, s: seq<nat>, i: nat)
    requires Ordered(log, s) && s != [] && i < |log| && log[i].Filled? && Before(log, i, s[0]) && LatestFill(log, s, i)
    ensures FillsIn(EventsAt(log, s)) == []
  {
    forall a | 0 <= a < |s| ensures !log[s[a]].Filled? {
      assert a > 0 ==> Before(log, s[0], s[a]);
    }
    FillFree(EventsAt(log, s));
  }

  lemma {:induction false} FillFree(events: seq<Event>)
    requires forall a :: 0 <= a < |events| ==> !events[a].Filled?
    ensures FillsIn(events) == []
  {
    if events != [] { FillFree(events[..|events| - 1]); }
  }

  lemma {:induction false} SortedFillsUpTo(log: seq<Event>, n: nat)
    requires n <= |log| && TimeSorted(FillsIn(log[..n]))
    ensures FillsIn(EventsAt(log, SortedUpTo(log, n))) == FillsIn(log[..n])
  {
    if n > 0 {
      var e := log[n - 1];
      var before, after := FillsIn(log[..n - 1]), FillsIn(log[..n]);
      assert log[..n][..n - 1] == log[..n - 1];
      assert after[..|before|] == before;
      SortedFillsUpTo(log, n - 1);
      var s := SortedUpTo(log, n - 1);
      if Causal(e) {
        forall a | 0 <= a < |s| && log[s[a]].Filled? && e.Filled? ensures log[s[a]].ts <= e.ts {
          FillsAreListed(log[..n - 1], s[a]);
          var k :| 0 <= k < |before| && before[k] == log[s[a]];
          assert after[k] == before[k] && after[|before|] == e;
        }
        InsertAmongFills(log, s, n - 1);
      }
    } else {
      assert EventsAt(log, SortedUpTo(log, 0)) == [];
    }
  }

  lemma {:induction false} FillsAreListed(events: seq<Event>, k: nat)
    requires k < |events| && events[k].Filled?
    ensures events[k] in FillsIn(events)
  {
    var n := |events| - 1;
    if k < n { FillsAreListed(events[..n], k); }
  }

  /** Recovery replays the fills in the order they were logged exactly when their times never decrease. */
  lemma FillOrderKeptIffTimesSorted(log: seq<Event>)
    ensures FillsIn(RecoveryEvents(log)) == FillsIn(log) <==> TimeSorted(FillsIn(log))
  {
    var order := RecoveryIsSortedPermutation(log);
    assert TimeSorted(RecoveryEvents(log));
    FillsInSubset(RecoveryEvents(log));
    assert log[..|log|] == log;
    if TimeSorted(FillsIn(log)) { SortedFillsUpTo(log, |log|); }
  }

  function Payloads(events: seq<Event>): seq<Portfolio.Fill>
    requires forall a :: 0 <= a < |events| ==> events[a].Filled?
  {
    seq(|events|, a requires 0 <= a < |events| => events[a].fill)
  }

  function LoggedFills(events: seq<Event>): seq<Portfolio.Fill> {
    FillsInSubset(events);
    Payloads(FillsIn(events))
  }

  lemma LoggedFillsAppend(events: seq<Event>, e: Event)
    ensures LoggedFills(events + [e]) == LoggedFills(events) + if e.Filled? then [e.fill] else []
  {
    assert (events + [e])[..|events|] == events;
  }

  /** With fill times never decreasing, recovery rebuilds the very same positions and cash. */
  lemma RecoveryRebuildsPortfolio(log: seq<Event>, start: Portfolio.Book)
    requires TimeSorted(FillsIn(log))
    ensures Portfolio.Replay(start, LoggedFills(RecoveryEvents(log))) == Portfolio.Replay(start, LoggedFills(log))
  {
    FillOrderKeptIffTimesSorted(log);
  }

  // ---------------------------------------------------------------------- the store

  class Store {
    var events: seq<Event>

    constructor ()
      ensures events == []
    {
      events := [];
    }

    method Append(e: Event)
      modifies this
      ensures events == old(events) + [e]
    {
      events := events + [e];
    }

    /** The dictionary walk over the record, then the filter on what is still open. */
    method OpenDeltas() returns (open: map<OrderId, Delta>)
      ensures open == OpenOrderDeltas(events)
    {
      var deltas: map<OrderId, Delta> := map[];
      for i := 0 to |events|
        invariant deltas == Deltas(events[..i])
      {
        assert events[..i + 1][..i] == events[..i];
        var e := events[i];
        match e
        case Accepted(ts, id, ticket) => deltas := deltas[id := Delta(ticket, 0, Pending, ts)];
        case Filled(_, id, fill) =>
          if id in deltas { deltas := deltas[id := deltas[id].(filled := deltas[id].filled + fill.quantity)]; }
        case Updated(_, id, status, cum) =>
          if id in deltas {
            var rec := deltas[id].(status := status);
            if cum > rec.filled { rec := rec.(filled := cum); }
            deltas := deltas[id := rec];
          }
        case Refused(_, id, _) =>
          if id in deltas { deltas := deltas[id := deltas[id].(status := Rejected)]; }
        case _ =>
      }
      assert events[..|events|] == events;
      open := map id | id in deltas && StillOpen(deltas[id]) :: deltas[id];
    }
  }
}
