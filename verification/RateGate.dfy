/**
 * The broker rate gate: several sliding windows per quota class, a pruned deque per
 * window, and a cooldown.  Each lock-guarded section is one atomic step over a
 * monotone clock; a run is any interleaving of such steps, over all classes.
 */
module RateGate {

  datatype Quota = QuoteClass | DataClass | OrderClass | NonTrading

  datatype Window = Window(span: real, limit: int)

  /** The Dhan defaults. */
  function DefaultWindows(q: Quota): seq<Window> {
    match q
    case QuoteClass => [Window(1.0, 1)]
    case DataClass => [Window(1.0, 5), Window(86400.0, 100000)]
    case OrderClass => [Window(1.0, 10), Window(60.0, 250), Window(3600.0, 1000), Window(86400.0, 7000)]
    case NonTrading => [Window(1.0, 20)]
  }

  /** A window without capacity for a single call makes the source index an empty deque. */
  ghost predicate Configured(ws: seq<Window>) {
    forall i :: 0 <= i < |ws| ==> ws[i].limit >= 1
  }

  // ---------------------------------------------------------------- one class

  /** One quota class: its deques, its cooldown, and every grant it ever made. */
  datatype Lane = Lane(deques: seq<seq<real>>, cooldownUntil: real, granted: seq<real>)

  function Pruned(dq: seq<real>, horizon: real): seq<real> {
    if dq != [] && dq[0] <= horizon then Pruned(dq[1..], horizon) else dq
  }

  function PruneAll(ws: seq<Window>, dqs: seq<seq<real>>, now: real): seq<seq<real>>
    requires |dqs| == |ws|
  {
    seq(|ws|, i requires 0 <= i < |ws| => Pruned(dqs[i], now - ws[i].span))
  }

  /** The wait that one pruned window asks for. */
  function WindowWait(w: Window, dq: seq<real>, now: real): real
    requires w.limit >= 1
  {
    if |dq| >= w.limit then dq[0] + w.span - now else 0.0
  }

  function LongestWait(ws: seq<Window>, dqs: seq<seq<real>>, now: real): real
    requires |dqs| == |ws| && Configured(ws)
  {
    if ws == [] then 0.0
    else
      var n := |ws| - 1;
      var rest := LongestWait(ws[..n], dqs[..n], now);
      var w := WindowWait(ws[n], dqs[n], now);
      if w > rest then w else rest
  }

  /** What `_compute_wait` answers, and the deques it leaves behind. */
  function WaitAt(ws: seq<Window>, l: Lane, now: real): real
    requires |l.deques| == |ws| && Configured(ws)
  {
    if l.cooldownUntil - now > 0.0 then l.cooldownUntil - now else LongestWait(ws, PruneAll(ws, l.deques, now), now)
  }

  function KeptAt(ws: seq<Window>, l: Lane, now: real): seq<seq<real>>
    requires |l.deques| == |ws|
  {
    if l.cooldownUntil - now > 0.0 then l.deques else PruneAll(ws, l.deques, now)
  }

  /** The lock-guarded section of one retry: `now` is the first clock read, `stamp` the second. */
  function Attempt(ws: seq<Window>, l: Lane, now: real, stamp: real): (Lane, real)
    requires |l.deques| == |ws| && Configured(ws)
  {
    var dqs := KeptAt(ws, l, now);
    var wait := WaitAt(ws, l, now);
    if wait <= 0.0 then
      (Lane(seq(|dqs|, i requires 0 <= i < |dqs| => dqs[i] + [stamp]), l.cooldownUntil, l.granted + [stamp]), wait)
    else
      (l.(deques := dqs), wait)
  }

  function Penalized(l: Lane, now: real, seconds: real): Lane {
    l.(cooldownUntil := if l.cooldownUntil >= now + seconds then l.cooldownUntil else now + seconds)
  }

  // ------------------------------------------------------------- the invariant

  ghost predicate Sorted(g: seq<real>) {
    forall i, j :: 0 <= i < j < |g| ==> g[i] <= g[j]
  }

  /** The deque is what is left of the grant log after dropping expired entries only. */
  ghost predicate Retains(w: Window, dq: seq<real>, g: seq<real>, clock: real) {
    && |dq| <= |g| && |dq| <= w.limit
    && dq == g[|g| - |dq|..]
    && forall j :: 0 <= j < |g| - |dq| ==> g[j] + w.span <= clock
  }

  /** Any grant is at least `span` later than the one `limit` places before it. */
  ghost predicate Spaced(w: Window, g: seq<real>) {
    forall j, k :: 0 <= j < k < |g| && k == j + w.limit ==> g[j] + w.span <= g[k]
  }

  ghost predicate WindowInv(w: Window, dq: seq<real>, g: seq<real>, clock: real) {
    Retains(w, dq, g, clock) && Spaced(w, g)
  }

  /** The log runs forward and has not overtaken the clock. */
  ghost predicate LogInv(g: seq<real>, clock: real) {
    Sorted(g) && forall j :: 0 <= j < |g| ==> g[j] <= clock
  }

  ghost predicate LaneInv(ws: seq<Window>, l: Lane, clock: real) {
    && |l.deques| == |ws| && Configured(ws)
    && LogInv(l.granted, clock)
    && forall i :: 0 <= i < |ws| ==> WindowInv(ws[i], l.deques[i], l.granted, clock)
  }

  /** A pruned deque: nothing in it has expired. */
  ghost predicate Unexpired(w: Window, p: seq<real>, now: real) {
    forall j :: 0 <= j < |p| ==> p[j] > now - w.span
  }

  /** Grants in the half-open interval (lo, hi]. */
  function CountIn(g: seq<real>, lo: real, hi: real): nat {
    if g == [] then 0
    else CountIn(g[..|g| - 1], lo, hi) + if lo < g[|g| - 1] <= hi then 1 else 0
  }

  lemma {:induction false} PrunedIsSuffix(dq: seq<real>, horizon: real)
    requires Sorted(dq)
    ensures var p := Pruned(dq, horizon);
            && |p| <= |dq| && p == dq[|dq| - |p|..]
            && (forall j :: 0 <= j < |dq| - |p| ==> dq[j] <= horizon)
            && (forall j :: |dq| - |p| <= j < |dq| ==> dq[j] > horizon)
  {
    if dq != [] && dq[0] <= horizon {
      PrunedIsSuffix(dq[1..], horizon);
      var p := Pruned(dq, horizon);
      assert p == dq[1..][|dq| - 1 - |p|..] == dq[|dq| - |p|..];
      forall j | 0 <= j < |dq| - |p| ensures dq[j] <= horizon {
        if j > 0 { assert dq[j] == dq[1..][j - 1]; }
      }
      forall j | |dq| - |p| <= j < |dq| ensures dq[j] > horizon { assert dq[j] == dq[1..][j - 1]; }
    }
  }

  lemma SuffixOfSuffix(g: seq<real>, dq: seq<real>, p: seq<real>)
    requires |p| <= |dq| <= |g| && dq == g[|g| - |dq|..] && p == dq[|dq| - |p|..]
    ensures p == g[|g| - |p|..]
  {
  }

  lemma {:induction false} PruneKeepsWindow(w: Window, dq: seq<real>, g: seq<real>, clock: real, now: real)
    requires LogInv(g, clock) && WindowInv(w, dq, g, clock) && clock <= now
    ensures var p := Pruned(dq, now - w.span); WindowInv(w, p, g, now) && Unexpired(w, p, now)
  {
    var d := |g| - |dq|;
    assert forall j :: 0 <= j < |dq| ==> dq[j] == g[d + j];
    PrunedIsSuffix(dq, now - w.span);
    var p := Pruned(dq, now - w.span);
    SuffixOfSuffix(g, dq, p);
    DroppedExpired(w, dq, g, clock, now, |p|);
    assert forall j :: 0 <= j < |p| ==> p[j] == dq[|dq| - |p| + j];
  }

  /** What pruning drops, and what was dropped before, has expired. */
  lemma DroppedExpired(w: Window, dq: seq<real>, g: seq<real>, clock: real, now: real, kept: nat)
    requires kept <= |dq| && Retains(w, dq, g, clock) && clock <= now
    requires forall j :: 0 <= j < |dq| - kept ==> dq[j] <= now - w.span
    ensures forall j :: 0 <= j < |g| - kept ==> g[j] + w.span <= now
  {
    var d := |g| - |dq|;
    forall j | 0 <= j < |g| - kept ensures g[j] + w.span <= now {
      if j >= d { assert g[j] == dq[j - d]; }
    }
  }

  /** Appending a grant to a window that has room keeps everything the window promises. */
  lemma GrantKeepsWindow(w: Window, p: seq<real>, g: seq<real>, now: real, stamp: real)
    requires WindowInv(w, p, g, now) && |p| < w.limit && now <= stamp
    ensures WindowInv(w, p + [stamp], g + [stamp], stamp)
  {
    var g' := g + [stamp];
    assert p + [stamp] == g'[|g'| - |p + [stamp]|..];
    forall j, k | 0 <= j < k < |g'| && k == j + w.limit ensures g'[j] + w.span <= g'[k] {
      if k == |g| { assert g[j] + w.span <= now; }
    }
  }

  lemma {:induction false} LongestWaitFacts(ws: seq<Window>, dqs: seq<seq<real>>, now: real)
    requires |dqs| == |ws| && Configured(ws)
    ensures LongestWait(ws, dqs, now) >= 0.0
    ensures forall i :: 0 <= i < |ws| ==> WindowWait(ws[i], dqs[i], now) <= LongestWait(ws, dqs, now)
    ensures LongestWait(ws, dqs, now) == 0.0
            || exists i :: 0 <= i < |ws| && LongestWait(ws, dqs, now) == WindowWait(ws[i], dqs[i], now)
  {
    if ws != [] {
      var n := |ws| - 1;
      LongestWaitFacts(ws[..n], dqs[..n], now);
      forall i | 0 <= i < |ws| ensures WindowWait(ws[i], dqs[i], now) <= LongestWait(ws, dqs, now) {
        if i < n { assert ws[..n][i] == ws[i] && dqs[..n][i] == dqs[i]; }
      }
      if LongestWait(ws, dqs, now) != 0.0 && LongestWait(ws, dqs, now) != WindowWait(ws[n], dqs[n], now) {
        var i :| 0 <= i < n && LongestWait(ws[..n], dqs[..n], now) == WindowWait(ws[..n][i], dqs[..n][i], now);
        assert LongestWait(ws, dqs, now) == WindowWait(ws[i], dqs[i], now);
      }
    }
  }

  lemma PrunedLane(ws: seq<Window>, l: Lane, clock: real, now: real)
    requires LaneInv(ws, l, clock) && clock <= now
    ensures var dqs := PruneAll(ws, l.deques, now);
            && LaneInv(ws, l.(deques := dqs), now)
            && forall i :: 0 <= i < |ws| ==> Unexpired(ws[i], dqs[i], now)
  {
    var dqs := PruneAll(ws, l.deques, now);
    forall i | 0 <= i < |ws|
      ensures WindowInv(ws[i], dqs[i], l.granted, now) && Unexpired(ws[i], dqs[i], now)
    {
      PruneKeepsWindow(ws[i], l.deques[i], l.granted, clock, now);
    }
  }

  /** There is nothing to wait for exactly when every pruned window has room. */
  lemma NoWaitIffRoom(ws: seq<Window>, dqs: seq<seq<real>>, now: real)
    requires |dqs| == |ws| && Configured(ws)
    requires forall i :: 0 <= i < |ws| ==> Unexpired(ws[i], dqs[i], now)
    ensures LongestWait(ws, dqs, now) <= 0.0 <==> (forall i :: 0 <= i < |ws| ==> |dqs[i]| < ws[i].limit)
  {
    LongestWaitFacts(ws, dqs, now);
    forall i | 0 <= i < |ws| ensures WindowWait(ws[i], dqs[i], now) <= 0.0 <==> |dqs[i]| < ws[i].limit {
      assert Unexpired(ws[i], dqs[i], now);
    }
  }

  /** Every retry keeps the invariant, whether it grants, waits or sits out a cooldown. */
  lemma AttemptKeepsInv(ws: seq<Window>, l: Lane, clock: real, now: real, stamp: real)
    requires LaneInv(ws, l, clock) && clock <= now <= stamp
    ensures LaneInv(ws, Attempt(ws, l, now, stamp).0, stamp)
  {
    if l.cooldownUntil - now > 0.0 {
      LaneInvLater(ws, l, clock, stamp);
    } else {
      PrunedLane(ws, l, clock, now);
      var pruned := l.(deques := PruneAll(ws, l.deques, now));
      NoWaitIffRoom(ws, pruned.deques, now);
      if LongestWait(ws, pruned.deques, now) <= 0.0 {
        GrantKeepsLane(ws, pruned, now, stamp);
      } else {
        LaneInvLater(ws, pruned, now, stamp);
      }
    }
  }

  /** Granting in a lane whose windows all have room. */
  lemma GrantKeepsLane(ws: seq<Window>, l: Lane, now: real, stamp: real)
    requires LaneInv(ws, l, now) && now <= stamp && forall i :: 0 <= i < |ws| ==> |l.deques[i]| < ws[i].limit
    ensures var dqs := l.deques;
            LaneInv(ws, Lane(seq(|dqs|, i requires 0 <= i < |dqs| => dqs[i] + [stamp]), l.cooldownUntil, l.granted + [stamp]), stamp)
  {
    forall i | 0 <= i < |ws| ensures WindowInv(ws[i], l.deques[i] + [stamp], l.granted + [stamp], stamp) {
      GrantKeepsWindow(ws[i], l.deques[i], l.granted, now, stamp);
    }
  }

  lemma LaneInvLater(ws: seq<Window>, l: Lane, clock: real, later: real)
    requires LaneInv(ws, l, clock) && clock <= later
    ensures LaneInv(ws, l, later)
  {
    forall i | 0 <= i < |ws| ensures WindowInv(ws[i], l.deques[i], l.granted, later) {
      assert WindowInv(ws[i], l.deques[i], l.granted, clock);
    }
  }

  // ------------------------------------------------------- counting and safety

  lemma {:induction false} CountRange(g: seq<real>, lo: real, hi: real, a: nat, b: nat)
    requires a <= b <= |g|
    requires forall j :: 0 <= j < |g| && !(a <= j < b) ==> !(lo < g[j] <= hi)
    ensures CountIn(g, lo, hi) <= b - a
    ensures (forall j :: a <= j < b ==> lo < g[j] <= hi) ==> CountIn(g, lo, hi) == b - a
  {
    if g != [] {
      var n := |g| - 1;
      CountRange(g[..n], lo, hi, if a <= n then a else n, if b <= n then b else n);
    }
  }

  /** How many grants lie at or before `t` in a sorted log. */
  lemma PrefixUpTo(g: seq<real>, t: real) returns (m: nat)
    requires Sorted(g)
    ensures m <= |g| && (forall j :: 0 <= j < m ==> g[j] <= t) && (forall j :: m <= j < |g| ==> g[j] > t)
  {
    m := 0;
    while m < |g| && g[m] <= t
      invariant m <= |g| && forall j :: 0 <= j < m ==> g[j] <= t
    {
      m := m + 1;
    }
  }

  /** Spacing bounds the load of every interval of length `span`, wherever it ends. */
  lemma SpacingBoundsEveryInterval(w: Window, g: seq<real>, t: real)
    requires w.limit >= 1 && Sorted(g) && Spaced(w, g)
    ensures CountIn(g, t - w.span, t) <= w.limit
  {
    var m := PrefixUpTo(g, t);
    var a := if m < w.limit then 0 else m - w.limit;
    forall j | 0 <= j < |g| && !(a <= j < m) ensures !(t - w.span < g[j] <= t) {
      if j < a { assert g[j] + w.span <= g[j + w.limit] <= t; }
    }
    CountRange(g, t - w.span, t, a, m);
  }

  /** A pruned deque holds exactly the grants of the last `span` seconds. */
  lemma PrunedLengthIsCount(w: Window, p: seq<real>, g: seq<real>, now: real)
    requires WindowInv(w, p, g, now) && LogInv(g, now) && Unexpired(w, p, now)
    ensures |p| == CountIn(g, now - w.span, now)
  {
    assert forall j :: |g| - |p| <= j < |g| ==> g[j] == p[j - (|g| - |p|)];
    CountRange(g, now - w.span, now, |g| - |p|, |g|);
  }

  /** Room in one window, read off the complete grant log instead of the deque. */
  ghost predicate Room(w: Window, g: seq<real>, now: real) {
    CountIn(g, now - w.span, now) < w.limit
  }

  ghost predicate HasCapacity(ws: seq<Window>, l: Lane, now: real) {
    l.cooldownUntil <= now && forall i :: 0 <= i < |ws| ==> Room(ws[i], l.granted, now)
  }

  /** After pruning, the deques have room exactly where the grant log has. */
  lemma RoomIsPrunedRoom(ws: seq<Window>, l: Lane, now: real)
    requires LaneInv(ws, l, now)
    requires forall i :: 0 <= i < |ws| ==> Unexpired(ws[i], l.deques[i], now)
    ensures (forall i :: 0 <= i < |ws| ==> Room(ws[i], l.granted, now))
            <==> (forall i :: 0 <= i < |ws| ==> |l.deques[i]| < ws[i].limit)
  {
    forall i | 0 <= i < |ws| ensures Room(ws[i], l.granted, now) <==> |l.deques[i]| < ws[i].limit {
      assert WindowInv(ws[i], l.deques[i], l.granted, now);
      PrunedLengthIsCount(ws[i], l.deques[i], l.granted, now);
    }
  }

  /** Work conservation: a retry grants exactly when the cooldown is over and no window is full. */
  lemma GrantsExactlyWhenCapacity(ws: seq<Window>, l: Lane, clock: real, now: real, stamp: real)
    requires LaneInv(ws, l, clock) && clock <= now <= stamp
    ensures Attempt(ws, l, now, stamp).1 <= 0.0 <==> HasCapacity(ws, l, now)
    ensures Attempt(ws, l, now, stamp).0.granted == if HasCapacity(ws, l, now) then l.granted + [stamp] else l.granted
    ensures Attempt(ws, l, now, stamp).0.cooldownUntil == l.cooldownUntil
  {
    PrunedLane(ws, l, clock, now);
    var dqs := PruneAll(ws, l.deques, now);
    NoWaitIffRoom(ws, dqs, now);
    RoomIsPrunedRoom(ws, l.(deques := dqs), now);
  }

  /** Entries of an unpruned deque still inside the window: the `used` telemetry. */
  function Used(w: Window, dq: seq<real>, now: real): nat {
    if dq == [] then 0 else Used(w, dq[..|dq| - 1], now) + if dq[|dq| - 1] > now - w.span then 1 else 0
  }

  lemma {:induction false} UsedIsCount(w: Window, dq: seq<real>, now: real)
    requires forall j :: 0 <= j < |dq| ==> dq[j] <= now
    ensures Used(w, dq, now) == CountIn(dq, now - w.span, now)
  {
    if dq != [] { UsedIsCount(w, dq[..|dq| - 1], now); }
  }

  lemma {:induction false} CountSuffix(g: seq<real>, d: nat, lo: real, hi: real)
    requires d <= |g|
    requires forall j :: 0 <= j < d ==> !(lo < g[j] <= hi)
    ensures CountIn(g[d..], lo, hi) == CountIn(g, lo, hi)
  {
    if d < |g| {
      CountSuffix(g[..|g| - 1], d, lo, hi);
      assert g[..|g| - 1][d..] == g[d..][..|g[d..]| - 1];
    } else {
      CountRange(g, lo, hi, 0, 0);
    }
  }

  lemma {:induction false} UsedAtMostAll(w: Window, dq: seq<real>, now: real)
    ensures Used(w, dq, now) <= |dq|
  {
    if dq != [] { UsedAtMostAll(w, dq[..|dq| - 1], now); }
  }

  /**
   * The status report, taken without pruning, never shows more than the limit, even when its
   * clock was read before the last grant; read after it, it tells the true load of each window.
   */
  lemma StatusReportsTrueLoad(ws: seq<Window>, l: Lane, clock: real, now: real, i: nat)
    requires LaneInv(ws, l, clock) && i < |ws|
    ensures Used(ws[i], l.deques[i], now) <= ws[i].limit
    ensures clock <= now ==> Used(ws[i], l.deques[i], now) == CountIn(l.granted, now - ws[i].span, now)
  {
    var d := |l.granted| - |l.deques[i]|;
    assert WindowInv(ws[i], l.deques[i], l.granted, clock);
    UsedAtMostAll(ws[i], l.deques[i], now);
    if clock <= now {
      assert forall j :: 0 <= j < |l.deques[i]| ==> l.deques[i][j] == l.granted[d + j];
      UsedIsCount(ws[i], l.deques[i], now);
      CountSuffix(l.granted, d, now - ws[i].span, now);
    }
  }

  // ------------------------------------------------------------ whole-gate runs

  datatype Gate = Gate(lanes: map<Quota, Lane>, clock: real)

  /** `now` and `stamp` are the clock reads of the step, `seconds` a penalty. */
  datatype Step = TryAcquire(q: Quota, now: real, stamp: real) | Penalize(q: Quota, now: real, seconds: real)

  type Config = Quota -> seq<Window>

  ghost predicate WellConfigured(c: Config) {
    forall q: Quota :: Configured(c(q))
  }

  ghost predicate GateInv(c: Config, g: Gate) {
    && WellConfigured(c)
    && forall q: Quota :: q in g.lanes && LaneInv(c(q), g.lanes[q], g.clock)
  }

  function Fresh(c: Config, clock: real): Gate {
    Gate(map q: Quota | true :: Lane(seq(|c(q)|, _ => []), 0.0, []), clock)
  }

  /** The clock never runs backwards, neither between steps nor inside one. */
  predicate InTime(g: Gate, s: Step) {
    g.clock <= s.now && (s.TryAcquire? ==> s.now <= s.stamp)
  }

  /** One deque per configured window, in every class. */
  ghost predicate Shaped(c: Config, g: Gate) {
    forall q: Quota :: q in g.lanes && |g.lanes[q].deques| == |c(q)| && Configured(c(q))
  }

  ghost function Next(c: Config, g: Gate, s: Step): Gate
    requires Shaped(c, g)
  {
    match s
    case TryAcquire(q, now, stamp) => Gate(g.lanes[q := Attempt(c(q), g.lanes[q], now, stamp).0], stamp)
    case Penalize(q, now, seconds) => Gate(g.lanes[q := Penalized(g.lanes[q], now, seconds)], now)
  }

  ghost predicate StepTo(c: Config, g: Gate, s: Step, g': Gate) {
    Shaped(c, g) && InTime(g, s) && g' == Next(c, g, s)
  }

  lemma InvIsShaped(c: Config, g: Gate)
    requires GateInv(c, g)
    ensures Shaped(c, g)
  {
    forall q: Quota ensures q in g.lanes && |g.lanes[q].deques| == |c(q)| && Configured(c(q)) {
      assert LaneInv(c(q), g.lanes[q], g.clock);
    }
  }

  lemma NextKeepsInv(c: Config, g: Gate, s: Step)
    requires GateInv(c, g) && Shaped(c, g) && InTime(g, s)
    ensures GateInv(c, Next(c, g, s))
  {
    if s.TryAcquire? { AttemptKeepsInv(c(s.q), g.lanes[s.q], g.clock, s.now, s.stamp); }
    var g' := Next(c, g, s);
    forall q: Quota ensures q in g'.lanes && LaneInv(c(q), g'.lanes[q], g'.clock) {
      if q != s.q || s.Penalize? { LaneInvLater(c(q), g.lanes[q], g.clock, g'.clock); }
    }
  }

  /** `states` is a run of the gate: any interleaving of acquires and penalties. */
  ghost predicate Run(c: Config, steps: seq<Step>, states: seq<Gate>) {
    && |states| == |steps| + 1
    && states[0] == Fresh(c, states[0].clock)
    && forall k :: 0 <= k < |steps| ==> StepTo(c, states[k], steps[k], states[k + 1])
  }

  lemma FreshInv(c: Config, clock: real)
    requires WellConfigured(c)
    ensures GateInv(c, Fresh(c, clock))
  {
    var g := Fresh(c, clock);
    forall q: Quota ensures q in g.lanes && LaneInv(c(q), g.lanes[q], g.clock) {
      assert Configured(c(q));
      forall i | 0 <= i < |c(q)| ensures WindowInv(c(q)[i], g.lanes[q].deques[i], [], g.clock) { }
    }
  }

  lemma {:induction false} RunKeepsInv(c: Config, steps: seq<Step>, states: seq<Gate>, k: nat)
    requires WellConfigured(c) && Run(c, steps, states) && k < |states|
    ensures GateInv(c, states[k])
  {
    if k == 0 {
      FreshInv(c, states[0].clock);
    } else {
      RunKeepsInv(c, steps, states, k - 1);
      assert StepTo(c, states[k - 1], steps[k - 1], states[k - 1 + 1]);
      NextKeepsInv(c, states[k - 1], steps[k - 1]);
    }
  }

  lemma LaneSafety(ws: seq<Window>, l: Lane, clock: real, i: nat, t: real)
    requires LaneInv(ws, l, clock) && i < |ws|
    ensures CountIn(l.granted, t - ws[i].span, t) <= ws[i].limit
  {
    assert WindowInv(ws[i], l.deques[i], l.granted, clock);
    SpacingBoundsEveryInterval(ws[i], l.granted, t);
  }

  /**
   * Sliding-window safety: at every point of every interleaving, for every class, every
   * configured window and every instant `t`, at most `limit` grants fall in (t - span, t].
   */
  lemma SlidingWindowSafety(c: Config, steps: seq<Step>, states: seq<Gate>, k: nat,
                            q: Quota, i: nat, t: real)
    requires WellConfigured(c) && Run(c, steps, states) && k < |states| && i < |c(q)|
    ensures q in states[k].lanes && CountIn(states[k].lanes[q].granted, t - c(q)[i].span, t) <= c(q)[i].limit
  {
    RunKeepsInv(c, steps, states, k);
    LaneSafety(c(q), states[k].lanes[q], states[k].clock, i, t);
  }

  /** Under the Dhan defaults: never more than 10 orders a second, 250 a minute, 1000 an hour, 7000 a day. */
  lemma DefaultOrderLimits(steps: seq<Step>, states: seq<Gate>, k: nat, t: real)
    requires Run(DefaultWindows, steps, states) && k < |states|
    ensures OrderClass in states[k].lanes
    ensures var g := states[k].lanes[OrderClass].granted;
            && CountIn(g, t - 1.0, t) <= 10 && CountIn(g, t - 60.0, t) <= 250
            && CountIn(g, t - 3600.0, t) <= 1000 && CountIn(g, t - 86400.0, t) <= 7000
  {
    assert WellConfigured(DefaultWindows);
    assert DefaultWindows(OrderClass) == [Window(1.0, 10), Window(60.0, 250), Window(3600.0, 1000), Window(86400.0, 7000)];
    SlidingWindowSafety(DefaultWindows, steps, states, k, OrderClass, 0, t);
    SlidingWindowSafety(DefaultWindows, steps, states, k, OrderClass, 1, t);
    SlidingWindowSafety(DefaultWindows, steps, states, k, OrderClass, 2, t);
    SlidingWindowSafety(DefaultWindows, steps, states, k, OrderClass, 3, t);
  }

  // ------------------------------------------------------------------- the back-off

  /** Since the first `n` grants, nothing was granted before `until`, and nothing will be. */
  ghost predicate HeldBack(l: Lane, n: nat, until: real) {
    && l.cooldownUntil >= until && n <= |l.granted|
    && forall p :: n <= p < |l.granted| ==> l.granted[p] >= until
  }

  lemma AttemptHoldsBack(ws: seq<Window>, l: Lane, now: real, stamp: real, n: nat, until: real)
    requires |l.deques| == |ws| && Configured(ws) && now <= stamp && HeldBack(l, n, until)
    ensures HeldBack(Attempt(ws, l, now, stamp).0, n, until)
  {
  }

  lemma {:induction false} PenaltyHolds(c: Config, steps: seq<Step>, states: seq<Gate>, k: nat, j: nat)
    requires Run(c, steps, states) && k < j < |states| && steps[k].Penalize?
    requires steps[k].q in states[k].lanes
    ensures var q := steps[k].q;
            && q in states[j].lanes
            && HeldBack(states[j].lanes[q], |states[k].lanes[q].granted|, steps[k].now + steps[k].seconds)
    decreases j
  {
    var q := steps[k].q;
    assert StepTo(c, states[j - 1], steps[j - 1], states[j - 1 + 1]);
    if j > k + 1 {
      PenaltyHolds(c, steps, states, k, j - 1);
      if steps[j - 1].TryAcquire? && steps[j - 1].q == q {
        AttemptHoldsBack(c(q), states[j - 1].lanes[q], steps[j - 1].now, steps[j - 1].stamp,
                         |states[k].lanes[q].granted|, steps[k].now + steps[k].seconds);
      }
    }
  }

  /** After a penalty, every later grant of its class is stamped when the penalty is over, or later. */
  lemma PenaltyDelaysGrants(c: Config, steps: seq<Step>, states: seq<Gate>, k: nat, j: nat, p: nat)
    requires Run(c, steps, states) && k < j < |states| && steps[k].Penalize?
    requires steps[k].q in states[k].lanes && steps[k].q in states[j].lanes
    requires |states[k].lanes[steps[k].q].granted| <= p < |states[j].lanes[steps[k].q].granted|
    ensures states[j].lanes[steps[k].q].granted[p] >= steps[k].now + steps[k].seconds
  {
    PenaltyHolds(c, steps, states, k, j);
  }

  /** Some penalty of class `q` among the first `k` steps is not over at `t`. */
  ghost predicate Penalised(steps: seq<Step>, k: nat, q: Quota, t: real)
    requires k <= |steps|
  {
    exists m :: 0 <= m < k && steps[m].Penalize? && steps[m].q == q && steps[m].now + steps[m].seconds > t
  }

  /** The cooldown of a class comes from its own penalties only; it starts at the clock's zero. */
  lemma {:induction false} CooldownIsOwnPenalties(c: Config, steps: seq<Step>, states: seq<Gate>, k: nat, q: Quota, t: real)
    requires Run(c, steps, states) && k < |states|
    ensures q in states[k].lanes && (states[k].lanes[q].cooldownUntil > t <==> t < 0.0 || Penalised(steps, k, q, t))
  {
    if k > 0 {
      CooldownIsOwnPenalties(c, steps, states, k - 1, q, t);
      assert StepTo(c, states[k - 1], steps[k - 1], states[k - 1 + 1]);
      var st := steps[k - 1];
      assert Penalised(steps, k, q, t) <==>
             Penalised(steps, k - 1, q, t) || (st.Penalize? && st.q == q && st.now + st.seconds > t);
    }
  }

  /**
   * A retry is refused if and only if some window of its class is full or some earlier penalty
   * of its own class is not over (or the clock is still below zero): penalties and traffic of
   * the other classes never delay it.
   */
  lemma RefusedIff(c: Config, steps: seq<Step>, states: seq<Gate>, k: nat)
    requires WellConfigured(c) && Run(c, steps, states) && k < |steps| && steps[k].TryAcquire?
    ensures var q, now := steps[k].q, steps[k].now;
            && q in states[k].lanes && q in states[k + 1].lanes
            && (states[k + 1].lanes[q].granted == states[k].lanes[q].granted <==>
                || now < 0.0 || Penalised(steps, k, q, now)
                || exists i :: 0 <= i < |c(q)| && !Room(c(q)[i], states[k].lanes[q].granted, now))
  {
    var q, now, stamp := steps[k].q, steps[k].now, steps[k].stamp;
    RunKeepsInv(c, steps, states, k);
    assert StepTo(c, states[k], steps[k], states[k + 1]);
    CooldownIsOwnPenalties(c, steps, states, k, q, now);
    GrantsExactlyWhenCapacity(c(q), states[k].lanes[q], states[k].clock, now, stamp);
    assert states[k].lanes[q].granted + [stamp] != states[k].lanes[q].granted;
  }

  /** The wait asked for is no longer than needed: at no earlier instant would there be capacity. */
  lemma WaitIsNotTooLong(ws: seq<Window>, l: Lane, clock: real, now: real, t: real)
    requires LaneInv(ws, l, clock) && clock <= now <= t < now + WaitAt(ws, l, now)
    ensures !HasCapacity(ws, l, t)
  {
    if l.cooldownUntil - now <= 0.0 {
      PrunedLane(ws, l, clock, now);
      var dqs := PruneAll(ws, l.deques, now);
      LongestWaitFacts(ws, dqs, now);
      var i :| 0 <= i < |ws| && LongestWait(ws, dqs, now) == WindowWait(ws[i], dqs[i], now);
      StillFull(ws[i], dqs[i], l.granted, now, t);
    }
  }

  lemma StillFull(w: Window, p: seq<real>, g: seq<real>, now: real, t: real)
    requires w.limit >= 1 && WindowInv(w, p, g, now) && LogInv(g, now) && now <= t < now + WindowWait(w, p, now)
    ensures !Room(w, g, t)
  {
    var d := |g| - |p|;
    assert forall j :: d <= j < |g| ==> g[j] == p[j - d];
    assert p[0] == g[d];
    CountRange(g, t - w.span, t, d, |g|);
  }

  // ------------------------------------------------------------ bounded waiting

  /** Sleeping out the longest wait of a class with no cooldown frees every window. */
  lemma WaitingFreesTheWindows(ws: seq<Window>, l: Lane, clock: real, now: real, later: real)
    requires LaneInv(ws, l, clock) && clock <= now && l.cooldownUntil <= now
    requires later >= now + LongestWait(ws, PruneAll(ws, l.deques, now), now)
    ensures later >= now
    ensures HasCapacity(ws, l, later)
  {
    PrunedLane(ws, l, clock, now);
    var dqs := PruneAll(ws, l.deques, now);
    LongestWaitFacts(ws, dqs, now);
    forall i | 0 <= i < |ws| ensures Room(ws[i], l.granted, later) {
      FullWindowFrees(ws[i], dqs[i], l.granted, now, later);
    }
  }

  lemma FullWindowFrees(w: Window, p: seq<real>, g: seq<real>, now: real, later: real)
    requires w.limit >= 1 && WindowInv(w, p, g, now) && LogInv(g, now)
    requires later >= now && later >= now + WindowWait(w, p, now)
    ensures Room(w, g, later)
  {
    var d := if |p| >= w.limit then 1 else 0;
    assert |p| >= w.limit ==> p[0] == g[|g| - |p|];
    CountRange(g, later - w.span, later, |g| - |p| + d, |g|);
  }

  lemma SleepKeepsValid(c: Config, g: Gate, later: real)
    requires GateInv(c, g) && g.clock <= later
    ensures GateInv(c, g.(clock := later))
  {
    forall q: Quota ensures LaneInv(c(q), g.lanes[q], later) { LaneInvLater(c(q), g.lanes[q], g.clock, later); }
  }

  /** Capacity is never lost by the mere passing of time. */
  lemma CapacityPersists(ws: seq<Window>, l: Lane, now: real, later: real)
    requires LogInv(l.granted, now) && HasCapacity(ws, l, now) && now <= later
    ensures HasCapacity(ws, l, later)
  {
    forall i | 0 <= i < |ws| ensures Room(ws[i], l.granted, later) {
      assert Room(ws[i], l.granted, now);
      CountShrinks(l.granted, now - ws[i].span, now, later - ws[i].span, later);
    }
  }

  lemma {:induction false} CountShrinks(g: seq<real>, lo: real, hi: real, lo': real, hi': real)
    requires forall j :: 0 <= j < |g| && lo' < g[j] <= hi' ==> lo < g[j] <= hi
    ensures CountIn(g, lo', hi') <= CountIn(g, lo, hi)
  {
    if g != [] { CountShrinks(g[..|g| - 1], lo, hi, lo', hi'); }
  }

  /** What is certain after `sleeps` sleeps of an acquire that is alone on its class. */
  ghost predicate Waited(ws: seq<Window>, l: Lane, clock: real, sleeps: nat) {
    && LaneInv(ws, l, clock) && sleeps <= 2
    && (sleeps >= 1 ==> l.cooldownUntil <= clock)
    && (sleeps == 2 ==> HasCapacity(ws, l, clock))
  }

  /**
   * One round of a lone acquire: it grants, or it has slept less than twice and the sleep
   * brings it closer: first past the cooldown, then past every full window.
   */
  lemma RoundOfLoneAcquire(ws: seq<Window>, l: Lane, clock: real, sleeps: nat,
                           now: real, stamp: real, later: real)
    requires Waited(ws, l, clock, sleeps) && clock <= now <= stamp
    requires later >= stamp + WaitAt(ws, l, now)
    ensures var (l', wait) := Attempt(ws, l, now, stamp);
            if wait <= 0.0 then l'.granted == l.granted + [stamp]
            else sleeps < 2 && l'.granted == l.granted && Waited(ws, l', later, sleeps + 1)
  {
    var (l', wait) := Attempt(ws, l, now, stamp);
    if sleeps == 2 { CapacityPersists(ws, l, clock, now); }
    GrantsExactlyWhenCapacity(ws, l, clock, now, stamp);
    if wait > 0.0 {
      if sleeps == 1 { WaitingFreesTheWindows(ws, l, clock, now, later); }
      AttemptKeepsInv(ws, l, clock, now, stamp);
      LaneInvLater(ws, l', stamp, later);
    }
  }

  // ------------------------------------------------------------ the gate object

  /** A monotone clock that other threads may let run between any two reads. */
  class Clock {
    var now: real

    constructor (t: real)
      ensures now == t
    {
      now := t;
    }

    method Read() returns (t: real)
      modifies this
      ensures t == now >= old(now)
    {
      t := *;
      if t < now { t := now; }
      now := t;
    }

    method Sleep(seconds: real)
      requires seconds >= 0.0
      modifies this
      ensures now >= old(now) + seconds
    {
      var t: real := *;
      now := if t < now + seconds then now + seconds else t;
    }
  }

  /** The per-class deques, cooldowns and grant logs are held in one record per class. */
  class BrokerRateGate {
    const windows: Config
    const clock: Clock
    var lanes: map<Quota, Lane>

    ghost function View(): Gate
      reads this, clock
    {
      Gate(lanes, clock.now)
    }

    ghost predicate Valid()
      reads this, clock
    {
      GateInv(windows, View())
    }

    constructor (c: Config, clock: Clock)
      requires WellConfigured(c)
      ensures windows == c && this.clock == clock
      ensures Valid() && View() == Fresh(c, clock.now)
    {
      windows := c;
      this.clock := clock;
      lanes := map q: Quota | true :: Lane(seq(|c(q)|, _ => []), 0.0, []);
      new;
      FreshInv(c, clock.now);
    }

    /** The inner loops: prune each deque, then keep the longest wait any full window asks for. */
    method ComputeWait(q: Quota) returns (wait: real, now: real)
      requires q in lanes && |lanes[q].deques| == |windows(q)| && Configured(windows(q))
      modifies this, clock
      ensures old(clock.now) <= now == clock.now
      ensures wait == WaitAt(windows(q), old(lanes[q]), now)
      ensures lanes == old(lanes)[q := old(lanes[q]).(deques := KeptAt(windows(q), old(lanes[q]), now))]
    {
      now := clock.Read();
      var lane, ws := lanes[q], windows(q);
      if lane.cooldownUntil - now > 0.0 {
        return lane.cooldownUntil - now, now;
      }
      wait := 0.0;
      var kept := [];
      ghost var all := PruneAll(ws, lane.deques, now);
      for i := 0 to |ws|
        invariant kept == all[..i]
        invariant wait == LongestWait(ws[..i], all[..i], now)
        invariant lanes == old(lanes) && clock.now == now
      {
        var dq := PruneDeque(lane.deques[i], now - ws[i].span);
        if |dq| >= ws[i].limit && dq[0] + ws[i].span - now > wait {
          wait := dq[0] + ws[i].span - now;
        }
        LongestWaitFacts(ws[..i], all[..i], now);
        assert ws[..i + 1][..i] == ws[..i] && all[..i + 1][..i] == all[..i];
        kept := kept + [dq];
      }
      assert ws[..|ws|] == ws && all[..|ws|] == all;
      lanes := lanes[q := lane.(deques := kept)];
    }

    static method PruneDeque(deque: seq<real>, horizon: real) returns (dq: seq<real>)
      ensures dq == Pruned(deque, horizon)
    {
      dq := deque;
      while dq != [] && dq[0] <= horizon
        invariant Pruned(dq, horizon) == Pruned(deque, horizon)
      {
        dq := dq[1..];
      }
    }

    /** One retry under the lock. */
    method TryAcquire(q: Quota) returns (wait: real, now: real)
      requires Valid()
      modifies this, clock
      ensures Valid()
      ensures StepTo(windows, old(View()), Step.TryAcquire(q, now, clock.now), View())
      ensures old(clock.now) <= now <= clock.now
      ensures |old(lanes[q]).deques| == |windows(q)| && Configured(windows(q))
      ensures (lanes[q], wait) == Attempt(windows(q), old(lanes[q]), now, clock.now)
      ensures lanes == old(lanes)[q := lanes[q]]
    {
      ghost var g := View();
      InvIsShaped(windows, g);
      wait, now := ComputeWait(q);
      if wait <= 0.0 {
        var stamp := clock.Read();
        var lane := lanes[q];
        var dqs := lane.deques;
        lanes := lanes[q := Lane(seq(|dqs|, i requires 0 <= i < |dqs| => dqs[i] + [stamp]),
                                 lane.cooldownUntil, lane.granted + [stamp])];
      }
      assert (lanes[q], wait) == Attempt(windows(q), g.lanes[q], now, clock.now);
      assert View() == Next(windows, g, Step.TryAcquire(q, now, clock.now));
      NextKeepsInv(windows, g, Step.TryAcquire(q, now, clock.now));
    }

    /** One trip round the retry loop: try under the lock, else sleep outside it. */
    method Round(q: Quota, ghost sleeps: nat) returns (done: bool)
      requires Valid() && q in lanes && Waited(windows(q), lanes[q], clock.now, sleeps)
      modifies this, clock
      ensures Valid() && q in lanes && lanes == old(lanes)[q := lanes[q]]
      ensures done ==> lanes[q].granted == old(lanes[q].granted) + [clock.now]
      ensures !done ==> lanes[q].granted == old(lanes[q].granted)
      ensures !done ==> sleeps < 2 && Waited(windows(q), lanes[q], clock.now, sleeps + 1)
    {
      ghost var l, t := lanes[q], clock.now;
      var wait, now := TryAcquire(q);
      ghost var stamp, g := clock.now, View();
      done := wait <= 0.0;
      if !done {
        clock.Sleep(wait);
        SleepKeepsValid(windows, g, clock.now);
      }
      RoundOfLoneAcquire(windows(q), l, t, sleeps, now, stamp, clock.now);
    }

    /** Blocks until granted; with no other traffic on the class that takes at most two sleeps. */
    method Acquire(q: Quota) returns (ghost sleeps: nat)
      requires Valid() && q in lanes
      modifies this, clock
      ensures Valid() && q in lanes && lanes == old(lanes)[q := lanes[q]]
      ensures sleeps <= 2
      ensures lanes[q].granted == old(lanes[q].granted) + [clock.now]
    {
      sleeps := 0;
      var done := false;
      assert LaneInv(windows(q), View().lanes[q], clock.now);
      while !done
        invariant Valid() && q in lanes && lanes == old(lanes)[q := lanes[q]]
        invariant done ==> sleeps <= 2 && lanes[q].granted == old(lanes[q].granted) + [clock.now]
        invariant !done ==> lanes[q].granted == old(lanes[q].granted)
        invariant !done ==> Waited(windows(q), lanes[q], clock.now, sleeps)
        decreases !done, 2 - sleeps
      {
        done := Round(q, sleeps);
        if !done { sleeps := sleeps + 1; }
      }
    }

    method Penalize(q: Quota, seconds: real)
      requires Valid()
      modifies this, clock
      ensures Valid()
      ensures StepTo(windows, old(View()), Step.Penalize(q, clock.now, seconds), View())
    {
      ghost var g := View();
      InvIsShaped(windows, g);
      var now := clock.Read();
      var lane := lanes[q];
      lanes := lanes[q := lane.(cooldownUntil :=
        if lane.cooldownUntil >= now + seconds then lane.cooldownUntil else now + seconds)];
      NextKeepsInv(windows, g, Step.Penalize(q, now, seconds));
    }
  }
}
