/**
 * The tick simulator: a one-minute bar unfolded into one tick per second.  Random draws are
 * arbitrary values in the drawn range; prices are exact, rounded to two decimals at the end.
 */
module TickSimulator {
  import opened Common
  import opened CandleEngine

  const MIN_ANCHOR_GAP := 5

  // ---------------------------------------------------------------------- anchors

  function MinGap(n: int): int { Max(1, if MIN_ANCHOR_GAP <= (n - 3) / 2 then MIN_ANCHOR_GAP else (n - 3) / 2) }

  predicate Apart(hi: int, lo: int, gap: int) { hi - lo >= gap || lo - hi >= gap }

  /** Whatever index the high was given, some index for the low is far enough away. */
  lemma AcceptableDrawExists(n: int, hi: int) returns (lo: int)
    requires n >= 4 && 1 <= hi < n - 1
    ensures 1 <= lo < n - 1 && Apart(hi, lo, MinGap(n))
  {
    lo := if hi - 1 >= n - 2 - hi then 1 else n - 2;
  }

  /** The anchors are at least five seconds apart from 13 seconds on, and never on the same index. */
  lemma GapIsFive(n: int)
    requires n >= 4
    ensures 1 <= MinGap(n) <= 5 && (n >= 13 <==> MinGap(n) == 5)
  {
  }

  /** The rejection loop over the draws for the low. */
  method DrawLow(n: int, hi: int, draws: seq<int>) returns (lo: int)
    requires n >= 4 && 1 <= hi < n - 1
    requires forall k :: 0 <= k < |draws| ==> 1 <= draws[k] < n - 1
    requires exists k :: 0 <= k < |draws| && Apart(hi, draws[k], MinGap(n))
    ensures 1 <= lo < n - 1 && Apart(hi, lo, MinGap(n)) && lo in draws
  {
    var i := 0;
    lo := draws[0];
    while !Apart(hi, lo, MinGap(n))
      invariant 0 <= i < |draws| && lo == draws[i]
      invariant exists k :: i <= k < |draws| && Apart(hi, draws[k], MinGap(n))
      decreases |draws| - i
    {
      i := i + 1;
      lo := draws[i];
    }
  }

  datatype Anchor = Anchor(i: int, p: real)

  /** The straight line between two anchors; at a repeated index, the first of the two. */
  function Lerp(a: Anchor, b: Anchor, i: int): real {
    if a.i == b.i then a.p else a.p + (b.p - a.p) * ((i - a.i) as real / (b.i - a.i) as real)
  }

  lemma LerpEnds(a: Anchor, b: Anchor)
    ensures Lerp(a, b, a.i) == a.p && (a.i != b.i ==> Lerp(a, b, b.i) == b.p)
  {
    if a.i != b.i {
      var d := (b.i - a.i) as real;
      assert 0.0 / d == 0.0 && d / d == 1.0;
    }
  }

  /** Between two anchors every index moves the price by the same step. */
  lemma LerpSteps(a: Anchor, b: Anchor, i: int)
    requires a.i < b.i
    ensures Lerp(a, b, i + 1) - Lerp(a, b, i) == (b.p - a.p) / (b.i - a.i) as real
  {
    var d, x, y := (b.i - a.i) as real, (i - a.i) as real, b.p - a.p;
    assert (i + 1 - a.i) as real == x + 1.0;
    QuotientStep(x, d);
    assert y * (x / d + 1.0 / d) == y * (x / d) + y * (1.0 / d);
  }

  lemma QuotientStep(x: real, d: real)
    requires d > 0.0
    ensures (x + 1.0) / d == x / d + 1.0 / d
  {
  }

  function Segments(anchors: seq<Anchor>): nat { if anchors == [] then 0 else |anchors| - 1 }

  /** The price at `i` after the first `m` segments: on the last of them that covers `i`. */
  function PathAt(anchors: seq<Anchor>, m: nat, i: int): real
    requires m <= Segments(anchors)
  {
    if m == 0 then 0.0
    else if anchors[m - 1].i <= i <= anchors[m].i then Lerp(anchors[m - 1], anchors[m], i)
    else PathAt(anchors, m - 1, i)
  }

  /** The loop over the segments; a later segment overwrites the end it shares. */
  method Interp(anchors: seq<Anchor>, n: int) returns (prices: seq<real>)
    requires n >= 0 && forall k :: 0 <= k < |anchors| ==> 0 <= anchors[k].i < n
    ensures |prices| == n
    ensures forall i :: 0 <= i < n ==> prices[i] == PathAt(anchors, Segments(anchors), i)
  {
    prices := seq(n, _ => 0.0);
    for s := 0 to Segments(anchors)
      invariant |prices| == n
      invariant forall i :: 0 <= i < n ==> prices[i] == PathAt(anchors, s, i)
    {
      var a, b := anchors[s], anchors[s + 1];
      for j := a.i to Max(a.i, b.i + 1)
        invariant |prices| == n
        invariant forall i :: 0 <= i < n ==> prices[i] == if a.i <= i < j then Lerp(a, b, i) else PathAt(anchors, s, i)
      {
        prices := prices[j := Lerp(a, b, j)];
      }
    }
  }

  ghost predicate InIndexOrder(anchors: seq<Anchor>) {
    forall j, k :: 0 <= j < k < |anchors| ==> anchors[j].i <= anchors[k].i
  }

  /** With anchors in index order, the path runs straight from each anchor to the next. */
  lemma {:induction false} PathOnSegment(anchors: seq<Anchor>, m: nat, k: nat, i: int)
    requires InIndexOrder(anchors) && k < m <= Segments(anchors)
    requires anchors[k].i <= i < anchors[k + 1].i || (m == k + 1 && anchors[k].i <= i == anchors[k + 1].i)
    ensures PathAt(anchors, m, i) == Lerp(anchors[k], anchors[k + 1], i)
  {
    if m > k + 1 { PathOnSegment(anchors, m - 1, k, i); }
  }

  /** It goes through every anchor whose index no later anchor repeats. */
  lemma PathHitsAnchors(anchors: seq<Anchor>, k: nat)
    requires InIndexOrder(anchors) && k < |anchors| && Segments(anchors) > 0
    requires if k < |anchors| - 1 then anchors[k].i < anchors[k + 1].i else anchors[k - 1].i < anchors[k].i
    ensures PathAt(anchors, Segments(anchors), anchors[k].i) == anchors[k].p
  {
    if k < |anchors| - 1 {
      PathOnSegment(anchors, Segments(anchors), k, anchors[k].i);
      LerpEnds(anchors[k], anchors[k + 1]);
    } else {
      PathOnSegment(anchors, Segments(anchors), k - 1, anchors[k].i);
      LerpEnds(anchors[k - 1], anchors[k]);
    }
  }

  // ----------------------------------------------------------------------- volume

  function Moves(prices: seq<real>): seq<real> {
    if |prices| <= 1 then [] else seq(|prices| - 1, i requires 0 <= i < |prices| - 1 => Abs(prices[i + 1] - prices[i]))
  }

  function SumInt(xs: seq<int>): int {
    if xs == [] then 0 else SumInt(xs[..|xs| - 1]) + xs[|xs| - 1]
  }

  lemma {:induction false} SumNonNegative(xs: seq<real>)
    requires forall i :: 0 <= i < |xs| ==> xs[i] >= 0.0
    ensures Sum(xs) >= 0.0
    ensures forall i :: 0 <= i <= |xs| ==> Sum(xs[..i]) <= Sum(xs)
  {
    if xs != [] {
      var n := |xs| - 1;
      SumNonNegative(xs[..n]);
      forall i | 0 <= i <= |xs| ensures Sum(xs[..i]) <= Sum(xs) {
        if i <= n { assert xs[..n][..i] == xs[..i]; } else { assert xs[..i] == xs; }
      }
    }
  }

  /** The share of the volume that a move of size `m` out of `total` earns, truncated. */
  function Share(volume: int, m: real, total: real): int
    requires total > 0.0
  {
    (volume as real * m / total).Floor
  }

  lemma ShareBounds(volume: int, m: real, total: real)
    requires volume > 0 && m >= 0.0 && total > 0.0
    ensures 0 <= Share(volume, m, total) && Share(volume, m, total) as real <= volume as real * m / total
  {
    var x := volume as real * m;
    assert x >= 0.0;
    NonNegativeQuotient(x, total);
  }

  lemma NonNegativeQuotient(x: real, d: real)
    requires x >= 0.0 && d > 0.0
    ensures x / d >= 0.0
  {
  }

  /** The truncated shares so far do not exceed the exact share of the moves so far. */
  ghost predicate Within(sum: int, volume: int, moved: real, total: real)
    requires total > 0.0
  {
    sum as real <= volume as real * moved / total
  }

  lemma WithinGrows(sum: int, volume: int, moved: real, m: real, total: real)
    requires volume > 0 && m >= 0.0 && total > 0.0 && Within(sum, volume, moved, total)
    ensures Within(sum + Share(volume, m, total), volume, moved + m, total) && Share(volume, m, total) >= 0
  {
    ShareBounds(volume, m, total);
    var v := volume as real;
    assert v * moved + v * m == v * (moved + m);
    assert v * moved / total + v * m / total == (v * moved + v * m) / total;
  }

  lemma WithinWhole(sum: int, volume: int, moved: real, total: real)
    requires volume > 0 && total > 0.0 && (moved == total || moved == 0.0) && Within(sum, volume, moved, total)
    ensures sum <= volume
  {
    if moved == total { assert volume as real * total / total == volume as real; }
  }

  /** The truncated proportional shares; the first tick has no move. */
  method Shares(volume: int, moves: seq<real>, total: real) returns (qty: seq<int>)
    requires volume > 0 && total > 0.0 && (Sum(moves) == total || Sum(moves) == 0.0)
    requires forall i :: 0 <= i < |moves| ==> moves[i] >= 0.0
    ensures Listed(qty, volume, moves, total, |moves|) && SumInt(qty) <= volume
  {
    qty := [0];
    SharesStart(volume, moves, total);
    for i := 0 to |moves|
      invariant SharesSoFar(qty, volume, moves, total, i)
    {
      SharesStep(qty, volume, moves, total, i);
      qty := qty + [Share(volume, moves[i], total)];
    }
    SharesDone(qty, volume, moves, total);
  }

  lemma SharesDone(qty: seq<int>, volume: int, moves: seq<real>, total: real)
    requires volume > 0 && total > 0.0 && (Sum(moves) == total || Sum(moves) == 0.0)
    requires SharesSoFar(qty, volume, moves, total, |moves|)
    ensures SumInt(qty) <= volume
  {
    assert moves[..|moves|] == moves;
    WithinWhole(SumInt(qty), volume, Sum(moves), total);
  }

  /** The shares of the first `i` moves. */
  ghost predicate SharesSoFar(qty: seq<int>, volume: int, moves: seq<real>, total: real, i: nat)
    requires total > 0.0
  {
    i <= |moves| && Listed(qty, volume, moves, total, i) && Within(SumInt(qty), volume, Sum(moves[..i]), total)
  }

  ghost predicate Listed(qty: seq<int>, volume: int, moves: seq<real>, total: real, i: nat)
    requires total > 0.0 && i <= |moves|
  {
    |qty| == i + 1 && qty[0] == 0 && forall j :: 1 <= j <= i ==> IsShare(qty[j], volume, moves[j - 1], total)
  }

  ghost predicate IsShare(q: int, volume: int, m: real, total: real)
    requires total > 0.0
  {
    q == Share(volume, m, total) && q >= 0
  }

  lemma ListedExtends(qty: seq<int>, q: int, volume: int, moves: seq<real>, total: real, i: nat)
    requires total > 0.0 && i < |moves| && Listed(qty, volume, moves, total, i) && IsShare(q, volume, moves[i], total)
    ensures Listed(qty + [q], volume, moves, total, i + 1)
  {
  }

  lemma SharesStart(volume: int, moves: seq<real>, total: real)
    requires total > 0.0
    ensures SharesSoFar([0], volume, moves, total, 0)
  {
    assert [0][..0] == [] && moves[..0] == [];
    assert SumInt([0]) == SumInt([0][..0]) + 0;
    assert volume as real * 0.0 / total == 0.0;
  }

  lemma SharesStep(qty: seq<int>, volume: int, moves: seq<real>, total: real, i: nat)
    requires volume > 0 && total > 0.0 && i < |moves| && moves[i] >= 0.0 && SharesSoFar(qty, volume, moves, total, i)
    ensures SharesSoFar(qty + [Share(volume, moves[i], total)], volume, moves, total, i + 1)
  {
    var q := Share(volume, moves[i], total);
    WithinGrows(SumInt(qty), volume, Sum(moves[..i]), moves[i], total);
    SumsExtend(qty, q, moves, i);
    ListedExtends(qty, q, volume, moves, total, i);
  }

  lemma SumsExtend(qty: seq<int>, q: int, moves: seq<real>, i: nat)
    requires i < |moves|
    ensures SumInt(qty + [q]) == SumInt(qty) + q && Sum(moves[..i + 1]) == Sum(moves[..i]) + moves[i]
  {
    assert (qty + [q])[..|qty|] == qty && moves[..i + 1][..i] == moves[..i];
  }

  function TotalMove(prices: seq<real>): real {
    if Sum(Moves(prices)) == 0.0 then 1.0 else Sum(Moves(prices))
  }

  /** `q` is the exact share of the volume that `move` out of `total` earns, rounded down. */
  ghost predicate Truncates(q: int, volume: int, move: real, total: real) {
    q as real * total <= volume as real * move < (q + 1) as real * total
  }

  lemma ShareTruncates(volume: int, m: real, total: real)
    requires total > 0.0
    ensures Truncates(Share(volume, m, total), volume, m, total)
  {
    var q, x := Share(volume, m, total), volume as real * m;
    QuotientBetween(x, total, x / total, q as real, (q + 1) as real);
  }

  lemma QuotientBetween(x: real, d: real, y: real, a: real, b: real)
    requires d > 0.0 && y == x / d && a <= y < b
    ensures a * d <= x < b * d
  {
    assert y * d == x;
    Scaled(a, y, d);
    ScaledStrictly(y, b, d);
  }

  lemma ListedShare(qty: seq<int>, volume: int, prices: seq<real>, total: real, i: nat)
    requires total > 0.0 && 1 <= i < |prices| && |Moves(prices)| == |prices| - 1
    requires Listed(qty, volume, Moves(prices), total, |prices| - 1)
    ensures IsShare(qty[i], volume, Abs(prices[i] - prices[i - 1]), total)
  {
    assert Moves(prices)[i - 1] == Abs(prices[i] - prices[i - 1]);
  }

  lemma SharesTruncate(qty: seq<int>, volume: int, prices: seq<real>, total: real)
    requires total > 0.0 && |prices| >= 1 && |Moves(prices)| == |prices| - 1
    requires Listed(qty, volume, Moves(prices), total, |prices| - 1)
    ensures forall i :: 1 <= i < |qty| ==> Truncates(qty[i], volume, Abs(prices[i] - prices[i - 1]), total)
  {
    forall i | 1 <= i < |qty| ensures Truncates(qty[i], volume, Abs(prices[i] - prices[i - 1]), total) {
      ListedShare(qty, volume, prices, total, i);
      ShareTruncates(volume, Abs(prices[i] - prices[i - 1]), total);
    }
  }

  /** Split proportionally to the moves; the remainder lands on the last tick. */
  method DistributeVolume(volume: int, prices: seq<real>) returns (qty: seq<int>)
    requires |prices| >= 1
    ensures |qty| == |prices|
    ensures forall i :: 0 <= i < |qty| ==> qty[i] >= 0
    ensures SumInt(qty) == Max(0, volume)
    ensures TotalMove(prices) > 0.0
    ensures volume > 0 ==> forall i :: 1 <= i < |qty| - 1 ==>
              Truncates(qty[i], volume, Abs(prices[i] - prices[i - 1]), TotalMove(prices))
  {
    var moves, n := Moves(prices), |prices|;
    SumNonNegative(moves);
    if volume <= 0 {
      qty := seq(n, _ => 0);
      ZeroSum(qty);
      return;
    }
    qty := Shares(volume, moves, TotalMove(prices));
    RemainderOnLast(qty, volume, prices, TotalMove(prices));
    qty := qty[n - 1 := qty[n - 1] + volume - SumInt(qty)];
  }

  /** Putting the remainder on the last tick completes the volume and keeps the other shares. */
  lemma RemainderOnLast(qty: seq<int>, volume: int, prices: seq<real>, total: real)
    requires total > 0.0 && |prices| >= 1 && |Moves(prices)| == |prices| - 1
    requires Listed(qty, volume, Moves(prices), total, |prices| - 1) && SumInt(qty) <= volume
    ensures var n := |qty| - 1;
            var qty' := qty[n := qty[n] + volume - SumInt(qty)];
            && SumInt(qty') == volume
            && (forall i :: 0 <= i < |qty'| ==> qty'[i] >= 0)
            && (forall i :: 1 <= i < n ==> Truncates(qty'[i], volume, Abs(prices[i] - prices[i - 1]), total))
  {
    var n := |qty| - 1;
    SharesTruncate(qty, volume, prices, total);
    LastAdjusted(qty, qty[n] + volume - SumInt(qty));
    ListedIsNonNegative(qty, volume, Moves(prices), total, n);
    InnerKept(qty, qty[n] + volume - SumInt(qty), volume, prices, total);
  }

  lemma ListedIsNonNegative(qty: seq<int>, volume: int, moves: seq<real>, total: real, i: nat)
    requires total > 0.0 && i <= |moves| && Listed(qty, volume, moves, total, i)
    ensures forall j :: 0 <= j < |qty| ==> qty[j] >= 0
  {
    forall j | 0 <= j < |qty| ensures qty[j] >= 0 {
      if j > 0 { assert IsShare(qty[j], volume, moves[j - 1], total); }
    }
  }

  lemma InnerKept(qty: seq<int>, x: int, volume: int, prices: seq<real>, total: real)
    requires |qty| == |prices| >= 1
    requires forall i :: 1 <= i < |qty| ==> Truncates(qty[i], volume, Abs(prices[i] - prices[i - 1]), total)
    ensures forall i :: 1 <= i < |qty| - 1 ==> Truncates(qty[|qty| - 1 := x][i], volume, Abs(prices[i] - prices[i - 1]), total)
  {
  }

  lemma {:induction false} ZeroSum(xs: seq<int>)
    requires forall i :: 0 <= i < |xs| ==> xs[i] == 0
    ensures SumInt(xs) == 0
  {
    if xs != [] { ZeroSum(xs[..|xs| - 1]); }
  }

  lemma LastAdjusted(xs: seq<int>, x: int)
    requires xs != []
    ensures SumInt(xs[|xs| - 1 := x]) == SumInt(xs) + x - xs[|xs| - 1]
  {
    assert xs[|xs| - 1 := x][..|xs| - 1] == xs[..|xs| - 1];
  }

  // --------------------------------------------------------------------- rounding

  function Round2(x: real): real { RoundHalfEven(x * 100.0) as real / 100.0 }

  predicate OnPaiseGrid(x: real) { (x * 100.0).Floor as real == x * 100.0 }

  /** Both bounds of the band round into the band; true of every band with ends on the paise grid. */
  predicate RoundsInward(low: real, high: real) { Round2(low) >= low && Round2(high) <= high }

  lemma GridRoundsToItself(x: real)
    requires OnPaiseGrid(x)
    ensures Round2(x) == x
  {
  }

  lemma GridBandRoundsInward(low: real, high: real)
    requires OnPaiseGrid(low) && OnPaiseGrid(high)
    ensures RoundsInward(low, high)
  {
    GridRoundsToItself(low);
    GridRoundsToItself(high);
  }

  ghost predicate RoundingStays(low: real, high: real) {
    forall x: real :: low <= x <= high ==> low <= Round2(x) <= high
  }

  lemma Round2IsMonotone(x: real, y: real)
    requires x <= y
    ensures Round2(x) <= Round2(y)
  {
    RoundIsMonotone(x * 100.0, y * 100.0);
  }

  /** Rounding keeps every price of the band inside it exactly when both bounds round inward. */
  lemma RoundingStaysIffInward(low: real, high: real)
    requires low <= high
    ensures RoundingStays(low, high) <==> RoundsInward(low, high)
  {
    if RoundsInward(low, high) {
      forall x: real | low <= x <= high ensures low <= Round2(x) <= high {
        Round2IsMonotone(low, x);
        Round2IsMonotone(x, high);
      }
    }
    if RoundingStays(low, high) {
      assert low <= Round2(low) <= high && low <= Round2(high) <= high;
    }
  }

  // --------------------------------------------------------------------- synthesis

  /** What the ticks of a bar must be for the fold to give the bar back. */
  ghost predicate Faithful(ticks: seq<Tick>, bar: Bar, n: int) {
    && |ticks| == n >= 1
    && (forall i :: 0 <= i < n ==> ticks[i].ts == bar.ts + i * 1_000_000)
    && ticks[0].price == bar.open && ticks[n - 1].price == bar.close
    && (forall i :: 0 <= i < n ==> bar.low <= ticks[i].price <= bar.high)
    && (exists i :: 0 <= i < n && ticks[i].price == bar.high)
    && (exists i :: 0 <= i < n && ticks[i].price == bar.low)
    && (forall i :: 0 <= i < n ==> ticks[i].quantity >= 0)
    && Volume(ticks) == Max(0, bar.volume)
  }

  function Clamped(x: real, low: real, high: real): real { MinR(high, MaxR(low, x)) }

  predicate Pinned(i: int, hi: int, lo: int, n: int) { i == 0 || i == hi || i == lo || i == n - 1 }

  /** The four anchors in index order. */
  function SortedAnchors(bar: Bar, hi: int, lo: int, n: int): seq<Anchor> {
    if hi < lo then [Anchor(0, bar.open), Anchor(hi, bar.high), Anchor(lo, bar.low), Anchor(n - 1, bar.close)]
    else [Anchor(0, bar.open), Anchor(lo, bar.low), Anchor(hi, bar.high), Anchor(n - 1, bar.close)]
  }

  /** The path before rounding: anchors as drawn, noise and clamp elsewhere. */
  function Path(bar: Bar, n: int, hi: int, lo: int, noise: seq<real>, i: int): real
    requires 0 <= i < n == |noise|
  {
    var line := PathAt(SortedAnchors(bar, hi, lo, n), 3, i);
    if Pinned(i, hi, lo, n) then line else Clamped(line + noise[i], bar.low, bar.high)
  }

  /** The price of tick `i`: the bar's own prices at the anchors, the rounded path elsewhere. */
  function TickPrice(bar: Bar, n: int, hi: int, lo: int, noise: seq<real>, i: int): real
    requires 0 <= i < n == |noise|
  {
    if i == n - 1 then bar.close
    else if i == lo then bar.low
    else if i == hi then bar.high
    else if i == 0 then bar.open
    else Round2(Path(bar, n, hi, lo, noise, i))
  }

  /** Noise on all but the anchors, clamped to the band. */
  method AddNoise(path: seq<real>, bar: Bar, hi: int, lo: int, noise: seq<real>) returns (prices: seq<real>)
    requires |noise| == |path| && bar.low <= bar.high
    ensures |prices| == |path|
    ensures forall i :: 0 <= i < |path| ==>
              prices[i] == if Pinned(i, hi, lo, |path|) then path[i] else Clamped(path[i] + noise[i], bar.low, bar.high)
  {
    prices := path;
    for i := 0 to |path|
      invariant |prices| == |path|
      invariant forall j :: i <= j < |path| ==> prices[j] == path[j]
      invariant forall j :: 0 <= j < i ==>
                  prices[j] == if Pinned(j, hi, lo, |path|) then path[j] else Clamped(path[j] + noise[j], bar.low, bar.high)
    {
      if !Pinned(i, hi, lo, |path|) {
        prices := prices[i := Clamped(prices[i] + noise[i], bar.low, bar.high)];
      }
    }
  }

  /** Round every price, then pin the anchors to the unrounded bar. */
  method RoundAndPin(path: seq<real>, bar: Bar, hi: int, lo: int) returns (prices: seq<real>)
    requires |path| >= 4 && 1 <= hi < |path| - 1 && 1 <= lo < |path| - 1 && hi != lo
    ensures |prices| == |path|
    ensures prices[0] == bar.open && prices[hi] == bar.high && prices[lo] == bar.low && prices[|path| - 1] == bar.close
    ensures forall i :: 0 <= i < |path| && !Pinned(i, hi, lo, |path|) ==> prices[i] == Round2(path[i])
  {
    var n := |path|;
    prices := path;
    for i := 0 to n
      invariant |prices| == n
      invariant forall j :: i <= j < n ==> prices[j] == path[j]
      invariant forall j :: 0 <= j < i ==> prices[j] == Round2(path[j])
    {
      prices := prices[i := Round2(prices[i])];
    }
    prices := prices[0 := bar.open];
    prices := prices[hi := bar.high];
    prices := prices[lo := bar.low];
    prices := prices[n - 1 := bar.close];
  }

  function ToTicks(ts: nat, prices: seq<real>, qty: seq<int>): seq<Tick>
    requires |prices| == |qty|
  {
    seq(|prices|, i requires 0 <= i < |prices| => Tick(prices[i], qty[i], ts + i * 1_000_000))
  }

  /** The two inputs the source refuses. */
  predicate Refused(bar: Bar, n: int) { bar.high < bar.low || n < 4 }

  /** A draw the simulator can make: anchors apart, noise within 2% of the range. */
  ghost predicate Admissible(bar: Bar, n: int, hi: int, lo: int, noise: seq<real>) {
    && 1 <= hi < n - 1 && 1 <= lo < n - 1 && Apart(hi, lo, MinGap(n))
    && |noise| == n && forall i :: 0 <= i < n ==> Abs(noise[i]) <= (bar.high - bar.low) * 0.02
  }

  /**
   * Synthesis for every draw: hi, the sequence of draws for lo, and the noise.  None stands
   * for the ValueError.  The documented invariants hold for every bar whose open and close
   * lie in a band that rounds inward.
   */
  method Synthesize(bar: Bar, n: int, hi: int, draws: seq<int>, noise: seq<real>) returns (ticks: Option<seq<Tick>>, lo: int)
    requires !Refused(bar, n) ==>
               && 1 <= hi < n - 1 && |noise| == n
               && (forall i :: 0 <= i < n ==> Abs(noise[i]) <= (bar.high - bar.low) * 0.02)
               && (forall k :: 0 <= k < |draws| ==> 1 <= draws[k] < n - 1)
               && (exists k :: 0 <= k < |draws| && Apart(hi, draws[k], MinGap(n)))
    ensures ticks.None? <==> Refused(bar, n)
    ensures ticks.Some? ==> |ticks.value| == n && Admissible(bar, n, hi, lo, noise)
    ensures ticks.Some? ==> forall i :: 0 <= i < n ==> ticks.value[i].price == TickPrice(bar, n, hi, lo, noise, i)
    ensures ticks.Some? && WellFormed(bar) ==> Faithful(ticks.value, bar, n)
  {
    if bar.high < bar.low || n < 4 { return None, 0; }
    lo := DrawLow(n, hi, draws);
    var ts := Unfold(bar, n, hi, lo, noise);
    ticks := Some(ts);
  }

  /** The ticks for given anchors and noise. */
  method Unfold(bar: Bar, n: int, hi: int, lo: int, noise: seq<real>) returns (ticks: seq<Tick>)
    requires !Refused(bar, n) && Admissible(bar, n, hi, lo, noise)
    ensures |ticks| == n
    ensures forall i :: 0 <= i < n ==> ticks[i].price == TickPrice(bar, n, hi, lo, noise, i)
    ensures WellFormed(bar) ==> Faithful(ticks, bar, n)
  {
    var path := NoisyPath(bar, n, hi, lo, noise);
    var qty := DistributeVolume(bar.volume, path);
    var prices := RoundAndPin(path, bar, hi, lo);
    PricesAreTickPrices(bar, hi, lo, noise, path, prices);
    ticks := ToTicks(bar.ts, prices, qty);
    if WellFormed(bar) { TickPricesAreFaithful(bar, hi, lo, noise, prices, qty); }
  }

  /** The simulator's prices, tick by tick. */
  ghost predicate TickPrices(bar: Bar, hi: int, lo: int, noise: seq<real>, prices: seq<real>) {
    |prices| == |noise| && forall i :: 0 <= i < |prices| ==> prices[i] == TickPrice(bar, |prices|, hi, lo, noise, i)
  }

  lemma PricesAreTickPrices(bar: Bar, hi: int, lo: int, noise: seq<real>, path: seq<real>, prices: seq<real>)
    requires |path| == |prices| == |noise| >= 4 && 1 <= hi < |path| - 1 && 1 <= lo < |path| - 1 && hi != lo
    requires prices[0] == bar.open && prices[hi] == bar.high && prices[lo] == bar.low && prices[|path| - 1] == bar.close
    requires forall i :: 0 <= i < |path| && !Pinned(i, hi, lo, |path|) ==> prices[i] == Round2(path[i])
    requires forall i :: 0 <= i < |path| ==> path[i] == Path(bar, |path|, hi, lo, noise, i)
    ensures TickPrices(bar, hi, lo, noise, prices)
  {
  }

  /** The path through the four anchors with its noise. */
  method NoisyPath(bar: Bar, n: int, hi: int, lo: int, noise: seq<real>) returns (path: seq<real>)
    requires n >= 4 && 1 <= hi < n - 1 && 1 <= lo < n - 1 && hi != lo && |noise| == n && bar.low <= bar.high
    ensures |path| == n
    ensures forall i :: 0 <= i < n ==> path[i] == Path(bar, n, hi, lo, noise, i)
  {
    var anchors := SortedAnchors(bar, hi, lo, n);
    var line := Interp(anchors, n);
    path := AddNoise(line, bar, hi, lo, noise);
  }

  /** Open and close inside a band that rounds inward. */
  predicate WellFormed(bar: Bar) {
    bar.low <= bar.open <= bar.high && bar.low <= bar.close <= bar.high && RoundsInward(bar.low, bar.high)
  }

  lemma TickPricesAreFaithful(bar: Bar, hi: int, lo: int, noise: seq<real>, prices: seq<real>, qty: seq<int>)
    requires WellFormed(bar) && |prices| >= 4 && Admissible(bar, |prices|, hi, lo, noise)
    requires TickPrices(bar, hi, lo, noise, prices)
    requires |qty| == |prices| && SumInt(qty) == Max(0, bar.volume) && forall i :: 0 <= i < |qty| ==> qty[i] >= 0
    ensures Faithful(ToTicks(bar.ts, prices, qty), bar, |prices|)
  {
    var ticks := ToTicks(bar.ts, prices, qty);
    WellFormedStaysInside(bar, |prices|, hi, lo, noise);
    assert hi != lo && ticks[hi].price == bar.high && ticks[lo].price == bar.low;
    VolumeOfTicks(bar.ts, prices, qty);
  }

  lemma {:induction false} VolumeOfTicks(ts: nat, prices: seq<real>, qty: seq<int>)
    requires |prices| == |qty|
    ensures Volume(ToTicks(ts, prices, qty)) == SumInt(qty)
  {
    if qty != [] {
      var n := |qty| - 1;
      VolumeOfTicks(ts, prices[..n], qty[..n]);
      assert ToTicks(ts, prices, qty)[..n] == ToTicks(ts, prices[..n], qty[..n]);
    }
  }

  // --------------------------------------------------- exactly when the ticks stay inside

  ghost predicate StaysInside(bar: Bar, n: int, hi: int, lo: int, noise: seq<real>)
    requires |noise| == n
  {
    forall i :: 0 <= i < n ==> bar.low <= TickPrice(bar, n, hi, lo, noise, i) <= bar.high
  }

  ghost predicate EveryDrawStaysInside(bar: Bar, n: int) {
    forall hi, lo, noise :: Admissible(bar, n, hi, lo, noise) ==> StaysInside(bar, n, hi, lo, noise)
  }

  /** The same noise on every tick. */
  function Flat(n: nat, x: real): seq<real> { seq(n, _ => x) }

  /** One second after an early high, the path is one step below it. */
  lemma PathAfterHigh(bar: Bar, n: int)
    requires n >= 53
    ensures PathAt(SortedAnchors(bar, 1, n - 2, n), 3, 2) == bar.high - (bar.high - bar.low) / (n - 3) as real
  {
    var anchors := SortedAnchors(bar, 1, n - 2, n);
    PathOnSegment(anchors, 3, 1, 2);
    StepDown(bar.high, bar.low, (n - 3) as real);
  }

  lemma StepDown(from: real, to: real, d: real)
    requires d > 0.0
    ensures from + (to - from) * (1.0 / d) == from - (from - to) / d
  {
  }

  /** One second after an early low, the path is one step above it. */
  lemma PathAfterLow(bar: Bar, n: int)
    requires n >= 53
    ensures PathAt(SortedAnchors(bar, n - 2, 1, n), 3, 2) == bar.low + (bar.high - bar.low) / (n - 3) as real
  {
    var anchors := SortedAnchors(bar, n - 2, 1, n);
    PathOnSegment(anchors, 3, 1, 2);
    StepDown(bar.low, bar.high, (n - 3) as real);
  }

  /** From 53 seconds on, one step of that path is within the noise. */
  lemma StepIsWithinNoise(range: real, n: int)
    requires range >= 0.0 && n >= 53
    ensures 0.0 <= range / (n - 3) as real <= range * 0.02
  {
    StepBound(range, (n - 3) as real);
  }

  lemma StepBound(range: real, d: real)
    requires range >= 0.0 && d >= 50.0
    ensures 0.0 <= range / d <= range * 0.02
  {
    var q := range / d;
    assert q * d == range;
    assert q >= 0.0;
    assert q * d >= q * 50.0;
  }

  /** Some draw brings a tick to exactly the high, and some to exactly the low, before rounding. */
  lemma ExtremesAreRounded(bar: Bar, n: int)
    requires n >= 53 && bar.low <= bar.high
    ensures var step := (bar.high - bar.low) / (n - 3) as real;
            && Admissible(bar, n, 1, n - 2, Flat(n, step)) && TickPrice(bar, n, 1, n - 2, Flat(n, step), 2) == Round2(bar.high)
            && Admissible(bar, n, n - 2, 1, Flat(n, -step)) && TickPrice(bar, n, n - 2, 1, Flat(n, -step), 2) == Round2(bar.low)
  {
    StepIsWithinNoise(bar.high - bar.low, n);
    PathAfterHigh(bar, n);
    PathAfterLow(bar, n);
  }

  lemma WellFormedStaysInside(bar: Bar, n: int, hi: int, lo: int, noise: seq<real>)
    requires WellFormed(bar) && Admissible(bar, n, hi, lo, noise)
    ensures StaysInside(bar, n, hi, lo, noise)
  {
    RoundingStaysIffInward(bar.low, bar.high);
    forall i | 0 <= i < n ensures bar.low <= TickPrice(bar, n, hi, lo, noise, i) <= bar.high {
      if !Pinned(i, hi, lo, n) {
        var x := Path(bar, n, hi, lo, noise, i);
        assert bar.low <= Round2(x) <= bar.high;
      }
    }
  }

  /**
   * Every tick of every draw lies inside the bar if and only if open and close do and both
   * extremes round inward, for the minute bars the simulator is used on and any longer than
   * 52 seconds.
   */
  lemma TicksStayInsideIff(bar: Bar, n: int)
    requires n >= 53 && bar.low <= bar.high
    ensures EveryDrawStaysInside(bar, n) <==> WellFormed(bar)
  {
    if WellFormed(bar) {
      forall hi, lo, noise | Admissible(bar, n, hi, lo, noise) ensures StaysInside(bar, n, hi, lo, noise) {
        WellFormedStaysInside(bar, n, hi, lo, noise);
      }
    }
    if EveryDrawStaysInside(bar, n) {
      ExtremesAreRounded(bar, n);
      var step := (bar.high - bar.low) / (n - 3) as real;
      var up, down := Flat(n, step), Flat(n, -step);
      assert StaysInside(bar, n, 1, n - 2, up) && StaysInside(bar, n, n - 2, 1, down);
      assert bar.low <= TickPrice(bar, n, 1, n - 2, up, 2) <= bar.high;
      assert bar.low <= TickPrice(bar, n, n - 2, 1, down, 2) <= bar.high;
      assert bar.low <= TickPrice(bar, n, 1, n - 2, up, 0) <= bar.high;
      assert bar.low <= TickPrice(bar, n, 1, n - 2, up, n - 1) <= bar.high;
    }
  }

  /** A bar off the paise grid whose simulated minute leaves it, without any noise. */
  lemma OffGridTickLeavesBar(bar: Bar)
    requires bar.low == 100.0 && bar.high == 100.006
    ensures Admissible(bar, 60, 1, 58, Flat(60, 0.0))
    ensures TickPrice(bar, 60, 1, 58, Flat(60, 0.0), 2) == 100.01 > bar.high
  {
    PathAfterHigh(bar, 60);
    var x := 100.006 - 0.006 / 57.0;
    assert (x * 100.0).Floor == 10000;
  }
}
