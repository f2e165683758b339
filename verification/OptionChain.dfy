/**
 * Max pain of an option chain.  The search visits the listed strikes only; the total
 * pain is convex and piecewise linear with kinks at the strikes, so what it finds is
 * the minimum over every real settlement price.
 */
module OptionChain {
  import opened Common

  datatype Kind = CE | PE
  datatype Contract = Contract(strike: real, kind: Kind, oi: int)

  // ------------------------------------------------------------ the strike index

  ghost predicate StrictlySorted(s: seq<real>) {
    forall i, j :: 0 <= i < j < |s| ==> s[i] < s[j]
  }

  /** Insert a strike unless it is listed already. */
  function Insert(s: seq<real>, k: real): (r: seq<real>)
    requires StrictlySorted(s)
    ensures StrictlySorted(r)
    ensures forall x :: x in r <==> x in s || x == k
  {
    if s == [] then [k]
    else if k < s[0] then [k] + s
    else if k == s[0] then s
    else
      var rest := Insert(s[1..], k);
      assert s == [s[0]] + s[1..];
      assert forall i :: 0 <= i < |rest| ==> rest[i] in s[1..] || rest[i] == k;
      assert forall i :: 0 <= i < |rest| ==> s[0] < rest[i];
      [s[0]] + rest
  }

  /** The sorted keys of the strike index. */
  function Strikes(options: seq<Contract>): (r: seq<real>)
    ensures StrictlySorted(r)
    ensures forall x :: x in r <==> exists i :: 0 <= i < |options| && options[i].strike == x
  {
    if options == [] then []
    else
      var n := |options| - 1;
      var rest := Strikes(options[..n]);
      assert forall i :: 0 <= i < n ==> options[..n][i] == options[i];
      Insert(rest, options[n].strike)
  }

  // ------------------------------------------------------------------------ pain

  function Positive(x: real): real { if x > 0.0 then x else 0.0 }

  function Weight(o: Contract): real { if o.oi > 0 then o.oi as real else 0.0 }

  /** What one contract pays out at settlement price `s`. */
  function PainOf(o: Contract, s: real): real {
    (if o.kind == CE then Positive(s - o.strike) else Positive(o.strike - s)) * Weight(o)
  }

  function Pains(options: seq<Contract>, s: real): seq<real> {
    seq(|options|, i requires 0 <= i < |options| => PainOf(options[i], s))
  }

  function Pain(options: seq<Contract>, s: real): real { Sum(Pains(options, s)) }

  /** Slope of one contract's payout to the right of `a`. */
  function SlopeOf(o: Contract, a: real): real {
    if o.kind == CE then (if o.strike <= a then Weight(o) else 0.0)
    else (if o.strike > a then -Weight(o) else 0.0)
  }

  function Slopes(options: seq<Contract>, a: real): seq<real> {
    seq(|options|, i requires 0 <= i < |options| => SlopeOf(options[i], a))
  }

  ghost predicate NoKinkInside(options: seq<Contract>, a: real, x: real) {
    forall i :: 0 <= i < |options| ==> !(a < options[i].strike < x)
  }

  lemma PainOfIsLinear(o: Contract, a: real, x: real)
    requires a <= x && !(a < o.strike < x)
    ensures PainOf(o, x) == PainOf(o, a) + SlopeOf(o, a) * (x - a)
  {
    var w, k := Weight(o), o.strike;
    if o.kind == CE && k <= a {
      assert (x - k) * w == (a - k) * w + w * (x - a);
    } else if o.kind == PE && k >= x {
      assert (k - x) * w == (k - a) * w - w * (x - a);
      if k <= a { assert x == a == k; }
    }
  }

  /** Each component moves along its own line over the distance `d`. */
  ghost predicate Lines(from: seq<real>, slopes: seq<real>, to: seq<real>, d: real) {
    |from| == |slopes| == |to| && forall i :: 0 <= i < |to| ==> to[i] == from[i] + slopes[i] * d
  }

  lemma {:induction false} SumOfLines(from: seq<real>, slopes: seq<real>, to: seq<real>, d: real)
    requires Lines(from, slopes, to, d)
    ensures Sum(to) == Sum(from) + Sum(slopes) * d
  {
    if to != [] {
      var n := |to| - 1;
      LinesPrefix(from, slopes, to, d, n);
      SumOfLines(from[..n], slopes[..n], to[..n], d);
      OneMoreLine(Sum(from[..n]), Sum(slopes[..n]), Sum(to[..n]), from[n], slopes[n], to[n], d);
    }
  }

  lemma LinesPrefix(from: seq<real>, slopes: seq<real>, to: seq<real>, d: real, n: nat)
    requires Lines(from, slopes, to, d) && n <= |to|
    ensures Lines(from[..n], slopes[..n], to[..n], d)
  {
    forall i | 0 <= i < n ensures to[..n][i] == from[..n][i] + slopes[..n][i] * d {
      assert to[i] == from[i] + slopes[i] * d;
    }
  }

  lemma OneMoreLine(a: real, m: real, b: real, a': real, m': real, b': real, d: real)
    requires b == a + m * d && b' == a' + m' * d
    ensures b + b' == a + a' + (m + m') * d
  {
  }

  lemma SignOfProduct(m: real, d: real)
    requires d >= 0.0
    ensures m >= 0.0 ==> m * d >= 0.0
    ensures m <= 0.0 ==> m * d <= 0.0
  {
  }

  /** Component-wise lines from `start` through `mid` to `end`: one end is no higher than the middle. */
  lemma {:induction false} EndOfLines(start: seq<real>, slopes: seq<real>, mid: seq<real>, end: seq<real>, d: real, e: real)
    requires d >= 0.0 && e >= 0.0 && Lines(start, slopes, mid, d) && Lines(start, slopes, end, d + e)
    ensures Sum(start) <= Sum(mid) || Sum(end) <= Sum(mid)
  {
    SumOfLines(start, slopes, mid, d);
    SumOfLines(start, slopes, end, d + e);
    var m := Sum(slopes);
    SignOfProduct(m, d);
    SignOfProduct(m, e);
    assert m * (d + e) == m * d + m * e;
  }

  lemma {:induction false} SumIsMonotone(xs: seq<real>, ys: seq<real>)
    requires |xs| == |ys| && forall i :: 0 <= i < |xs| ==> xs[i] <= ys[i]
    ensures Sum(xs) <= Sum(ys)
  {
    if xs != [] { SumIsMonotone(xs[..|xs| - 1], ys[..|ys| - 1]); }
  }

  lemma PainsMoveAlongLines(options: seq<Contract>, a: real, x: real)
    requires a <= x && NoKinkInside(options, a, x)
    ensures Lines(Pains(options, a), Slopes(options, a), Pains(options, x), x - a)
  {
    forall i | 0 <= i < |options| ensures PainOf(options[i], x) == PainOf(options[i], a) + SlopeOf(options[i], a) * (x - a) {
      PainOfIsLinear(options[i], a, x);
    }
  }

  /** Left of its strike a call pays nothing and a put pays more the lower the price. */
  lemma LeftPain(o: Contract, x: real, k: real)
    requires x <= k <= o.strike
    ensures PainOf(o, k) <= PainOf(o, x)
  {
    if o.kind == PE { SignOfProduct(Weight(o), k - x); assert (o.strike - x) * Weight(o) == (o.strike - k) * Weight(o) + Weight(o) * (k - x); }
  }

  lemma RightPain(o: Contract, k: real, x: real)
    requires o.strike <= k <= x
    ensures PainOf(o, k) <= PainOf(o, x)
  {
    if o.kind == CE { SignOfProduct(Weight(o), x - k); assert (x - o.strike) * Weight(o) == (k - o.strike) * Weight(o) + Weight(o) * (x - k); }
  }

  /** Below the first strike, and above the last, moving to that strike never hurts. */
  lemma OuterEnds(options: seq<Contract>, x: real, k: real)
    requires (x <= k && forall i :: 0 <= i < |options| ==> k <= options[i].strike)
             || (k <= x && forall i :: 0 <= i < |options| ==> options[i].strike <= k)
    ensures Pain(options, k) <= Pain(options, x)
  {
    forall i | 0 <= i < |options| ensures PainOf(options[i], k) <= PainOf(options[i], x) {
      if x <= k && k <= options[i].strike { LeftPain(options[i], x, k); } else { RightPain(options[i], k, x); }
    }
    SumIsMonotone(Pains(options, k), Pains(options, x));
  }

  /** Between `a` and `b` without a kink inside, one end is no more painful than `x`. */
  lemma SegmentEnd(options: seq<Contract>, a: real, x: real, b: real)
    requires a <= x <= b && NoKinkInside(options, a, b)
    ensures Pain(options, a) <= Pain(options, x) || Pain(options, b) <= Pain(options, x)
  {
    PainsMoveAlongLines(options, a, x);
    PainsMoveAlongLines(options, a, b);
    assert x - a + (b - x) == b - a;
    EndOfLines(Pains(options, a), Slopes(options, a), Pains(options, x), Pains(options, b), x - a, b - x);
  }

  /** For every settlement price there is a listed strike that is no more painful. */
  lemma SomeStrikeIsNoWorse(options: seq<Contract>, x: real) returns (k: real)
    requires options != []
    ensures k in Strikes(options) && Pain(options, k) <= Pain(options, x)
  {
    var ss := Strikes(options);
    assert options[0].strike in ss;
    var n := CountUpTo(ss, x);
    StrikesBound(options);
    if n == 0 {
      k := ss[0];
      OuterEnds(options, x, k);
    } else if n == |ss| {
      k := ss[n - 1];
      OuterEnds(options, x, k);
    } else {
      var a, b := ss[n - 1], ss[n];
      assert NoKinkInside(options, a, b) by { GapHasNoStrike(options, n); }
      SegmentEnd(options, a, x, b);
      k := if Pain(options, a) <= Pain(options, x) then a else b;
    }
  }

  /** How many of the strikes lie at or below `x`. */
  lemma CountUpTo(ss: seq<real>, x: real) returns (n: nat)
    requires StrictlySorted(ss)
    ensures n <= |ss| && (n > 0 ==> ss[n - 1] <= x) && (n < |ss| ==> x < ss[n])
  {
    n := 0;
    while n < |ss| && ss[n] <= x
      invariant n <= |ss| && (n > 0 ==> ss[n - 1] <= x)
    {
      n := n + 1;
    }
  }

  lemma StrikesBound(options: seq<Contract>)
    requires options != []
    ensures Strikes(options) != []
    ensures forall i :: 0 <= i < |options| ==> Strikes(options)[0] <= options[i].strike <= Strikes(options)[|Strikes(options)| - 1]
  {
    var ss := Strikes(options);
    assert options[0].strike in ss;
    forall i | 0 <= i < |options| ensures ss[0] <= options[i].strike <= ss[|ss| - 1] {
      assert options[i].strike in ss;
      var j :| 0 <= j < |ss| && ss[j] == options[i].strike;
    }
  }

  lemma GapHasNoStrike(options: seq<Contract>, n: nat)
    requires 0 < n < |Strikes(options)|
    ensures NoKinkInside(options, Strikes(options)[n - 1], Strikes(options)[n])
  {
    var ss := Strikes(options);
    forall i | 0 <= i < |options| ensures !(ss[n - 1] < options[i].strike < ss[n]) {
      assert options[i].strike in ss;
      var j :| 0 <= j < |ss| && ss[j] == options[i].strike;
      assert j <= n - 1 ==> ss[j] <= ss[n - 1];
      assert j >= n ==> ss[n] <= ss[j];
    }
  }

  /** What the search over the listed strikes establishes: the first strike of least pain. */
  ghost predicate LeastStrike(options: seq<Contract>, best: real) {
    && best in Strikes(options)
    && forall k :: k in Strikes(options) ==>
        && Pain(options, best) <= Pain(options, k)
        && (k < best ==> Pain(options, best) < Pain(options, k))
  }

  /** The least strike is a global minimum, over all real settlement prices. */
  lemma LeastStrikeIsGlobal(options: seq<Contract>, best: real, x: real)
    requires options != [] && LeastStrike(options, best)
    ensures Pain(options, best) <= Pain(options, x)
  {
    var k := SomeStrikeIsNoWorse(options, x);
  }

  // ---------------------------------------------------- what pain is, contract by contract

  lemma {:induction false} PainSplits(xs: seq<Contract>, ys: seq<Contract>, s: real)
    ensures Pain(xs + ys, s) == Pain(xs, s) + Pain(ys, s)
  {
    assert Pains(xs + ys, s) == Pains(xs, s) + Pains(ys, s);
    SumSplit(Pains(xs, s), Pains(ys, s));
  }

  lemma PainOfOne(o: Contract, s: real)
    ensures Pain([o], s) == PainOf(o, s)
  {
    assert Pains([o], s) == [] + [PainOf(o, s)];
    SumSplit([], [PainOf(o, s)]);
    assert [PainOf(o, s)][..0] == [];
  }

  /** One lot pays what the price is past its strike: above it for a call, below it for a put. */
  lemma OneLotPays(k: real, s: real)
    ensures s >= k ==> Pain([Contract(k, CE, 1)], s) == s - k && Pain([Contract(k, PE, 1)], s) == 0.0
    ensures s <= k ==> Pain([Contract(k, CE, 1)], s) == 0.0 && Pain([Contract(k, PE, 1)], s) == k - s
  {
    PainOfOne(Contract(k, CE, 1), s);
    PainOfOne(Contract(k, PE, 1), s);
  }

  /** Open interest adds up: splitting a contract's lots over two entries, anywhere, changes no pain. */
  lemma LotsAddUp(options: seq<Contract>, k: real, kind: Kind, a: int, b: int, s: real)
    requires a > 0 && b > 0
    ensures Pain(options + [Contract(k, kind, a + b)], s) == Pain(options + [Contract(k, kind, a), Contract(k, kind, b)], s)
  {
    var x, y, z := Contract(k, kind, a), Contract(k, kind, b), Contract(k, kind, a + b);
    PainSplits(options, [z], s);
    PainSplits(options, [x, y], s);
    assert [x, y] == [x] + [y];
    PainSplits([x], [y], s);
    PainOfOne(x, s);
    PainOfOne(y, s);
    PainOfOne(z, s);
    var paid := if kind == CE then Positive(s - k) else Positive(k - s);
    Distribute(paid, a as real, b as real);
  }

  lemma Distribute(x: real, a: real, b: real)
    ensures x * (a + b) == x * a + x * b
  {
  }

  /** A contract without open interest changes nothing. */
  lemma NoInterestNoPain(options: seq<Contract>, o: Contract, s: real)
    requires o.oi <= 0
    ensures Pain(options + [o], s) == Pain(options, s)
  {
    PainSplits(options, [o], s);
    PainOfOne(o, s);
  }

  // ------------------------------------------- the minimum, read off the open interest

  datatype Region = Below(k: real) | UpTo(k: real) | Above(k: real) | From(k: real)

  predicate In(r: Region, strike: real) {
    match r
    case Below(k) => strike < k
    case UpTo(k) => strike <= k
    case Above(k) => strike > k
    case From(k) => strike >= k
  }

  /** The lots one contract has open in a region. */
  function LotsIn(o: Contract, kind: Kind, r: Region): int { if o.kind == kind && In(r, o.strike) then Max(o.oi, 0) else 0 }

  /** The open interest of one kind struck in a region. */
  function Interest(options: seq<Contract>, kind: Kind, r: Region): int {
    if options == [] then 0
    else Interest(options[..|options| - 1], kind, r) + LotsIn(options[|options| - 1], kind, r)
  }

  /** The calls in the money at `k` do not outweigh the puts held from `k` on, nor the puts in the money the calls. */
  predicate Balanced(options: seq<Contract>, k: real) {
    && Interest(options, CE, Below(k)) <= Interest(options, PE, From(k))
    && Interest(options, PE, Above(k)) <= Interest(options, CE, UpTo(k))
  }

  /** What moving one unit away from `k`, down or up, costs at first. */
  function TiltOf(o: Contract, k: real, down: bool): int {
    if down then LotsIn(o, PE, From(k)) - LotsIn(o, CE, Below(k)) else LotsIn(o, CE, UpTo(k)) - LotsIn(o, PE, Above(k))
  }

  function Tilts(options: seq<Contract>, k: real, down: bool): seq<real> {
    seq(|options|, i requires 0 <= i < |options| => TiltOf(options[i], k, down) as real)
  }

  lemma {:induction false} SumOfTilts(options: seq<Contract>, k: real)
    ensures Sum(Tilts(options, k, true)) == (Interest(options, PE, From(k)) - Interest(options, CE, Below(k))) as real
    ensures Sum(Tilts(options, k, false)) == (Interest(options, CE, UpTo(k)) - Interest(options, PE, Above(k))) as real
  {
    if options != [] {
      var n := |options| - 1;
      SumOfTilts(options[..n], k);
      assert Tilts(options, k, true)[..n] == Tilts(options[..n], k, true);
      assert Tilts(options, k, false)[..n] == Tilts(options[..n], k, false);
    }
  }

  function Distance(k: real, x: real): real { Abs(x - k) }

  /** `m` per unit away from `p`, over the distance `d`. */
  ghost predicate OnOrAbove(q: real, p: real, m: real, d: real) { q >= p + m * d }

  ghost predicate OnLine(q: real, p: real, m: real, d: real) { q == p + m * d }

  /** The payoff of `w` lots, `d` further out of the money than at `z`. */
  lemma PayoffOut(y: real, z: real, w: real, d: real)
    requires d == z - y >= 0.0 && w >= 0.0
    ensures OnOrAbove(Positive(y) * w, Positive(z) * w, if z > 0.0 then -w else 0.0, d)
    ensures y >= 0.0 || z <= 0.0 ==> OnLine(Positive(y) * w, Positive(z) * w, if z > 0.0 then -w else 0.0, d)
  {
    assert -w * d == y * w - z * w;
    SignOfProduct(y, w);
  }

  /** The payoff of `w` lots, `d` further in the money than at `z`. */
  lemma PayoffIn(y: real, z: real, w: real, d: real)
    requires d == y - z >= 0.0 && w >= 0.0
    ensures OnOrAbove(Positive(y) * w, Positive(z) * w, if z >= 0.0 then w else 0.0, d)
    ensures y <= 0.0 || z >= 0.0 ==> OnLine(Positive(y) * w, Positive(z) * w, if z >= 0.0 then w else 0.0, d)
  {
    assert w * d == y * w - z * w;
    SignOfProduct(y, w);
  }

  /** What `o` is in the money by at `x`: negative when out of it. */
  function Moneyness(o: Contract, x: real): real { if o.kind == CE then x - o.strike else o.strike - x }

  lemma PainByMoneyness(o: Contract, x: real)
    ensures PainOf(o, x) == Positive(Moneyness(o, x)) * Max(o.oi, 0) as real
  {
  }

  /** Moving down takes a call out of the money and a put into it, moving up the other way round. */
  lemma TiltByMoneyness(o: Contract, k: real, down: bool)
    ensures var w, z := Max(o.oi, 0) as real, Moneyness(o, k);
            TiltOf(o, k, down) as real
            == if (o.kind == CE) == down then (if z > 0.0 then -w else 0.0) else (if z >= 0.0 then w else 0.0)
  {
  }

  /** Each contract's pain lies on or above the line through `k`; on it when no strike is passed. */
  lemma PainAboveTilt(o: Contract, k: real, x: real)
    ensures OnOrAbove(PainOf(o, x), PainOf(o, k), TiltOf(o, k, x <= k) as real, Distance(k, x))
    ensures !(x < o.strike < k) && !(k < o.strike < x) ==>
              OnLine(PainOf(o, x), PainOf(o, k), TiltOf(o, k, x <= k) as real, Distance(k, x))
  {
    PainByMoneyness(o, x);
    PainByMoneyness(o, k);
    TiltByMoneyness(o, k, x <= k);
    var w, d, y, z := Max(o.oi, 0) as real, Distance(k, x), Moneyness(o, x), Moneyness(o, k);
    if (o.kind == CE) == (x <= k) { PayoffOut(y, z, w, d); } else { PayoffIn(y, z, w, d); }
  }

  ghost predicate AllOnOrAbove(to: seq<real>, from: seq<real>, slopes: seq<real>, d: real) {
    |from| == |slopes| == |to| && forall i :: 0 <= i < |to| ==> OnOrAbove(to[i], from[i], slopes[i], d)
  }

  lemma {:induction false} SumOnOrAbove(to: seq<real>, from: seq<real>, slopes: seq<real>, d: real)
    requires AllOnOrAbove(to, from, slopes, d)
    ensures OnOrAbove(Sum(to), Sum(from), Sum(slopes), d)
  {
    if to != [] {
      var n := |to| - 1;
      SumOnOrAbove(to[..n], from[..n], slopes[..n], d);
      OneMoreAbove(Sum(to[..n]), Sum(from[..n]), Sum(slopes[..n]), to[n], from[n], slopes[n], d);
    }
  }

  lemma OneMoreAbove(q: real, p: real, m: real, q': real, p': real, m': real, d: real)
    requires OnOrAbove(q, p, m, d) && OnOrAbove(q', p', m', d)
    ensures OnOrAbove(q + q', p + p', m + m', d)
  {
    assert (m + m') * d == m * d + m' * d;
  }

  ghost predicate AllOnLine(to: seq<real>, from: seq<real>, slopes: seq<real>, d: real) {
    |from| == |slopes| == |to| && forall i :: 0 <= i < |to| ==> OnLine(to[i], from[i], slopes[i], d)
  }

  lemma SumOnLine(to: seq<real>, from: seq<real>, slopes: seq<real>, d: real)
    requires AllOnLine(to, from, slopes, d)
    ensures OnLine(Sum(to), Sum(from), Sum(slopes), d)
  {
    SumOfLines(from, slopes, to, d);
  }

  lemma PainsAboveTilts(options: seq<Contract>, k: real, x: real)
    ensures AllOnOrAbove(Pains(options, x), Pains(options, k), Tilts(options, k, x <= k), Distance(k, x))
  {
    forall i | 0 <= i < |options|
      ensures OnOrAbove(PainOf(options[i], x), PainOf(options[i], k), TiltOf(options[i], k, x <= k) as real, Distance(k, x))
    {
      PainAboveTilt(options[i], k, x);
    }
  }

  lemma PainsOnTilts(options: seq<Contract>, k: real, x: real)
    requires NoKinkInside(options, x, k) && NoKinkInside(options, k, x)
    ensures AllOnLine(Pains(options, x), Pains(options, k), Tilts(options, k, x <= k), Distance(k, x))
  {
    forall i | 0 <= i < |options|
      ensures OnLine(PainOf(options[i], x), PainOf(options[i], k), TiltOf(options[i], k, x <= k) as real, Distance(k, x))
    {
      PainAboveTilt(options[i], k, x);
    }
  }

  /** The whole pain lies on or above the line through `k` whose slope is the difference of the open interests. */
  lemma {:induction false} PainAboveTilts(options: seq<Contract>, k: real, x: real)
    ensures OnOrAbove(Pain(options, x), Pain(options, k), Sum(Tilts(options, k, x <= k)), Distance(k, x))
  {
    PainsAboveTilts(options, k, x);
    SumOnOrAbove(Pains(options, x), Pains(options, k), Tilts(options, k, x <= k), Distance(k, x));
  }

  lemma {:induction false} PainOnTilts(options: seq<Contract>, k: real, x: real)
    requires NoKinkInside(options, x, k) && NoKinkInside(options, k, x)
    ensures OnLine(Pain(options, x), Pain(options, k), Sum(Tilts(options, k, x <= k)), Distance(k, x))
  {
    PainsOnTilts(options, k, x);
    SumOnLine(Pains(options, x), Pains(options, k), Tilts(options, k, x <= k), Distance(k, x));
  }

  /** Close enough to `k` there is no other strike. */
  lemma {:induction false} Neighbours(options: seq<Contract>, k: real) returns (a: real, b: real)
    ensures a < k < b && NoKinkInside(options, a, k) && NoKinkInside(options, k, b)
  {
    if options == [] {
      a, b := k - 1.0, k + 1.0;
    } else {
      var n := |options| - 1;
      a, b := Neighbours(options[..n], k);
      var strike := options[n].strike;
      assert forall i :: 0 <= i < n ==> options[..n][i] == options[i];
      if a < strike < k { a := strike; }
      if k < strike < b { b := strike; }
    }
  }

  ghost predicate LeastPain(options: seq<Contract>, k: real) {
    forall x: real :: Pain(options, k) <= Pain(options, x)
  }

  lemma RisingLine(q: real, p: real, m: real, d: real)
    requires d >= 0.0 && m >= 0.0 && OnOrAbove(q, p, m, d)
    ensures q >= p
  {
    SignOfProduct(m, d);
  }

  lemma LineRises(q: real, p: real, m: real, d: real)
    requires d > 0.0 && q >= p && OnLine(q, p, m, d)
    ensures m >= 0.0
  {
  }

  lemma {:induction false} BalancedIsLeast(options: seq<Contract>, k: real)
    requires Balanced(options, k)
    ensures LeastPain(options, k)
  {
    SumOfTilts(options, k);
    forall x: real ensures Pain(options, k) <= Pain(options, x) {
      PainAboveTilts(options, k, x);
      RisingLine(Pain(options, x), Pain(options, k), Sum(Tilts(options, k, x <= k)), Distance(k, x));
    }
  }

  lemma {:induction false} LeastIsBalanced(options: seq<Contract>, k: real)
    requires LeastPain(options, k)
    ensures Balanced(options, k)
  {
    var a, b := Neighbours(options, k);
    SumOfTilts(options, k);
    PainOnTilts(options, k, a);
    PainOnTilts(options, k, b);
    LineRises(Pain(options, a), Pain(options, k), Sum(Tilts(options, k, true)), Distance(k, a));
    LineRises(Pain(options, b), Pain(options, k), Sum(Tilts(options, k, false)), Distance(k, b));
  }

  /** A price is one of least pain, over all real prices, if and only if the open interest balances there. */
  lemma LeastPainIffBalanced(options: seq<Contract>, k: real)
    ensures LeastPain(options, k) <==> Balanced(options, k)
  {
    if Balanced(options, k) { BalancedIsLeast(options, k); }
    if LeastPain(options, k) { LeastIsBalanced(options, k); }
  }

  /** The inner accumulator loop. */
  method TotalPain(options: seq<Contract>, s: real) returns (pain: real)
    ensures pain == Pain(options, s)
  {
    pain := 0.0;
    ghost var pains := Pains(options, s);
    for i := 0 to |options|
      invariant pain == Sum(pains[..i])
    {
      assert pains[..i + 1][..i] == pains[..i];
      var o := options[i];
      var w := if o.oi > 0 then o.oi as real else 0.0;
      if o.kind == CE {
        pain := pain + (if s - o.strike > 0.0 then s - o.strike else 0.0) * w;
      } else {
        pain := pain + (if o.strike - s > 0.0 then o.strike - s else 0.0) * w;
      }
    }
    assert pains[..|options|] == pains;
  }

  /** The strike of least pain: 0 for an empty chain, else a minimum over every real price. */
  method MaxPain(options: seq<Contract>) returns (best: real)
    ensures options == [] ==> best == 0.0
    ensures options != [] ==> LeastStrike(options, best)
    ensures options != [] ==> LeastPain(options, best) && Balanced(options, best)
  {
    best := 0.0;
    var strikes := Strikes(options);
    var found, minPain := false, 0.0;
    for i := 0 to |strikes|
      invariant found <==> i > 0
      invariant found ==> minPain == Pain(options, best) && best in strikes[..i]
      invariant forall j :: 0 <= j < i ==> minPain <= Pain(options, strikes[j])
                                           && (strikes[j] < best ==> minPain < Pain(options, strikes[j]))
      invariant !found ==> best == 0.0
    {
      var pain := TotalPain(options, strikes[i]);
      if !found || pain < minPain {
        found, minPain, best := true, pain, strikes[i];
      }
    }
    if options != [] {
      assert options[0].strike in strikes;
      forall x: real ensures Pain(options, best) <= Pain(options, x) { LeastStrikeIsGlobal(options, best, x); }
      LeastPainIffBalanced(options, best);
    }
  }
}
