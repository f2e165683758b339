/** Volume profile: bars bucketed by price, the busiest bucket and the 68% value area round it. */
module VolumeProfile {
  import opened Common

  datatype Bar = Bar(high: real, low: real, volume: real)

  /** The value area holds 68% of the volume. */
  predicate Enough(held: real, total: real) { held >= 0.68 * total }

  // ------------------------------------------------------------------- bucketing

  function LowestLow(bars: seq<Bar>): (m: real)
    requires bars != []
    ensures forall i :: 0 <= i < |bars| ==> m <= bars[i].low
  {
    var n := |bars| - 1;
    if n == 0 then bars[0].low
    else var r := LowestLow(bars[..n]); if bars[n].low < r then bars[n].low else r
  }

  function HighestHigh(bars: seq<Bar>): (m: real)
    requires bars != []
    ensures forall i :: 0 <= i < |bars| ==> bars[i].high <= m
  {
    var n := |bars| - 1;
    if n == 0 then bars[0].high
    else var r := HighestHigh(bars[..n]); if bars[n].high > r then bars[n].high else r
  }

  /** Both extremes are attained. */
  lemma {:induction false} ExtremesAttained(bars: seq<Bar>)
    requires bars != []
    ensures exists i :: 0 <= i < |bars| && LowestLow(bars) == bars[i].low
    ensures exists i :: 0 <= i < |bars| && HighestHigh(bars) == bars[i].high
  {
    var n := |bars| - 1;
    if n > 0 {
      ExtremesAttained(bars[..n]);
      var i :| 0 <= i < n && LowestLow(bars[..n]) == bars[..n][i].low;
      var j :| 0 <= j < n && HighestHigh(bars[..n]) == bars[..n][j].high;
      assert LowestLow(bars) == bars[if bars[n].low < bars[i].low then n else i].low;
      assert HighestHigh(bars) == bars[if bars[n].high > bars[j].high then n else j].high;
    } else {
      assert LowestLow(bars) == bars[0].low && HighestHigh(bars) == bars[0].high;
    }
  }

  /** 1/50th of the price span, rounded to two decimals, at least 0.05. */
  function DefaultStep(bars: seq<Bar>): (w: real)
    requires bars != []
    ensures w > 0.0
  {
    var span := HighestHigh(bars) - LowestLow(bars);
    if span <= 0.0 then 1.0
    else
      var w := RoundHalfEven(span / 50.0 * 100.0) as real / 100.0;
      if w > 0.05 then w else 0.05
  }

  /** The default width divides the span into 50 steps, up to half a paisa, but is never below 0.05; 1 for a flat span. */
  lemma DefaultStepIsFiftieth(bars: seq<Bar>)
    requires bars != []
    ensures var span := HighestHigh(bars) - LowestLow(bars);
            && (span <= 0.0 ==> DefaultStep(bars) == 1.0)
            && (span > 0.0 ==> DefaultStep(bars) >= 0.05)
            && (span > 2.75 ==> Abs(DefaultStep(bars) - span / 50.0) <= 0.005)
            && (0.0 < span < 2.25 ==> DefaultStep(bars) == 0.05)
  {
  }

  function Width(bars: seq<Bar>, step: Option<real>): (w: real)
    requires bars != []
    ensures w > 0.0
  {
    if step.Some? && step.value > 0.0 then step.value else DefaultStep(bars)
  }

  /** Bucket k is centred on k * width. */
  function BucketIndex(price: real, width: real): int
    requires width > 0.0
  {
    (price / width + 0.5).Floor
  }

  lemma BucketIsMonotone(p: real, q: real, width: real)
    requires width > 0.0 && p <= q
    ensures BucketIndex(p, width) <= BucketIndex(q, width)
  {
    var x, y := p / width, q / width;
    assert x <= y;
    assert (x + 0.5).Floor <= (y + 0.5).Floor;
  }

  /** A price lies within half a width of the centre of its bucket. */
  lemma BucketIsNearest(price: real, width: real)
    requires width > 0.0
    ensures var centre := BucketIndex(price, width) as real * width;
            centre - width / 2.0 <= price < centre + width / 2.0
  {
    var y, k := price / width, BucketIndex(price, width) as real;
    HalfWidth(k, y, price, width);
  }

  lemma HalfWidth(k: real, y: real, price: real, width: real)
    requires width > 0.0 && y == price / width && k - 0.5 <= y < k + 0.5
    ensures k * width - width / 2.0 <= price < k * width + width / 2.0
  {
    assert y * width == price;
    Scaled(k - 0.5, y, width);
    ScaledStrictly(y, k + 0.5, width);
  }

  function BarBucket(b: Bar, width: real): int
    requires width > 0.0
  {
    BucketIndex((b.high + b.low) / 2.0, width)
  }

  function TotalVolume(bars: seq<Bar>): real {
    if bars == [] then 0.0 else TotalVolume(bars[..|bars| - 1]) + bars[|bars| - 1].volume
  }

  /** The volume of the bars whose midpoint lies in bucket `k`. */
  function VolumeAt(bars: seq<Bar>, width: real, k: int): real
    requires width > 0.0
  {
    if bars == [] then 0.0
    else
      var n := |bars| - 1;
      VolumeAt(bars[..n], width, k) + if BarBucket(bars[n], width) == k then bars[n].volume else 0.0
  }

  ghost predicate WellFormed(bars: seq<Bar>) {
    forall i :: 0 <= i < |bars| ==> bars[i].low <= bars[i].high
  }

  /** For well-formed bars the clamp to the bucket range never acts. */
  lemma ClampNeverActs(bars: seq<Bar>, width: real, i: nat)
    requires WellFormed(bars) && width > 0.0 && i < |bars|
    ensures BucketIndex(LowestLow(bars), width) <= BarBucket(bars[i], width) <= BucketIndex(HighestHigh(bars), width)
  {
    var mid := (bars[i].high + bars[i].low) / 2.0;
    BucketIsMonotone(LowestLow(bars), mid, width);
    BucketIsMonotone(mid, HighestHigh(bars), width);
  }

  /** Bucket `kStart + b` holds the volume of its own bars. */
  ghost predicate BucketsHold(bars: seq<Bar>, width: real, kStart: int, vols: seq<real>) {
    width > 0.0 && forall b :: 0 <= b < |vols| ==> vols[b] == VolumeAt(bars, width, kStart + b)
  }

  /** The bucket volumes: nothing is lost, and each bucket holds exactly its own bars. */
  method BucketVolumes(bars: seq<Bar>, width: real) returns (vols: seq<real>, kStart: int)
    requires bars != [] && width > 0.0
    ensures |vols| >= 1 && kStart == BucketIndex(LowestLow(bars), width)
    ensures |vols| == Max(kStart, BucketIndex(HighestHigh(bars), width)) - kStart + 1
    ensures Sum(vols) == TotalVolume(bars)
    ensures WellFormed(bars) ==> BucketsHold(bars, width, kStart, vols)
  {
    kStart := BucketIndex(LowestLow(bars), width);
    var kEnd := Max(kStart, BucketIndex(HighestHigh(bars), width));
    var n := kEnd - kStart + 1;
    vols := seq(n, _ => 0.0);
    SumOfZeros(vols);
    for i := 0 to |bars|
      invariant |vols| == n
      invariant Sum(vols) == TotalVolume(bars[..i])
      invariant WellFormed(bars) ==> BucketsHold(bars[..i], width, kStart, vols)
    {
      assert bars[..i + 1][..i] == bars[..i];
      var b := BarBucket(bars[i], width) - kStart;
      if WellFormed(bars) { ClampNeverActs(bars, width, i); }
      b := Max(0, if b < n - 1 then b else n - 1);
      SumUpdate(vols, b, vols[b] + bars[i].volume);
      vols := vols[b := vols[b] + bars[i].volume];
    }
    assert bars[..|bars|] == bars;
  }

  lemma {:induction false} SumOfZeros(xs: seq<real>)
    requires forall i :: 0 <= i < |xs| ==> xs[i] == 0.0
    ensures Sum(xs) == 0.0
  {
    if xs != [] { SumOfZeros(xs[..|xs| - 1]); }
  }

  // ------------------------------------------------------------------ value area

  /** A contiguous, inclusive range of buckets. */
  datatype Range = Range(lo: int, hi: int)

  ghost predicate Inside(vols: seq<real>, r: Range) { 0 <= r.lo <= r.hi < |vols| }

  function Held(vols: seq<real>, r: Range): real
    requires 0 <= r.lo <= r.hi < |vols|
  {
    Sum(vols[r.lo..r.hi + 1])
  }

  /** The first bucket of maximal volume. */
  ghost predicate IsPoc(vols: seq<real>, poc: int) {
    && 0 <= poc < |vols|
    && (forall b :: 0 <= b < |vols| ==> vols[b] <= vols[poc])
    && (forall b :: 0 <= b < poc ==> vols[b] < vols[poc])
  }

  /** `next` adds one neighbour of `r`: the busier one, the left one on a tie, the only one at an edge. */
  ghost predicate Grows(vols: seq<real>, r: Range, next: Range) {
    && Inside(vols, r) && Inside(vols, next)
    && (next == Range(r.lo - 1, r.hi) || next == Range(r.lo, r.hi + 1))
    && (r.lo > 0 && r.hi < |vols| - 1 ==> (next.lo < r.lo <==> vols[r.lo - 1] >= vols[r.hi + 1]))
  }

  ghost predicate Short(vols: seq<real>, r: Range) {
    Inside(vols, r) && !Enough(Held(vols, r), Sum(vols))
  }

  /** A greedy growth from the busiest bucket through ranges that do not yet hold 68%. */
  ghost predicate Growth(vols: seq<real>, poc: int, path: seq<Range>) {
    && |path| >= 1 && path[0] == Range(poc, poc)
    && forall i :: 0 <= i < |path| - 1 ==> Short(vols, path[i]) && Grows(vols, path[i], path[i + 1])
  }

  /** A growth that stops at the first range holding 68%. */
  ghost predicate GreedyPath(vols: seq<real>, path: seq<Range>) {
    && |path| >= 1 && IsPoc(vols, path[0].lo) && Growth(vols, path[0].lo, path)
    && Inside(vols, path[|path| - 1])
    && Enough(Held(vols, path[|path| - 1]), Sum(vols))
  }

  lemma GrowthExtends(vols: seq<real>, poc: int, path: seq<Range>, next: Range)
    requires Growth(vols, poc, path)
    requires Short(vols, path[|path| - 1]) && Grows(vols, path[|path| - 1], next)
    ensures Growth(vols, poc, path + [next])
  {
  }

  lemma HeldGrows(vols: seq<real>, lo: int, hi: int)
    requires 0 <= lo <= hi < |vols|
    ensures lo > 0 ==> Held(vols, Range(lo - 1, hi)) == Held(vols, Range(lo, hi)) + vols[lo - 1]
    ensures hi < |vols| - 1 ==> Held(vols, Range(lo, hi + 1)) == Held(vols, Range(lo, hi)) + vols[hi + 1]
  {
    if lo > 0 {
      assert vols[lo - 1..hi + 1] == [vols[lo - 1]] + vols[lo..hi + 1];
      SumSplit([vols[lo - 1]], vols[lo..hi + 1]);
      assert Sum([vols[lo - 1]]) == Sum([]) + vols[lo - 1];
    }
    if hi < |vols| - 1 {
      assert vols[lo..hi + 2][..hi + 1 - lo] == vols[lo..hi + 1];
    }
  }

  /**
   * Grow from the busiest bucket until 68% is held.  The result is contiguous round that
   * bucket, holds 68%, and (by the path) would not without the bucket added last.
   */
  method ValueArea(vols: seq<real>) returns (poc: int, r: Range, ghost path: seq<Range>)
    requires vols != [] && Sum(vols) > 0.0
    ensures IsPoc(vols, poc)
    ensures Inside(vols, r) && r.lo <= poc <= r.hi && Held(vols, r) >= 0.68 * Sum(vols)
    ensures GreedyPath(vols, path) && path[0] == Range(poc, poc) && path[|path| - 1] == r
  {
    poc := BusiestBucket(vols);
    var total := Sum(vols);
    var acc := vols[poc];
    var left, right := poc - 1, poc + 1;
    path := [Range(poc, poc)];
    HeldByOne(vols, poc);
    while !Enough(acc, total) && (left >= 0 || right < |vols|)
      invariant -1 <= left < poc < right <= |vols|
      invariant acc == Held(vols, Range(left + 1, right - 1))
      invariant Growth(vols, poc, path) && path[|path| - 1] == Range(left + 1, right - 1)
      decreases left + 1 + |vols| - right
    {
      ghost var before := Range(left + 1, right - 1);
      var pick := PickSide(vols, left, right);
      acc := acc + vols[pick];
      if pick == left { left := left - 1; } else { right := right + 1; }
      assert Short(vols, before);
      GrowthExtends(vols, poc, path, Range(left + 1, right - 1));
      path := path + [Range(left + 1, right - 1)];
    }
    r := Range(left + 1, right - 1);
    if left < 0 && right >= |vols| { assert vols[0..|vols|] == vols; }
  }

  /** The neighbour to add next, with what it does to the range and to the volume held. */
  method PickSide(vols: seq<real>, left: int, right: int) returns (pick: int)
    requires -1 <= left < right - 1 < |vols| && (left >= 0 || right < |vols|)
    ensures (pick == left && left >= 0) || (pick == right && right < |vols|)
    ensures var next := if pick == left then Range(left, right - 1) else Range(left + 1, right);
            && Grows(vols, Range(left + 1, right - 1), next)
            && Held(vols, next) == Held(vols, Range(left + 1, right - 1)) + vols[pick]
  {
    HeldGrows(vols, left + 1, right - 1);
    if left < 0 {
      pick := right;
    } else if right >= |vols| {
      pick := left;
    } else {
      pick := if vols[left] >= vols[right] then left else right;
    }
  }

  method BusiestBucket(vols: seq<real>) returns (poc: int)
    requires vols != []
    ensures IsPoc(vols, poc)
  {
    poc := 0;
    for b := 1 to |vols|
      invariant 0 <= poc < b
      invariant forall c :: 0 <= c < b ==> vols[c] <= vols[poc]
      invariant forall c :: 0 <= c < poc ==> vols[c] < vols[poc]
    {
      if vols[b] > vols[poc] { poc := b; }
    }
  }

  lemma HeldByOne(vols: seq<real>, b: int)
    requires 0 <= b < |vols|
    ensures Held(vols, Range(b, b)) == vols[b]
  {
    var one := vols[b..b + 1];
    assert one == [vols[b]] && one[..0] == [];
    assert Sum(one) == Sum(one[..0]) + one[0];
  }

  /** Before its last bucket was added, at whichever end, the area held less than 68%. */
  lemma LastBucketWasNeeded(vols: seq<real>, path: seq<Range>)
    requires GreedyPath(vols, path) && |path| > 1
    ensures Short(vols, path[|path| - 2]) && Held(vols, path[|path| - 2]) < 0.68 * Sum(vols)
    ensures Grows(vols, path[|path| - 2], path[|path| - 1])
    ensures path[|path| - 1] == path[|path| - 2].(lo := path[|path| - 2].lo - 1)
            || path[|path| - 1] == path[|path| - 2].(hi := path[|path| - 2].hi + 1)
  {
    var n := |path| - 2;
    assert Short(vols, path[n]) && Grows(vols, path[n], path[n + 1]);
  }

  /** The greedy path, and so the value area, is the only one there is. */
  lemma {:induction false} ValueAreaIsUnique(vols: seq<real>, p: seq<Range>, q: seq<Range>, i: nat)
    requires GreedyPath(vols, p) && GreedyPath(vols, q) && i < |p| && i < |q|
    ensures p[i] == q[i]
    ensures i == |p| - 1 <==> i == |q| - 1
  {
    if i > 0 {
      ValueAreaIsUnique(vols, p, q, i - 1);
      assert Grows(vols, p[i - 1], p[i - 1 + 1]) && Grows(vols, q[i - 1], q[i - 1 + 1]);
    } else {
      assert p[0].lo == q[0].lo;
    }
    assert i < |p| - 1 ==> Short(vols, p[i]);
    assert i < |q| - 1 ==> Short(vols, q[i]);
  }

  // ------------------------------------------------------------------- the profile

  /** Prices are kept as bucket numbers: bucket k stands for the price k * step. */
  datatype Level = Level(bucket: int, volume: real)
  datatype Profile = Profile(levels: seq<Level>, poc: int, vah: int, val: int, step: real)

  /** The whole profile; empty or volume-free input gives the empty profile. */
  method BuildVolumeProfile(bars: seq<Bar>, step: Option<real>) returns (p: Profile)
    ensures bars == [] ==> p == Profile([], 0, 0, 0, if step.Some? then step.value else 0.0)
    ensures bars != [] && TotalVolume(bars) <= 0.0 ==> p == Profile([], 0, 0, 0, Width(bars, step))
    ensures bars != [] && TotalVolume(bars) > 0.0 ==>
              && p.step == Width(bars, step)
              && Sum(Volumes(p.levels)) == TotalVolume(bars)
              && HasValueArea(p)
              && (WellFormed(bars) ==> LevelsOf(bars, p))
  {
    if bars == [] {
      return Profile([], 0, 0, 0, if step.Some? then step.value else 0.0);
    }
    p := ProfileAt(bars, Width(bars, step));
  }

  method ProfileAt(bars: seq<Bar>, width: real) returns (p: Profile)
    requires bars != [] && width > 0.0
    ensures TotalVolume(bars) <= 0.0 ==> p == Profile([], 0, 0, 0, width)
    ensures TotalVolume(bars) > 0.0 ==>
              && p.step == width
              && Sum(Volumes(p.levels)) == TotalVolume(bars)
              && HasValueArea(p)
              && (WellFormed(bars) ==> LevelsOf(bars, p))
  {
    var vols, kStart := BucketVolumes(bars, width);
    if Sum(vols) <= 0.0 {
      return Profile([], 0, 0, 0, width);
    }
    p := Assemble(vols, kStart, width);
  }

  method Assemble(vols: seq<real>, kStart: int, width: real) returns (p: Profile)
    requires vols != [] && Sum(vols) > 0.0
    ensures p.step == width && Volumes(p.levels) == vols
    ensures forall b :: 0 <= b < |vols| ==> p.levels[b] == Level(kStart + b, vols[b])
    ensures HasValueArea(p)
  {
    var poc, r, path := ValueArea(vols);
    var levels := seq(|vols|, b requires 0 <= b < |vols| => Level(kStart + b, vols[b]));
    p := Profile(levels, levels[poc].bucket, levels[r.hi].bucket, levels[r.lo].bucket, width);
    assert Volumes(levels) == vols;
    assert GreedyPath(Volumes(p.levels), path) && Area(p, path[0], path[|path| - 1]);
  }

  /** Some 68% growth of the level volumes starts and ends at the reported buckets. */
  ghost predicate HasValueArea(p: Profile) {
    exists path :: GreedyPath(Volumes(p.levels), path) && Area(p, path[0], path[|path| - 1])
  }

  /** Each level is numbered by its bucket and holds exactly that bucket's bars. */
  ghost predicate LevelsOf(bars: seq<Bar>, p: Profile)
    requires bars != []
  {
    && p.step > 0.0
    && BucketsHold(bars, p.step, BucketIndex(LowestLow(bars), p.step), Volumes(p.levels))
    && forall b :: 0 <= b < |p.levels| ==> p.levels[b].bucket == BucketIndex(LowestLow(bars), p.step) + b
  }

  function Volumes(levels: seq<Level>): seq<real> {
    seq(|levels|, b requires 0 <= b < |levels| => levels[b].volume)
  }

  /** The reported buckets are those of the first and last range of the growth. */
  ghost predicate Area(p: Profile, first: Range, last: Range) {
    && 0 <= last.lo <= first.lo <= last.hi < |p.levels|
    && p.poc == p.levels[first.lo].bucket && p.val == p.levels[last.lo].bucket && p.vah == p.levels[last.hi].bucket
  }
}
