/** The idempotency guard that stands between a submission and the venue. */
module Guard {
  import opened Common
  import opened EventStore

  type Key = string

  datatype State = State(reserved: set<Key>, completed: map<Key, OrderId>, order: seq<Key>)

  /** In-flight stands for the error raised on a key that is reserved already. */
  datatype Answer = Fresh | Duplicate(result: OrderId) | InFlight

  function Checked(g: State, k: Key): (State, Answer) {
    if k in g.completed then (g, Duplicate(g.completed[k]))
    else if k in g.reserved then (g, InFlight)
    else (g.(reserved := g.reserved + {k}), Fresh)
  }

  function Elements(s: seq<Key>): set<Key> { set k | k in s }

  /** Drop the oldest keys until at most `cap` are listed. */
  function Evicted(g: State, cap: nat): State {
    var dropped := g.order[..|g.order| - |LastN(g.order, cap)|];
    State(g.reserved, g.completed - Elements(dropped), LastN(g.order, cap))
  }

  function Recorded(g: State, k: Key, result: OrderId, cap: nat): State {
    var listed := if k in g.completed then g else g.(completed := g.completed[k := result], order := g.order + [k]);
    Evicted(listed.(reserved := g.reserved - {k}), cap)
  }

  function Released(g: State, k: Key): State { g.(reserved := g.reserved - {k}) }

  // ------------------------------------------------------------------- invariant

  ghost predicate Distinct(s: seq<Key>) {
    forall i, j :: 0 <= i < j < |s| ==> s[i] != s[j]
  }

  /** The order list is a duplicate-free listing of the completed keys, none of them reserved. */
  ghost predicate Lists(g: State) {
    g.reserved !! g.completed.Keys && Distinct(g.order) && Elements(g.order) == g.completed.Keys
  }

  ghost predicate Inv(g: State, cap: nat) {
    Lists(g) && |g.order| <= cap
  }

  lemma SplitDistinct(s: seq<Key>, n: nat)
    requires Distinct(s) && n <= |s|
    ensures Distinct(s[n..]) && Elements(s[n..]) == Elements(s) - Elements(s[..n])
  {
    forall k | k in s ensures k in s[n..] <==> k !in s[..n] {
      var i :| 0 <= i < |s| && s[i] == k;
      if i < n { assert s[..n][i] == k; } else { assert s[n..][i - n] == k; }
    }
    assert forall k :: k in s[n..] ==> k in s;
  }

  lemma EvictedKeepsInv(g: State, cap: nat)
    requires Lists(g)
    ensures Inv(Evicted(g, cap), cap)
  {
    LastNIsSuffix(g.order, cap);
    SplitDistinct(g.order, |g.order| - |LastN(g.order, cap)|);
  }

  /** A key that has left the last `n` entries is more than `n` places back. */
  lemma LongGone(s: seq<Key>, n: nat, i: nat)
    requires i < |s| && s[i] !in LastN(s, n)
    ensures |s| - i > n
  {
    LastNIsSuffix(s, n);
    var d := |s| - |LastN(s, n)|;
    forall j | d <= j < |s| ensures s[j] in LastN(s, n) { assert LastN(s, n)[j - d] == s[j]; }
  }

  lemma RecordedKeepsInv(g: State, k: Key, result: OrderId, cap: nat)
    requires Inv(g, cap)
    ensures Inv(Recorded(g, k, result, cap), cap)
  {
    var listed := if k in g.completed then g else g.(completed := g.completed[k := result], order := g.order + [k]);
    if k !in g.completed {
      assert k !in Elements(g.order);
      assert Elements(listed.order) == Elements(g.order) + {k};
    }
    EvictedKeepsInv(listed.(reserved := g.reserved - {k}), cap);
  }

  // ----------------------------------------------------------------------- runs

  /** Threads begin with a key; only a thread that got Fresh holds the reservation and may finish. */
  datatype Step = Begin(k: Key) | Placed(k: Key, result: OrderId) | PlacementFailed(k: Key)

  /** `accepted` lists, in order, the keys of every placement the venue accepted. */
  datatype Machine = Machine(g: State, accepted: seq<Key>)

  predicate Enabled(m: Machine, s: Step) {
    s.Begin? || s.k in m.g.reserved
  }

  function Next(m: Machine, s: Step, cap: nat): Machine {
    match s
    case Begin(k) => m.(g := Checked(m.g, k).0)
    case Placed(k, result) => Machine(Recorded(m.g, k, result, cap), m.accepted + [k])
    case PlacementFailed(k) => m.(g := Released(m.g, k))
  }

  /** Among any `cap + 1` consecutive acceptances no key occurs twice. */
  ghost predicate Sparse(s: seq<Key>, cap: nat) {
    forall i, j :: 0 <= i < j < |s| && s[i] == s[j] ==> j - i > cap
  }

  ghost predicate MachineInv(m: Machine, cap: nat) {
    Inv(m.g, cap) && m.g.order == LastN(m.accepted, cap) && Sparse(m.accepted, cap)
  }

  lemma NextKeepsInv(m: Machine, s: Step, cap: nat)
    requires MachineInv(m, cap) && Enabled(m, s)
    ensures MachineInv(Next(m, s, cap), cap)
  {
    if s.Placed? {
      RecordedKeepsInv(m.g, s.k, s.result, cap);
      assert s.k !in m.g.completed;
      assert s.k !in m.g.order by { assert s.k !in Elements(m.g.order); }
      LastNAppend(m.accepted, cap, s.k);
      var s' := m.accepted + [s.k];
      forall i | 0 <= i < |m.accepted| && m.accepted[i] == s.k ensures |m.accepted| - i > cap {
        LongGone(m.accepted, cap, i);
      }
    }
  }

  ghost predicate Run(steps: seq<Step>, states: seq<Machine>, cap: nat) {
    && |states| == |steps| + 1
    && states[0] == Machine(State({}, map[], []), [])
    && forall i :: 0 <= i < |steps| ==> Stepped(steps, states, cap, i)
  }

  /** Step `i` was enabled and led to the next state. */
  ghost predicate Stepped(steps: seq<Step>, states: seq<Machine>, cap: nat, i: int)
    requires 0 <= i < |steps| && |states| == |steps| + 1
  {
    Enabled(states[i], steps[i]) && states[i + 1] == Next(states[i], steps[i], cap)
  }

  lemma {:induction false} RunKeepsInv(steps: seq<Step>, states: seq<Machine>, cap: nat, i: nat)
    requires Run(steps, states, cap) && i < |states|
    ensures MachineInv(states[i], cap)
  {
    if i == 0 {
      assert Elements([]) == {};
    } else {
      RunKeepsInv(steps, states, cap, i - 1);
      assert Stepped(steps, states, cap, i - 1);
      NextKeepsInv(states[i - 1], steps[i - 1], cap);
    }
  }

  lemma {:induction false} AcceptedOnlyGrows(steps: seq<Step>, states: seq<Machine>, cap: nat, i: nat, j: nat)
    requires Run(steps, states, cap) && i <= j < |states|
    ensures |states[i].accepted| <= |states[j].accepted|
    ensures states[j].accepted[..|states[i].accepted|] == states[i].accepted
    decreases j
  {
    if i < j {
      AcceptedOnlyGrows(steps, states, cap, i, j - 1);
      assert Stepped(steps, states, cap, j - 1);
      var n := |states[i].accepted|;
      assert states[j].accepted[..n] == states[j - 1].accepted[..n];
    }
  }

  /**
   * At-most-once placement, in every interleaving of submissions: once the venue has accepted
   * a placement for `k` (step i), a thread is let through to the venue with `k` again (step j)
   * only after `cap` further acceptances, all of them of other keys.
   */
  lemma AtMostOncePlacement(steps: seq<Step>, states: seq<Machine>, cap: nat, i: nat, j: nat)
    requires Run(steps, states, cap) && i < j < |steps|
    requires steps[i].Placed? && steps[j] == Begin(steps[i].k)
    requires Checked(states[j].g, steps[i].k).1 == Fresh
    ensures var m, n := |states[i + 1].accepted|, |states[j].accepted|;
            n - m >= cap && forall p :: m <= p < m + cap ==> states[j].accepted[p] != steps[i].k
  {
    RunKeepsInv(steps, states, cap, j);
    AcceptedOnlyGrows(steps, states, cap, i + 1, j);
    var k, m, acc := steps[i].k, |states[i + 1].accepted|, states[j].accepted;
    assert Stepped(steps, states, cap, i);
    assert acc[..m][m - 1] == k;
    assert k !in Elements(states[j].g.order);
    LongGone(acc, cap, m - 1);
  }

  /** No step strictly between `i` and `j` finishes a placement of `k`. */
  ghost predicate Unfinished(steps: seq<Step>, k: Key, i: nat, j: nat)
    requires j <= |steps|
  {
    forall m :: i < m < j ==> steps[m] != PlacementFailed(k) && !(steps[m].Placed? && steps[m].k == k)
  }

  lemma {:induction false} StaysReserved(steps: seq<Step>, states: seq<Machine>, cap: nat, i: nat, j: nat)
    requires Run(steps, states, cap) && i < j <= |steps| && steps[i].Begin? && Unfinished(steps, steps[i].k, i, j)
    requires Checked(states[i].g, steps[i].k).1 == Fresh
    ensures steps[i].k in states[j].g.reserved
    decreases j
  {
    assert Stepped(steps, states, cap, j - 1);
    if j > i + 1 { StaysReserved(steps, states, cap, i, j - 1); }
  }

  /** One at a time: while a placement is under way, every other submission of its key is told so. */
  lemma OneInFlight(steps: seq<Step>, states: seq<Machine>, cap: nat, i: nat, j: nat)
    requires Run(steps, states, cap) && i < j < |steps| && steps[i].Begin? && Unfinished(steps, steps[i].k, i, j)
    requires Checked(states[i].g, steps[i].k).1 == Fresh
    ensures Checked(states[j].g, steps[i].k).1 == InFlight
  {
    StaysReserved(steps, states, cap, i, j);
    RunKeepsInv(steps, states, cap, j);
  }

  ghost predicate Free(g: State, k: Key) { k !in g.reserved && k !in g.completed }

  lemma FreeStep(m: Machine, s: Step, cap: nat, k: Key)
    requires MachineInv(m, cap) && Enabled(m, s) && s != Begin(k) && (s == PlacementFailed(k) || Free(m.g, k))
    ensures Free(Next(m, s, cap).g, k)
  {
  }

  lemma {:induction false} StaysFree(steps: seq<Step>, states: seq<Machine>, cap: nat, i: nat, j: nat)
    requires Run(steps, states, cap) && i < j <= |steps| && steps[i].PlacementFailed?
    requires forall m :: i < m < j ==> steps[m] != Begin(steps[i].k)
    ensures Free(states[j].g, steps[i].k)
    decreases j
  {
    assert Stepped(steps, states, cap, j - 1);
    RunKeepsInv(steps, states, cap, j - 1);
    if j > i + 1 { StaysFree(steps, states, cap, i, j - 1); }
    FreeStep(states[j - 1], steps[j - 1], cap, steps[i].k);
  }

  /** After a failed placement the next submission of its key is let through. */
  lemma RetryAfterFailure(steps: seq<Step>, states: seq<Machine>, cap: nat, i: nat, j: nat)
    requires Run(steps, states, cap) && i < j <= |steps| && steps[i].PlacementFailed?
    requires forall m :: i < m < j ==> steps[m] != Begin(steps[i].k)
    ensures Checked(states[j].g, steps[i].k).1 == Fresh
  {
    StaysFree(steps, states, cap, i, j);
  }

  /** If `k` is completed, it is with the result `r`. */
  ghost predicate ResultIs(g: State, k: Key, r: OrderId) { k in g.completed ==> g.completed[k] == r }

  lemma ResultStep(m: Machine, s: Step, cap: nat, k: Key, r: OrderId)
    requires MachineInv(m, cap) && Enabled(m, s)
    requires s == Placed(k, r) || (k in m.g.completed && ResultIs(m.g, k, r))
    ensures ResultIs(Next(m, s, cap).g, k, r)
  {
  }

  lemma AcceptedLength(steps: seq<Step>, states: seq<Machine>, cap: nat, j: nat)
    requires Run(steps, states, cap) && j < |steps|
    ensures |states[j].accepted| <= |states[j + 1].accepted|
  {
    assert Stepped(steps, states, cap, j);
  }

  lemma RunResultStep(steps: seq<Step>, states: seq<Machine>, cap: nat, j: nat, k: Key, r: OrderId)
    requires Run(steps, states, cap) && j < |steps|
    requires steps[j] == Placed(k, r) || Holds(states[j].g, k, r)
    ensures ResultIs(states[j + 1].g, k, r)
  {
    RunKeepsInv(steps, states, cap, j);
    assert Stepped(steps, states, cap, j);
    ResultStep(states[j], steps[j], cap, k, r);
  }

  /** `k` is completed, with the result `r`. */
  ghost predicate Holds(g: State, k: Key, r: OrderId) { k in g.completed && ResultIs(g, k, r) }

  lemma {:induction false} ResultKept(steps: seq<Step>, states: seq<Machine>, cap: nat, i: nat, j: nat)
    requires Run(steps, states, cap) && i < j <= |steps| && steps[i].Placed?
    requires |states[j].accepted| - |states[i + 1].accepted| < cap
    ensures Holds(states[j].g, steps[i].k, steps[i].result)
    decreases j
  {
    if j > i + 1 {
      AcceptedLength(steps, states, cap, j - 1);
      ResultKept(steps, states, cap, i, j - 1);
    }
    RecentIsListed(steps, states, cap, i, j);
    RunResultStep(steps, states, cap, j - 1, steps[i].k, steps[i].result);
  }

  lemma RecentInLast(s: seq<Key>, n: nat, i: nat)
    requires i < |s| && |s| - i <= n
    ensures s[i] in LastN(s, n)
  {
    LastNIsSuffix(s, n);
    assert LastN(s, n)[i - (|s| - |LastN(s, n)|)] == s[i];
  }

  /** A key among the latest acceptances is still completed. */
  lemma RecentIsListed(steps: seq<Step>, states: seq<Machine>, cap: nat, i: nat, j: nat)
    requires Run(steps, states, cap) && i < j < |states| && steps[i].Placed?
    requires |states[j].accepted| - |states[i + 1].accepted| < cap
    ensures steps[i].k in states[j].g.completed
  {
    RunKeepsInv(steps, states, cap, j);
    AcceptedOnlyGrows(steps, states, cap, i + 1, j);
    var acc, m := states[j].accepted, |states[i + 1].accepted|;
    assert Stepped(steps, states, cap, i);
    assert acc[..m][m - 1] == steps[i].k;
    RecentInLast(acc, cap, m - 1);
    assert steps[i].k in Elements(states[j].g.order);
  }

  /** Until `cap` other acceptances have gone by, a repeated submission is answered with the order id of the first. */
  lemma RepeatGetsTheResult(steps: seq<Step>, states: seq<Machine>, cap: nat, i: nat, j: nat)
    requires Run(steps, states, cap) && i < j <= |steps| && steps[i].Placed?
    requires |states[j].accepted| - |states[i + 1].accepted| < cap
    ensures Checked(states[j].g, steps[i].k).1 == Duplicate(steps[i].result)
  {
    ResultKept(steps, states, cap, i, j);
  }

  // ------------------------------------------------------------------- the object

  class MemoryIdempotencyGuard {
    const cap: nat
    var reserved: set<Key>
    var completed: map<Key, OrderId>
    var order: seq<Key>

    ghost function View(): State
      reads this
    {
      State(reserved, completed, order)
    }

    ghost predicate Valid()
      reads this
    {
      Inv(View(), cap)
    }

    constructor (cap: nat)
      ensures this.cap == cap && Valid() && View() == State({}, map[], [])
    {
      this.cap := cap;
      reserved, completed, order := {}, map[], [];
    }

    method CheckAndReserve(k: Key) returns (a: Answer)
      requires Valid()
      modifies this`reserved
      ensures Valid() && (View(), a) == Checked(old(View()), k)
    {
      if k in completed { return Duplicate(completed[k]); }
      if k in reserved { return InFlight; }
      assert k !in Elements(order);
      reserved := reserved + {k};
      a := Fresh;
    }

    method RecordResult(k: Key, result: OrderId)
      requires Valid()
      modifies this
      ensures Valid() && View() == Recorded(old(View()), k, result, cap)
    {
      RecordedKeepsInv(View(), k, result, cap);
      if k !in completed {
        completed := completed[k := result];
        order := order + [k];
      }
      reserved := reserved - {k};
      EvictIfOverCap();
    }

    method Release(k: Key)
      requires Valid()
      modifies this`reserved
      ensures Valid() && View() == Released(old(View()), k)
    {
      reserved := reserved - {k};
    }

    /** The eviction loop: pop the head of the list and forget its result. */
    method EvictIfOverCap()
      modifies this`order, this`completed
      ensures View() == Evicted(old(View()), cap)
    {
      ghost var n := 0;
      while |order| > cap
        invariant n <= |old(order)| && order == old(order)[n..]
        invariant completed == old(completed) - Elements(old(order)[..n])
        invariant n > 0 ==> |order| >= cap
      {
        var oldest := order[0];
        order := order[1..];
        completed := completed - {oldest};
        assert old(order)[..n + 1] == old(order)[..n] + [oldest];
        assert Elements(old(order)[..n + 1]) == Elements(old(order)[..n]) + {oldest};
        n := n + 1;
      }
      assert Elements([]) == {};
    }
  }
}
