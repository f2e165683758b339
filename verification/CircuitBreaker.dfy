/** The circuit breaker around the order-status calls, with its kill latch. */
module CircuitBreaker {
  import opened Common

  datatype Circuit = Closed | Open | HalfOpen
  datatype Config = Config(threshold: int, cooldown: real)
  datatype Breaker = Breaker(state: Circuit, failures: int, openedAt: real, killed: bool)

  const INITIAL := Breaker(Closed, 0, 0.0, false)

  function MaybeReset(c: Config, b: Breaker, now: real): (Breaker, bool) {
    if b.state == Open && now - b.openedAt >= c.cooldown then (b.(state := HalfOpen), true) else (b, false)
  }

  function OnSuccess(b: Breaker): Breaker {
    if b.killed then b else b.(state := Closed, failures := 0)
  }

  function OnFailure(c: Config, b: Breaker, now: real): Breaker {
    var f := b.failures + 1;
    if f >= c.threshold then Breaker(Open, f, now, b.killed) else b.(failures := f)
  }

  function TripKill(c: Config, now: real): Breaker { Breaker(Open, c.threshold, now, true) }

  function ReleaseKill(b: Breaker): Breaker { b.(killed := false) }

  // ---------------------------------------------------- how poll uses the breaker

  datatype Outcome = Answered | Throttled | Broken

  /** May the broker be called now?  An open circuit lets one probe through after the cooldown. */
  function Admit(c: Config, b: Breaker, now: real): (Breaker, bool) {
    if b.state == Open then MaybeReset(c, b, now) else (b, true)
  }

  function Settle(c: Config, b: Breaker, o: Outcome, now: real): Breaker {
    match o
    case Answered => OnSuccess(b)
    case Throttled => b
    case Broken => OnFailure(c, b, now)
  }

  /** One visit of poll to one order; an order evicted while the circuit is open makes no attempt. */
  datatype Step = Visit(now: real, o: Outcome, evicted: bool) | Kill(now: real) | Release(now: real)

  predicate Skipped(b: Breaker, s: Step) { s.Visit? && b.state == Open && s.evicted }

  predicate Calls(c: Config, b: Breaker, s: Step) {
    s.Visit? && !Skipped(b, s) && Admit(c, b, s.now).1
  }

  function Next(c: Config, b: Breaker, s: Step): Breaker {
    match s
    case Visit(now, o, _) =>
      if Skipped(b, s) then b
      else
        var (b', admitted) := Admit(c, b, now);
        if admitted then Settle(c, b', o, now) else b'
    case Kill(now) => TripKill(c, now)
    case Release(_) => ReleaseKill(b)
  }

  // ------------------------------------------------------------------------- runs

  /** A closed circuit is below the threshold, any other is not, and a killed one is not closed. */
  ghost predicate Inv(c: Config, b: Breaker) {
    && (b.state == Closed ==> b.failures < Max(c.threshold, 1))
    && (b.state != Closed ==> b.failures >= c.threshold)
    && (b.killed ==> b.state != Closed)
  }

  ghost predicate Run(c: Config, steps: seq<Step>, states: seq<Breaker>) {
    && |states| == |steps| + 1
    && (forall i :: 0 <= i < |steps| ==> states[i + 1] == Next(c, states[i], steps[i]))
    && (forall i, j :: 0 <= i <= j < |steps| ==> steps[i].now <= steps[j].now)
  }

  lemma {:induction false} RunKeepsInv(c: Config, steps: seq<Step>, states: seq<Breaker>, i: nat)
    requires Run(c, steps, states) && states[0] == INITIAL && i < |states|
    ensures Inv(c, states[i])
  {
    if i > 0 {
      RunKeepsInv(c, steps, states, i - 1);
      assert states[i - 1 + 1] == Next(c, states[i - 1], steps[i - 1]);
    }
  }

  /** Until the cooldown has passed an open circuit stays open, however often it is visited. */
  lemma {:induction false} StaysOpen(c: Config, steps: seq<Step>, states: seq<Breaker>, i: nat, j: nat)
    requires Run(c, steps, states) && i <= j < |steps|
    requires states[i].state == Open && steps[j].now < states[i].openedAt + c.cooldown
    requires steps[i].now >= states[i].openedAt
    ensures states[j].state == Open && states[j].openedAt >= states[i].openedAt
    decreases j
  {
    if i < j {
      assert steps[j - 1].now <= steps[j].now;
      StaysOpen(c, steps, states, i, j - 1);
      assert states[j - 1 + 1] == Next(c, states[j - 1], steps[j - 1]);
      assert steps[i].now <= steps[j - 1].now;
    }
  }

  /** From the moment the circuit is open, no status call is made before the cooldown has elapsed. */
  lemma NoCallBeforeCooldown(c: Config, steps: seq<Step>, states: seq<Breaker>, i: nat, j: nat)
    requires Run(c, steps, states) && i <= j < |steps|
    requires states[i].state == Open && steps[i].now >= states[i].openedAt
    requires Calls(c, states[j], steps[j])
    ensures steps[j].now >= states[i].openedAt + c.cooldown
  {
    if steps[j].now < states[i].openedAt + c.cooldown {
      StaysOpen(c, steps, states, i, j);
    }
  }

  /** A failed probe reopens the circuit and restarts the cooldown from the probe. */
  lemma FailedProbeReopens(c: Config, b: Breaker, s: Step)
    requires Inv(c, b) && b.state != Closed && Calls(c, b, s) && s.o == Broken
    ensures Next(c, b, s).state == Open && Next(c, b, s).openedAt == s.now
  {
  }

  /** A broker that stays down is called at most once per cooldown after the circuit has opened. */
  lemma DeadBrokerIsProbedSparingly(c: Config, steps: seq<Step>, states: seq<Breaker>, i: nat, j: nat)
    requires Run(c, steps, states) && states[0] == INITIAL && i < j < |steps|
    requires states[i].state != Closed && Calls(c, states[i], steps[i]) && steps[i].o == Broken
    requires Calls(c, states[j], steps[j])
    ensures steps[j].now >= steps[i].now + c.cooldown
  {
    RunKeepsInv(c, steps, states, i);
    FailedProbeReopens(c, states[i], steps[i]);
    assert states[i + 1] == Next(c, states[i], steps[i]);
    NoCallBeforeCooldown(c, steps, states, i + 1, j);
  }

  /** Consecutive failures: the circuit opens at the threshold-th (at the first, for a threshold below 1) and not before. */
  lemma {:induction false} OpensAtThreshold(c: Config, steps: seq<Step>, states: seq<Breaker>, n: nat)
    requires Run(c, steps, states) && states[0] == INITIAL && n < |states| && n <= Max(c.threshold, 1)
    requires forall i :: 0 <= i < n ==> steps[i].Visit? && steps[i].o == Broken
    ensures states[n].failures == n && (states[n].state == Open <==> n == Max(c.threshold, 1))
    ensures n < Max(c.threshold, 1) ==> states[n].state == Closed
  {
    if n > 0 {
      OpensAtThreshold(c, steps, states, n - 1);
      assert states[n - 1 + 1] == Next(c, states[n - 1], steps[n - 1]);
    }
  }

  // --------------------------------------------------------------- the kill latch

  /** The circuit has been killed at step `i` and not released before step `j`. */
  ghost predicate KilledSince(steps: seq<Step>, i: nat, j: nat) {
    i < j <= |steps| && steps[i].Kill? && forall k :: i < k < j ==> !steps[k].Release?
  }

  /** Step `k` opens the circuit anew: a kill, or a status call that fails. */
  predicate Opens(c: Config, steps: seq<Step>, states: seq<Breaker>, k: nat)
    requires k < |steps| && k < |states|
  {
    steps[k].Kill? || (Calls(c, states[k], steps[k]) && steps[k].o == Broken)
  }

  /** The time of the last opening before step `j`. */
  function LastOpening(c: Config, steps: seq<Step>, states: seq<Breaker>, i: nat, j: nat): real
    requires i < j <= |steps| && j <= |states|
  {
    if j == i + 1 || Opens(c, steps, states, j - 1) then steps[j - 1].now else LastOpening(c, steps, states, i, j - 1)
  }

  /** A status call made since that opening came back without failing: answered, or throttled. */
  predicate HeardSince(c: Config, steps: seq<Step>, states: seq<Breaker>, i: nat, j: nat)
    requires i < j <= |steps| && j <= |states|
  {
    j > i + 1 && !Opens(c, steps, states, j - 1) &&
    (Calls(c, states[j - 1], steps[j - 1]) || HeardSince(c, steps, states, i, j - 1))
  }

  lemma {:induction false} KilledView(c: Config, steps: seq<Step>, states: seq<Breaker>, i: nat, j: nat)
    requires Run(c, steps, states) && states[0] == INITIAL && KilledSince(steps, i, j)
    ensures states[j].killed && states[j].openedAt == LastOpening(c, steps, states, i, j)
    ensures states[j].state == if HeardSince(c, steps, states, i, j) then HalfOpen else Open
    decreases j
  {
    assert states[j - 1 + 1] == Next(c, states[j - 1], steps[j - 1]);
    if j > i + 1 {
      KilledView(c, steps, states, i, j - 1);
      RunKeepsInv(c, steps, states, j - 1);
    }
  }

  /**
   * What the kill latch blocks, over whole runs: while the circuit stays killed, a visit makes
   * a status call if and only if some call since the last opening (the kill itself, or a failed
   * call) did not fail, or the cooldown since that opening is over and the order is not evicted.
   */
  lemma KilledCircuitCallsIff(c: Config, steps: seq<Step>, states: seq<Breaker>, i: nat, j: nat)
    requires Run(c, steps, states) && states[0] == INITIAL && KilledSince(steps, i, j)
    requires j < |steps| && steps[j].Visit?
    ensures Calls(c, states[j], steps[j]) <==>
            || HeardSince(c, steps, states, i, j)
            || (!steps[j].evicted && steps[j].now - LastOpening(c, steps, states, i, j) >= c.cooldown)
  {
    KilledView(c, steps, states, i, j);
  }

  /** A killed circuit serves every visit from an answered probe on, until a call fails or it is killed again. */
  lemma {:induction false} KilledCircuitServes(c: Config, steps: seq<Step>, states: seq<Breaker>, i: nat, k: nat, j: nat)
    requires Run(c, steps, states) && states[0] == INITIAL && KilledSince(steps, i, j)
    requires i < k < j < |steps| && Calls(c, states[k], steps[k]) && steps[k].o != Broken
    requires forall m :: k < m <= j ==> steps[m].Visit? && (m < j ==> steps[m].o != Broken)
    ensures HeardSince(c, steps, states, i, j) && Calls(c, states[j], steps[j])
    decreases j
  {
    if j > k + 1 { KilledCircuitServes(c, steps, states, i, k, j - 1); }
    KilledCircuitCallsIff(c, steps, states, i, j);
  }

  /** The kill blocks for a cooldown and no longer: the first visit after it that is not evicted goes through. */
  lemma KillBlocksForCooldown(c: Config, steps: seq<Step>, states: seq<Breaker>, i: nat, j: nat)
    requires Run(c, steps, states) && states[0] == INITIAL && i < j < |steps| && steps[i].Kill? && steps[j].Visit?
    requires forall k :: i < k < j ==> steps[k].Visit? && !Calls(c, states[k], steps[k])
    ensures Calls(c, states[j], steps[j]) <==> !steps[j].evicted && steps[j].now >= steps[i].now + c.cooldown
  {
    KilledCircuitCallsIff(c, steps, states, i, j);
    NothingHeardYet(c, steps, states, i, j);
  }

  lemma {:induction false} NothingHeardYet(c: Config, steps: seq<Step>, states: seq<Breaker>, i: nat, j: nat)
    requires |states| == |steps| + 1 && i < j <= |steps|
    requires forall k :: i < k < j ==> steps[k].Visit? && !Calls(c, states[k], steps[k])
    ensures !HeardSince(c, steps, states, i, j) && LastOpening(c, steps, states, i, j) == steps[i].now
    decreases j
  {
    if j > i + 1 { NothingHeardYet(c, steps, states, i, j - 1); }
  }

  // ------------------------------------------------------------- opening and closing

  /** Status calls that failed since the last one that was answered; throttled ones do not count. */
  function Streak(c: Config, steps: seq<Step>, states: seq<Breaker>, j: nat): nat
    requires j <= |steps| && j <= |states|
  {
    if j == 0 then 0
    else if !Calls(c, states[j - 1], steps[j - 1]) || steps[j - 1].o == Throttled then Streak(c, steps, states, j - 1)
    else if steps[j - 1].o == Answered then 0
    else Streak(c, steps, states, j - 1) + 1
  }

  /** In a run without kills the circuit is closed exactly while fewer than the threshold of calls in a row have failed. */
  lemma {:induction false} ClosedIffShortStreak(c: Config, steps: seq<Step>, states: seq<Breaker>, j: nat)
    requires Run(c, steps, states) && states[0] == INITIAL && j < |states|
    requires forall k :: 0 <= k < j ==> !steps[k].Kill?
    ensures states[j].failures == Streak(c, steps, states, j) && !states[j].killed
    ensures states[j].state == Closed <==> Streak(c, steps, states, j) < Max(c.threshold, 1)
  {
    if j > 0 {
      ClosedIffShortStreak(c, steps, states, j - 1);
      RunKeepsInv(c, steps, states, j - 1);
      assert states[j - 1 + 1] == Next(c, states[j - 1], steps[j - 1]);
    }
  }

  /** The circuit was killed before step `j` and not released since. */
  ghost predicate Latched(steps: seq<Step>, j: nat) { exists i :: 0 <= i < j && KilledSince(steps, i, j) }

  lemma LatchStep(steps: seq<Step>, j: nat)
    requires 0 < j <= |steps|
    ensures Latched(steps, j) <==> steps[j - 1].Kill? || (!steps[j - 1].Release? && Latched(steps, j - 1))
  {
    if Latched(steps, j) {
      var i :| 0 <= i < j && KilledSince(steps, i, j);
      if i < j - 1 { assert KilledSince(steps, i, j - 1); }
    }
    if steps[j - 1].Kill? { assert KilledSince(steps, j - 1, j); }
    if !steps[j - 1].Release? && Latched(steps, j - 1) {
      var i :| 0 <= i < j - 1 && KilledSince(steps, i, j - 1);
      assert KilledSince(steps, i, j);
    }
  }

  /** The latch is set exactly when the circuit was killed and not released since. */
  lemma {:induction false} KilledIffLatched(c: Config, steps: seq<Step>, states: seq<Breaker>, j: nat)
    requires Run(c, steps, states) && states[0] == INITIAL && j < |states|
    ensures states[j].killed <==> Latched(steps, j)
  {
    if j > 0 {
      KilledIffLatched(c, steps, states, j - 1);
      assert states[j - 1 + 1] == Next(c, states[j - 1], steps[j - 1]);
      LatchStep(steps, j);
    }
  }

  /** An answered call closes the circuit and forgets the failures, if and only if no kill is in force. */
  lemma AnswerClosesIffNotKilled(c: Config, steps: seq<Step>, states: seq<Breaker>, j: nat)
    requires Run(c, steps, states) && states[0] == INITIAL && j < |steps|
    requires Calls(c, states[j], steps[j]) && steps[j].o == Answered
    ensures states[j + 1].state == Closed && states[j + 1].failures == 0 <==> !Latched(steps, j)
  {
    KilledIffLatched(c, steps, states, j);
    RunKeepsInv(c, steps, states, j);
    assert states[j + 1] == Next(c, states[j], steps[j]);
  }

  // --------------------------------------------------------------------- the object

  class CircuitBreaker {
    const config: Config
    var state: Circuit
    var failures: int
    var openedAt: real
    var killed: bool

    ghost function View(): Breaker
      reads this
    {
      Breaker(state, failures, openedAt, killed)
    }

    ghost predicate Valid()
      reads this
    {
      Inv(config, View())
    }

    constructor (c: Config)
      ensures config == c && Valid() && View() == INITIAL
    {
      config := c;
      state, failures, openedAt, killed := Closed, 0, 0.0, false;
    }

    method MaybeResetNow(now: real) returns (probe: bool)
      requires Valid()
      modifies this
      ensures Valid() && (View(), probe) == MaybeReset(config, old(View()), now)
    {
      probe := state == Open && now - openedAt >= config.cooldown;
      if probe { state := HalfOpen; }
    }

    method Succeeded()
      requires Valid()
      modifies this
      ensures Valid() && View() == OnSuccess(old(View()))
    {
      if !killed { state, failures := Closed, 0; }
    }

    method Failed(now: real)
      requires Valid()
      modifies this
      ensures Valid() && View() == OnFailure(config, old(View()), now)
    {
      failures := failures + 1;
      if failures >= config.threshold { state, openedAt := Open, now; }
    }

    method Trip(now: real)
      requires Valid()
      modifies this
      ensures Valid() && View() == TripKill(config, now)
    {
      killed, state, openedAt, failures := true, Open, now, config.threshold;
    }

    method Unlatch()
      requires Valid()
      modifies this
      ensures Valid() && View() == ReleaseKill(old(View()))
    {
      killed := false;
    }
  }
}
