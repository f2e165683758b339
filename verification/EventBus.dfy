/**
 * Re-entrant dispatch.  A publish is a finite tree: each handler call publishes further
 * events, in order, and then returns or raises.  The recorder, subscribed to the base class,
 * runs after every other handler of an event.
 */
module EventBus {
  import opened Common
  import Guard

  type Id = string

  datatype Event = Event(id: Id, corr: Option<Id>, cause: Option<Id>)
  datatype Tree = Node(e: Event, calls: seq<Call>)
  datatype Call = Call(nested: seq<Tree>, raises: bool)

  /** `halts` counts the error-limit halts published; `store` is what the recorder saw. */
  datatype Bus = Bus(stack: seq<Event>, history: seq<Event>, store: seq<Event>, errors: nat, limit: Option<nat>, halts: nat)

  function Top(b: Bus): Option<Event> { if b.stack == [] then None else Some(b.stack[|b.stack| - 1]) }

  /** Unset ids come from the publisher; a root starts its own correlation. */
  function Stamp(e: Event, parent: Option<Event>): Event {
    Event(e.id,
          if e.corr.Some? then e.corr else if parent.Some? then parent.value.corr else Some(e.id),
          if e.cause.None? && parent.Some? then Some(parent.value.id) else e.cause)
  }

  function Armed(b: Bus): nat { if b.limit.Some? then 1 else 0 }

  // ------------------------------------------------------------------- the dispatch

  function Entered(b: Bus, e: Event): Bus { b.(stack := b.stack + [e], history := b.history + [e]) }

  /** The recorder, then the pop of the finally block. */
  function Left(b: Bus, e: Event): Bus
    requires b.stack != []
  {
    b.(stack := b.stack[..|b.stack| - 1], store := b.store + [e])
  }

  /** A swallowed handler error; reaching the limit disarms it and asks for a halt. */
  function Failed(b: Bus): (Bus, bool) {
    var n := b.errors + 1;
    if b.limit.Some? && n >= b.limit.value then (b.(errors := n, limit := None), true) else (b.(errors := n), false)
  }

  /** Publish `t`; `halt` is the tree of the halt event, should the error limit be reached. */
  function Publish(b: Bus, t: Tree, halt: Tree): (r: Bus)
    ensures r.stack == b.stack && Armed(r) + r.halts == Armed(b) + b.halts && Armed(r) <= Armed(b)
    decreases Armed(b), t, 1
  {
    var e := Stamp(t.e, Top(b));
    var (b1, tripped) := CallsDone(Entered(b, e), t, |t.calls|, halt);
    assert b1.stack[..|b1.stack| - 1] == b.stack;
    var b2 := Left(b1, e);
    if tripped then Publish(b2.(halts := b2.halts + 1), halt, halt) else b2
  }

  /** After the first `k` handler calls; the flag says that this event's own handlers tripped the limit. */
  function CallsDone(b: Bus, t: Tree, k: nat, halt: Tree): (r: (Bus, bool))
    requires k <= |t.calls|
    ensures r.0.stack == b.stack && Armed(r.0) <= Armed(b)
    ensures r.1 ==> Armed(b) == 1 && Armed(r.0) == 0
    ensures Armed(r.0) + r.0.halts + (if r.1 then 1 else 0) == Armed(b) + b.halts
    decreases Armed(b), t, 0, k
  {
    if k == 0 then (b, false)
    else
      var (b1, tripped) := CallsDone(b, t, k - 1, halt);
      var c := t.calls[k - 1];
      var b2 := NestedDone(b1, c, |c.nested|, halt);
      if !c.raises then (b2, tripped)
      else var (b3, trips) := Failed(b2); (b3, tripped || trips)
  }

  function NestedDone(b: Bus, c: Call, k: nat, halt: Tree): (r: Bus)
    requires k <= |c.nested|
    ensures r.stack == b.stack && Armed(r) + r.halts == Armed(b) + b.halts && Armed(r) <= Armed(b)
    decreases Armed(b), c, k
  {
    if k == 0 then b else Publish(NestedDone(b, c, k - 1, halt), c.nested[k - 1], halt)
  }

  /**
   * In every dispatch, whatever raises: the stack is restored, and at most one halt is ever
   * published, namely exactly when the limit is disarmed.
   */
  lemma StackRestoredHaltOnce(b: Bus, t: Tree, halt: Tree)
    requires b.halts == 0 && b.limit.Some?
    ensures Publish(b, t, halt).stack == b.stack
    ensures Publish(b, t, halt).halts <= 1
    ensures Publish(b, t, halt).halts == 1 <==> Publish(b, t, halt).limit.None?
  {
    var r := Publish(b, t, halt);
    assert Armed(r) + r.halts == 1;
  }

  // ----------------------------------------------------------------- the event tree

  /** The stamped events of a tree: publishers before what they publish. */
  function Pre(t: Tree, parent: Option<Event>): seq<Event>
    decreases t, 1
  {
    var e := Stamp(t.e, parent);
    [e] + PreCalls(t, |t.calls|, e)
  }

  function PreCalls(t: Tree, k: nat, e: Event): seq<Event>
    requires k <= |t.calls|
    decreases t, 0, k
  {
    if k == 0 then [] else PreCalls(t, k - 1, e) + PreNested(t.calls[k - 1], |t.calls[k - 1].nested|, e)
  }

  function PreNested(c: Call, k: nat, e: Event): seq<Event>
    requires k <= |c.nested|
    decreases c, k
  {
    if k == 0 then [] else PreNested(c, k - 1, e) + Pre(c.nested[k - 1], Some(e))
  }

  /** The same events, publishers after what they publish. */
  function Post(t: Tree, parent: Option<Event>): seq<Event>
    decreases t, 1
  {
    var e := Stamp(t.e, parent);
    PostCalls(t, |t.calls|, e) + [e]
  }

  function PostCalls(t: Tree, k: nat, e: Event): seq<Event>
    requires k <= |t.calls|
    decreases t, 0, k
  {
    if k == 0 then [] else PostCalls(t, k - 1, e) + PostNested(t.calls[k - 1], |t.calls[k - 1].nested|, e)
  }

  function PostNested(c: Call, k: nat, e: Event): seq<Event>
    requires k <= |c.nested|
    decreases c, k
  {
    if k == 0 then [] else PostNested(c, k - 1, e) + Post(c.nested[k - 1], Some(e))
  }

  /** Handler errors in a tree. */
  function Errors(t: Tree): nat
    decreases t, 1
  {
    ErrorsIn(t, |t.calls|)
  }

  function ErrorsIn(t: Tree, k: nat): nat
    requires k <= |t.calls|
    decreases t, 0, k
  {
    if k == 0 then 0
    else
      var c := t.calls[k - 1];
      ErrorsIn(t, k - 1) + NestedErrors(c, |c.nested|) + if c.raises then 1 else 0
  }

  function NestedErrors(c: Call, k: nat): nat
    requires k <= |c.nested|
    decreases c, k
  {
    if k == 0 then 0 else NestedErrors(c, k - 1) + Errors(c.nested[k - 1])
  }

  /** `n` more errors do not reach the limit. */
  predicate Below(b: Bus, n: nat) { b.limit.Some? && n > 0 ==> b.errors + n < b.limit.value }

  function Grown(b: Bus, history: seq<Event>, store: seq<Event>, errors: nat): Bus {
    b.(history := b.history + history, store := b.store + store, errors := b.errors + errors)
  }

  lemma GrownTwice(b: Bus, h: seq<Event>, s: seq<Event>, n: nat, h': seq<Event>, s': seq<Event>, n': nat)
    ensures Grown(Grown(b, h, s, n), h', s', n') == Grown(b, h + h', s + s', n + n')
  {
  }

  /**
   * Below the error limit a dispatch appends to the history the pre-order of the stamped
   * tree, to the recorder's store its post-order, and nothing else changes but the error count.
   */
  lemma {:induction false} DispatchIsPreAndPostOrder(b: Bus, t: Tree, halt: Tree)
    requires Below(b, Errors(t))
    ensures Publish(b, t, halt) == Grown(b, Pre(t, Top(b)), Post(t, Top(b)), Errors(t))
    decreases t, 1
  {
    var e := Stamp(t.e, Top(b));
    var b0 := Entered(b, e);
    assert Top(b0) == Some(e);
    CallsArePreAndPostOrder(b0, t, |t.calls|, halt, e);
    var h, s, n := PreCalls(t, |t.calls|, e), PostCalls(t, |t.calls|, e), Errors(t);
    var b1 := Grown(b0, h, s, n);
    assert b1.stack[..|b1.stack| - 1] == b.stack;
    assert b.history + [e] + h == b.history + ([e] + h);
    assert b.store + s + [e] == b.store + (s + [e]);
  }

  lemma {:induction false} CallsArePreAndPostOrder(b: Bus, t: Tree, k: nat, halt: Tree, e: Event)
    requires k <= |t.calls| && Top(b) == Some(e) && Below(b, ErrorsIn(t, k))
    ensures CallsDone(b, t, k, halt) == (Grown(b, PreCalls(t, k, e), PostCalls(t, k, e), ErrorsIn(t, k)), false)
    decreases t, 0, k
  {
    if k > 0 {
      CallsArePreAndPostOrder(b, t, k - 1, halt, e);
      var c, b1 := t.calls[k - 1], CallsDone(b, t, k - 1, halt).0;
      NestedArePreAndPostOrder(b1, c, |c.nested|, halt, e);
      OneMoreCall(b, t, k, halt, e);
    } else {
      assert Grown(b, [], [], 0) == b;
    }
  }

  lemma OneMoreCall(b: Bus, t: Tree, k: nat, halt: Tree, e: Event)
    requires 0 < k <= |t.calls| && Below(b, ErrorsIn(t, k))
    requires CallsDone(b, t, k - 1, halt) == (Grown(b, PreCalls(t, k - 1, e), PostCalls(t, k - 1, e), ErrorsIn(t, k - 1)), false)
    requires var c, b1 := t.calls[k - 1], CallsDone(b, t, k - 1, halt).0;
             var n := |c.nested|;
             NestedDone(b1, c, n, halt) == Grown(b1, PreNested(c, n, e), PostNested(c, n, e), NestedErrors(c, n))
    ensures CallsDone(b, t, k, halt) == (Grown(b, PreCalls(t, k, e), PostCalls(t, k, e), ErrorsIn(t, k)), false)
  {
    var c := t.calls[k - 1];
    var n := |c.nested|;
    GrownTwice(b, PreCalls(t, k - 1, e), PostCalls(t, k - 1, e), ErrorsIn(t, k - 1),
               PreNested(c, n, e), PostNested(c, n, e), NestedErrors(c, n));
    var b2 := Grown(b, PreCalls(t, k, e), PostCalls(t, k, e), ErrorsIn(t, k - 1) + NestedErrors(c, n));
    assert c.raises ==> Failed(b2) == (Grown(b, PreCalls(t, k, e), PostCalls(t, k, e), ErrorsIn(t, k)), false);
  }

  lemma {:induction false} NestedArePreAndPostOrder(b: Bus, c: Call, k: nat, halt: Tree, e: Event)
    requires k <= |c.nested| && Top(b) == Some(e) && Below(b, NestedErrors(c, k))
    ensures NestedDone(b, c, k, halt) == Grown(b, PreNested(c, k, e), PostNested(c, k, e), NestedErrors(c, k))
    decreases c, k
  {
    if k > 0 {
      NestedArePreAndPostOrder(b, c, k - 1, halt, e);
      var b1, u := NestedDone(b, c, k - 1, halt), c.nested[k - 1];
      var h, s, n := PreNested(c, k - 1, e), PostNested(c, k - 1, e), NestedErrors(c, k - 1);
      assert b1 == Grown(b, h, s, n) && Top(b1) == Some(e);
      DispatchIsPreAndPostOrder(b1, u, halt);
      GrownTwice(b, h, s, n, Pre(u, Some(e)), Post(u, Some(e)), Errors(u));
    } else {
      assert Grown(b, [], [], 0) == b;
    }
  }

  // ------------------------------------------------------------------- causal stamps

  /** No event of the tree carries ids of its own. */
  ghost predicate Unset(t: Tree)
    decreases t
  {
    t.e.corr.None? && t.e.cause.None? && forall i :: 0 <= i < |t.calls| ==> UnsetCall(t.calls[i])
  }

  ghost predicate UnsetCall(c: Call)
    decreases c
  {
    forall j :: 0 <= j < |c.nested| ==> Unset(c.nested[j])
  }

  ghost predicate AllCorrelated(es: seq<Event>, corr: Option<Id>) {
    forall i :: 0 <= i < |es| ==> es[i].corr == corr
  }

  /** Every event of the dispatch carries the root's correlation id. */
  lemma {:induction false} OneCorrelation(t: Tree, parent: Option<Event>)
    requires Unset(t)
    ensures AllCorrelated(Pre(t, parent), if parent.Some? then parent.value.corr else Some(t.e.id))
    decreases t, 1
  {
    CallsCorrelate(t, |t.calls|, Stamp(t.e, parent));
  }

  lemma {:induction false} CallsCorrelate(t: Tree, k: nat, e: Event)
    requires Unset(t) && k <= |t.calls|
    ensures AllCorrelated(PreCalls(t, k, e), e.corr)
    decreases t, 0, k
  {
    if k > 0 {
      CallsCorrelate(t, k - 1, e);
      NestedCorrelate(t.calls[k - 1], |t.calls[k - 1].nested|, e);
    }
  }

  lemma {:induction false} NestedCorrelate(c: Call, k: nat, e: Event)
    requires k <= |c.nested| && UnsetCall(c)
    ensures AllCorrelated(PreNested(c, k, e), e.corr)
    decreases c, k
  {
    if k > 0 {
      NestedCorrelate(c, k - 1, e);
      OneCorrelation(c.nested[k - 1], Some(e));
    }
  }

  /** One publish: the event on top of the stack, the event as its handler made it, and the event as stamped. */
  datatype Link = Link(publisher: Event, made: Event, published: Event)

  /** Every publish of the tree below its root, in the order of publishing. */
  function Links(t: Tree, e: Event): seq<Link>
    decreases t, 1
  {
    CallLinks(t, |t.calls|, e)
  }

  function CallLinks(t: Tree, k: nat, e: Event): seq<Link>
    requires k <= |t.calls|
    decreases t, 0, k
  {
    if k == 0 then [] else CallLinks(t, k - 1, e) + NestedLinks(t.calls[k - 1], |t.calls[k - 1].nested|, e)
  }

  function NestedLinks(c: Call, k: nat, e: Event): seq<Link>
    requires k <= |c.nested|
    decreases c, k
  {
    if k == 0 then []
    else
      var u := c.nested[k - 1];
      var x := Stamp(u.e, Some(e));
      NestedLinks(c, k - 1, e) + ([Link(e, u.e, x)] + Links(u, x))
  }

  /** The history from its second event on lists the published; each is stamped from an earlier event, its publisher. */
  ghost predicate Linked(links: seq<Link>, history: seq<Event>) {
    && |history| == |links| + 1
    && forall i :: 0 <= i < |links| ==> LinkedAt(links[i], history, i)
  }

  ghost predicate LinkedAt(l: Link, history: seq<Event>, i: int)
    requires 0 <= i < |history| - 1
  {
    history[i + 1] == l.published && l.publisher in history[..i + 1] && Inherits(l)
  }

  /** Ids the event already carries are kept; an unset cause is the publisher, an unset correlation the publisher's. */
  predicate Inherits(l: Link) {
    && l.published.id == l.made.id
    && l.published.cause == (if l.made.cause.Some? then l.made.cause else Some(l.publisher.id))
    && l.published.corr == (if l.made.corr.Some? then l.made.corr else l.publisher.corr)
  }

  lemma LinkedConcat(a: seq<Link>, b: seq<Link>, e: Event, p: seq<Event>, q: seq<Event>)
    requires Linked(a, [e] + p) && Linked(b, [e] + q)
    ensures Linked(a + b, [e] + (p + q))
  {
    var h, links := [e] + (p + q), a + b;
    forall i | 0 <= i < |links| ensures LinkedAt(links[i], h, i) {
      if i < |a| {
        assert LinkedAt(a[i], [e] + p, i);
        assert ([e] + p)[..i + 1] == h[..i + 1];
      } else {
        var j := i - |a|;
        assert LinkedAt(b[j], [e] + q, j);
        InLonger(b[j].publisher, e, p, q, j);
      }
    }
  }

  lemma InLonger(y: Event, e: Event, p: seq<Event>, q: seq<Event>, j: nat)
    requires j <= |q| && y in ([e] + q)[..j + 1]
    ensures y in ([e] + (p + q))[..|p| + j + 1]
  {
    var k :| 0 <= k < j + 1 && ([e] + q)[k] == y;
    var h := [e] + (p + q);
    if k == 0 { assert h[0] == y; } else { assert h[|p| + k] == y; }
  }

  lemma LinkedUnder(links: seq<Link>, first: Link, h: seq<Event>)
    requires Linked(links, [first.published] + h) && Inherits(first)
    ensures Linked([first] + links, [first.publisher] + ([first.published] + h))
  {
    var e, x := first.publisher, first.published;
    var all, hist := [first] + links, [e] + ([x] + h);
    forall i | 0 <= i < |all| ensures LinkedAt(all[i], hist, i) {
      if i > 0 {
        assert LinkedAt(links[i - 1], [x] + h, i - 1);
        assert hist[1..i + 1] == ([x] + h)[..i];
        assert all[i].publisher in hist[1..i + 1];
      } else {
        assert e == hist[..1][0];
      }
    }
  }

  /**
   * Over the whole tree, at every depth: the events published are exactly the history without
   * the root, and each keeps the ids it carries and otherwise has its publisher's id as cause
   * and its publisher's correlation.  A root of its own starts its correlation.
   */
  lemma {:induction false} CausedByPublisher(t: Tree, parent: Option<Event>)
    ensures Linked(Links(t, Pre(t, parent)[0]), Pre(t, parent))
    ensures parent.None? ==>
              Pre(t, parent)[0] == Event(t.e.id, if t.e.corr.Some? then t.e.corr else Some(t.e.id), t.e.cause)
    decreases t, 1
  {
    CallsLink(t, |t.calls|, Stamp(t.e, parent));
  }

  lemma {:induction false} CallsLink(t: Tree, k: nat, e: Event)
    requires k <= |t.calls|
    ensures Linked(CallLinks(t, k, e), [e] + PreCalls(t, k, e))
    decreases t, 0, k
  {
    if k > 0 {
      CallsLink(t, k - 1, e);
      var c := t.calls[k - 1];
      NestedLink(c, |c.nested|, e);
      LinkedConcat(CallLinks(t, k - 1, e), NestedLinks(c, |c.nested|, e), e, PreCalls(t, k - 1, e), PreNested(c, |c.nested|, e));
    }
  }

  lemma {:induction false} NestedLink(c: Call, k: nat, e: Event)
    requires k <= |c.nested|
    ensures Linked(NestedLinks(c, k, e), [e] + PreNested(c, k, e))
    decreases c, k
  {
    if k > 0 {
      var u := c.nested[k - 1];
      var x := Stamp(u.e, Some(e));
      NestedLink(c, k - 1, e);
      CausedByPublisher(u, Some(e));
      LinkedUnder(Links(u, x), Link(e, u.e, x), PreCalls(u, |u.calls|, x));
      LinkedConcat(NestedLinks(c, k - 1, e), [Link(e, u.e, x)] + Links(u, x), e, PreNested(c, k - 1, e), Pre(u, Some(e)));
    }
  }

  /** The recorder misses nothing: its post-order is a permutation of the history's pre-order. */
  lemma {:induction false} StoreIsPermutation(t: Tree, parent: Option<Event>)
    ensures multiset(Pre(t, parent)) == multiset(Post(t, parent))
    decreases t, 1
  {
    CallsPermute(t, |t.calls|, Stamp(t.e, parent));
  }

  lemma {:induction false} CallsPermute(t: Tree, k: nat, e: Event)
    requires k <= |t.calls|
    ensures multiset(PreCalls(t, k, e)) == multiset(PostCalls(t, k, e))
    decreases t, 0, k
  {
    if k > 0 {
      CallsPermute(t, k - 1, e);
      NestedPermute(t.calls[k - 1], |t.calls[k - 1].nested|, e);
    }
  }

  lemma {:induction false} NestedPermute(c: Call, k: nat, e: Event)
    requires k <= |c.nested|
    ensures multiset(PreNested(c, k, e)) == multiset(PostNested(c, k, e))
    decreases c, k
  {
    if k > 0 {
      NestedPermute(c, k - 1, e);
      StoreIsPermutation(c.nested[k - 1], Some(e));
    }
  }

  /** The key under which a submission of this intent is guarded. */
  function SubmitKey(e: Event): Guard.Key { if e.corr.Some? then e.corr.value else e.id }

  /**
   * One order per root event: when two intents come from the dispatch of one root, the venue
   * is reached for the second after an acceptance for the first only once `cap` other
   * acceptances have gone by.
   */
  lemma OneOrderPerRoot(t: Tree, first: Event, second: Event,
                        steps: seq<Guard.Step>, states: seq<Guard.Machine>, cap: nat, i: nat, j: nat)
    requires Unset(t) && first in Pre(t, None) && second in Pre(t, None)
    requires Guard.Run(steps, states, cap) && i < j < |steps|
    requires steps[i].Placed? && steps[i].k == SubmitKey(first)
    requires steps[j] == Guard.Begin(SubmitKey(second)) && Guard.Checked(states[j].g, SubmitKey(second)).1 == Guard.Fresh
    ensures |states[j].accepted| - |states[i + 1].accepted| >= cap
  {
    OneCorrelation(t, None);
    assert SubmitKey(first) == SubmitKey(second) == t.e.id;
    Guard.AtMostOncePlacement(steps, states, cap, i, j);
  }

  // ------------------------------------------------------------ reaching the limit

  /** A subtree and the event it is published under. */
  datatype Site = Site(t: Tree, parent: Option<Event>)

  /** The event whose own handlers raise the `n`-th error of the dispatch. */
  function Tripper(t: Tree, parent: Option<Event>, n: nat): Site
    requires 1 <= n <= Errors(t)
    decreases t, 1
  {
    TripperIn(t, |t.calls|, parent, n)
  }

  function TripperIn(t: Tree, k: nat, parent: Option<Event>, n: nat): Site
    requires k <= |t.calls| && 1 <= n <= ErrorsIn(t, k)
    decreases t, 0, k
  {
    var c, before := t.calls[k - 1], ErrorsIn(t, k - 1);
    if n <= before then TripperIn(t, k - 1, parent, n)
    else if n - before <= NestedErrors(c, |c.nested|) then NestedTripper(c, |c.nested|, Stamp(t.e, parent), n - before)
    else Site(t, parent)
  }

  function NestedTripper(c: Call, k: nat, e: Event, n: nat): Site
    requires k <= |c.nested| && 1 <= n <= NestedErrors(c, k)
    decreases c, k
  {
    if n <= NestedErrors(c, k - 1) then NestedTripper(c, k - 1, e, n)
    else Tripper(c.nested[k - 1], Some(e), n - NestedErrors(c, k - 1))
  }

  /** `g` is `base` with `insert` put in right after a block `x`. */
  ghost predicate PutAfter(g: seq<Event>, base: seq<Event>, x: seq<Event>, insert: seq<Event>) {
    exists a, z :: PutAt(g, base, x, insert, a, z)
  }

  ghost predicate PutAt(g: seq<Event>, base: seq<Event>, x: seq<Event>, insert: seq<Event>, a: seq<Event>, z: seq<Event>) {
    base == a + x + z && g == a + x + insert + z
  }

  lemma PutInLonger(g: seq<Event>, base: seq<Event>, x: seq<Event>, insert: seq<Event>, before: seq<Event>, after: seq<Event>)
    requires PutAfter(g, base, x, insert)
    ensures PutAfter(before + g + after, before + base + after, x, insert)
  {
    var a, z :| PutAt(g, base, x, insert, a, z);
    assert before + base + after == (before + a) + x + (z + after);
    assert before + g + after == (before + a) + x + insert + (z + after);
    assert PutAt(before + g + after, before + base + after, x, insert, before + a, z + after);
  }

  lemma PutAtEnd(x: seq<Event>, insert: seq<Event>)
    ensures PutAfter(x + insert, x, x, insert)
  {
    assert PutAt(x + insert, x, x, insert, [], []);
  }

  /** History and store of a dispatch, with the halt's own dispatch right after that of the site, under the same publisher. */
  ghost predicate HaltAfter(h: seq<Event>, s: seq<Event>, pre: seq<Event>, post: seq<Event>, site: Site, halt: Tree) {
    && PutAfter(h, pre, Pre(site.t, site.parent), Pre(halt, site.parent))
    && PutAfter(s, post, Post(site.t, site.parent), Post(halt, site.parent))
  }

  lemma HaltInLonger(h: seq<Event>, s: seq<Event>, pre: seq<Event>, post: seq<Event>, site: Site, halt: Tree,
                     h0: seq<Event>, s0: seq<Event>, h1: seq<Event>, s1: seq<Event>)
    requires HaltAfter(h, s, pre, post, site, halt)
    ensures HaltAfter(h0 + h + h1, s0 + s + s1, h0 + pre + h1, s0 + post + s1, site, halt)
  {
    PutInLonger(h, pre, Pre(site.t, site.parent), Pre(halt, site.parent), h0, h1);
    PutInLonger(s, post, Post(site.t, site.parent), Post(halt, site.parent), s0, s1);
  }

  lemma HaltLater(h: seq<Event>, s: seq<Event>, pre: seq<Event>, post: seq<Event>, site: Site, halt: Tree, h0: seq<Event>, s0: seq<Event>)
    requires HaltAfter(h, s, pre, post, site, halt)
    ensures HaltAfter(h0 + h, s0 + s, h0 + pre, s0 + post, site, halt)
  {
    HaltInLonger(h, s, pre, post, site, halt, h0, s0, [], []);
    assert h0 + h + [] == h0 + h && s0 + s + [] == s0 + s && h0 + pre + [] == h0 + pre && s0 + post + [] == s0 + post;
  }

  lemma HaltEarlier(h: seq<Event>, s: seq<Event>, pre: seq<Event>, post: seq<Event>, site: Site, halt: Tree, h1: seq<Event>, s1: seq<Event>)
    requires HaltAfter(h, s, pre, post, site, halt)
    ensures HaltAfter(h + h1, s + s1, pre + h1, post + s1, site, halt)
  {
    HaltInLonger(h, s, pre, post, site, halt, [], [], h1, s1);
    assert [] + h + h1 == h + h1 && [] + s + s1 == s + s1 && [] + pre + h1 == pre + h1 && [] + post + s1 == post + s1;
  }

  /** What a dispatch added to the history and to the store. */
  ghost predicate Added(b: Bus, r: Bus, h: seq<Event>, s: seq<Event>) {
    r.history == b.history + h && r.store == b.store + s
  }

  lemma AddedTwice(b: Bus, m: Bus, r: Bus, h: seq<Event>, s: seq<Event>, h': seq<Event>, s': seq<Event>)
    requires Added(b, m, h, s) && Added(m, r, h', s')
    ensures Added(b, r, h + h', s + s')
  {
  }

  /** `n` more errors reach the limit. */
  ghost predicate Reaches(b: Bus, n: nat) { b.limit.Some? && !Below(b, n) }

  /** How many more errors it takes. */
  function Due(b: Bus): nat
    requires b.limit.Some?
  {
    Max(1, b.limit.value - b.errors)
  }

  /**
   * When the errors of `t` reach the limit, the halt is dispatched once: in the history and in
   * the store alike, right after the complete dispatch of the event whose own handlers raised
   * the error that was due, and under the same publisher.
   */
  lemma {:induction false} HaltIsInsertedOnce(b: Bus, t: Tree, halt: Tree) returns (h: seq<Event>, s: seq<Event>)
    requires Reaches(b, Errors(t))
    ensures Added(b, Publish(b, t, halt), h, s)
    ensures HaltAfter(h, s, Pre(t, Top(b)), Post(t, Top(b)), Tripper(t, Top(b), Due(b)), halt)
    ensures Publish(b, t, halt).limit.None? && Publish(b, t, halt).halts == b.halts + 1
    decreases t, 1
  {
    var e := Stamp(t.e, Top(b));
    var b0 := Entered(b, e);
    var pre, post := PreCalls(t, |t.calls|, e), PostCalls(t, |t.calls|, e);
    var (b1, tripped) := CallsDone(b0, t, |t.calls|, halt);
    assert b1.stack[..|b1.stack| - 1] == b.stack;
    var g, q := CallsReachLimit(b0, t, |t.calls|, halt, Top(b));
    var b2 := Left(b1, e);
    FramedBy(b, b0, b1, e, g, q);
    if tripped {
      var b3 := b2.(halts := b2.halts + 1);
      DispatchIsPreAndPostOrder(b3, halt, halt);
      h, s := Pre(t, Top(b)) + Pre(halt, Top(b)), Post(t, Top(b)) + Post(halt, Top(b));
      PutAtEnd(Pre(t, Top(b)), Pre(halt, Top(b)));
      PutAtEnd(Post(t, Top(b)), Post(halt, Top(b)));
      AddedTwice(b, b3, Publish(b, t, halt), Pre(t, Top(b)), Post(t, Top(b)), Pre(halt, Top(b)), Post(halt, Top(b)));
    } else {
      h, s := [e] + g, q + [e];
      HaltUnder(g, q, pre, post, Tripper(t, Top(b), Due(b)), halt, e);
    }
  }

  /** Entering, handling and leaving an event frame what its handlers added. */
  lemma FramedBy(b: Bus, b0: Bus, b1: Bus, e: Event, g: seq<Event>, q: seq<Event>)
    requires b0 == Entered(b, e) && Added(b0, b1, g, q) && b1.stack == b0.stack
    ensures Added(b, Left(b1, e), [e] + g, q + [e])
  {
    assert b.history + [e] + g == b.history + ([e] + g);
    assert b.store + q + [e] == b.store + (q + [e]);
  }

  lemma HaltUnder(h: seq<Event>, s: seq<Event>, pre: seq<Event>, post: seq<Event>, site: Site, halt: Tree, e: Event)
    requires HaltAfter(h, s, pre, post, site, halt)
    ensures HaltAfter([e] + h, s + [e], [e] + pre, post + [e], site, halt)
  {
    HaltInLonger(h, s, pre, post, site, halt, [e], [], [], [e]);
    assert [e] + h + [] == [e] + h && [e] + pre + [] == [e] + pre;
    assert [] + s + [e] == s + [e] && [] + post + [e] == post + [e];
  }

  /** What the first `k` handler calls added, when they reached the limit. */
  ghost predicate CallsHalted(b: Bus, t: Tree, k: nat, halt: Tree, parent: Option<Event>, h: seq<Event>, s: seq<Event>)
    requires k <= |t.calls| && Reaches(b, ErrorsIn(t, k))
  {
    var e, (r, tripped) := Stamp(t.e, parent), CallsDone(b, t, k, halt);
    var site := TripperIn(t, k, parent, Due(b));
    && Added(b, r, h, s) && r.limit.None?
    && (if tripped then h == PreCalls(t, k, e) && s == PostCalls(t, k, e) && site == Site(t, parent)
        else HaltAfter(h, s, PreCalls(t, k, e), PostCalls(t, k, e), site, halt))
  }

  lemma {:induction false} CallsReachLimit(b: Bus, t: Tree, k: nat, halt: Tree, parent: Option<Event>)
    returns (h: seq<Event>, s: seq<Event>)
    requires k <= |t.calls| && Top(b) == Some(Stamp(t.e, parent)) && Reaches(b, ErrorsIn(t, k))
    ensures CallsHalted(b, t, k, halt, parent, h, s)
    decreases t, 0, k
  {
    var e, c := Stamp(t.e, parent), t.calls[k - 1];
    if Below(b, ErrorsIn(t, k - 1)) {
      var b1 := CallsDone(b, t, k - 1, halt).0;
      CallsArePreAndPostOrder(b, t, k - 1, halt, e);
      var g, q := CallReachesLimit(b1, c, halt, e);
      h, s := PreCalls(t, k - 1, e) + g, PostCalls(t, k - 1, e) + q;
      HaltedInLast(b, t, k, halt, parent, g, q);
    } else {
      var g, q := CallsReachLimit(b, t, k - 1, halt, parent);
      h, s := g + PreNested(c, |c.nested|, e), q + PostNested(c, |c.nested|, e);
      HaltedBeforeLast(b, t, k, halt, parent, g, q);
    }
  }

  lemma HaltedInLast(b: Bus, t: Tree, k: nat, halt: Tree, parent: Option<Event>, g: seq<Event>, q: seq<Event>)
    requires 0 < k <= |t.calls| && Reaches(b, ErrorsIn(t, k)) && Below(b, ErrorsIn(t, k - 1))
    requires var e := Stamp(t.e, parent);
             && CallsDone(b, t, k - 1, halt) == (Grown(b, PreCalls(t, k - 1, e), PostCalls(t, k - 1, e), ErrorsIn(t, k - 1)), false)
             && CallHalted(CallsDone(b, t, k - 1, halt).0, t.calls[k - 1], halt, e, g, q)
    ensures CallsHalted(b, t, k, halt, parent, PreCalls(t, k - 1, Stamp(t.e, parent)) + g, PostCalls(t, k - 1, Stamp(t.e, parent)) + q)
  {
    var e, c, b1 := Stamp(t.e, parent), t.calls[k - 1], CallsDone(b, t, k - 1, halt).0;
    var h0, s0 := PreCalls(t, k - 1, e), PostCalls(t, k - 1, e);
    assert Due(b1) == Due(b) - ErrorsIn(t, k - 1);
    AddedTwice(b, b1, NestedDone(b1, c, |c.nested|, halt), h0, s0, g, q);
    if NestedReaches(b1, c) {
      HaltLater(g, q, PreNested(c, |c.nested|, e), PostNested(c, |c.nested|, e), NestedTripper(c, |c.nested|, e, Due(b1)), halt, h0, s0);
    }
  }

  lemma HaltedBeforeLast(b: Bus, t: Tree, k: nat, halt: Tree, parent: Option<Event>, g: seq<Event>, q: seq<Event>)
    requires 0 < k <= |t.calls| && Top(b) == Some(Stamp(t.e, parent)) && Reaches(b, ErrorsIn(t, k - 1))
    requires CallsHalted(b, t, k - 1, halt, parent, g, q)
    ensures var e, c := Stamp(t.e, parent), t.calls[k - 1];
            CallsHalted(b, t, k, halt, parent, g + PreNested(c, |c.nested|, e), q + PostNested(c, |c.nested|, e))
  {
    var e, c, b1 := Stamp(t.e, parent), t.calls[k - 1], CallsDone(b, t, k - 1, halt).0;
    var h1, s1 := PreNested(c, |c.nested|, e), PostNested(c, |c.nested|, e);
    NestedArePreAndPostOrder(b1, c, |c.nested|, halt, e);
    AddedTwice(b, b1, NestedDone(b1, c, |c.nested|, halt), g, q, h1, s1);
    if !CallsDone(b, t, k - 1, halt).1 {
      HaltEarlier(g, q, PreCalls(t, k - 1, e), PostCalls(t, k - 1, e), TripperIn(t, k - 1, parent, Due(b)), halt, h1, s1);
    }
  }

  ghost predicate NestedReaches(b: Bus, c: Call) { Reaches(b, NestedErrors(c, |c.nested|)) }

  /** What a handler call added that reached the limit, by what it publishes or by its own error. */
  ghost predicate CallHalted(b: Bus, c: Call, halt: Tree, e: Event, h: seq<Event>, s: seq<Event>) {
    var r, n := NestedDone(b, c, |c.nested|, halt), |c.nested|;
    && Added(b, r, h, s)
    && (if NestedReaches(b, c)
        then r.limit.None? && HaltAfter(h, s, PreNested(c, n, e), PostNested(c, n, e), NestedTripper(c, n, e, Due(b)), halt)
        else h == PreNested(c, n, e) && s == PostNested(c, n, e) && c.raises && Failed(r).1)
  }

  lemma {:induction false} CallReachesLimit(b: Bus, c: Call, halt: Tree, e: Event) returns (h: seq<Event>, s: seq<Event>)
    requires Top(b) == Some(e) && Reaches(b, NestedErrors(c, |c.nested|) + if c.raises then 1 else 0)
    ensures CallHalted(b, c, halt, e, h, s)
    decreases c
  {
    if NestedReaches(b, c) {
      h, s := NestedReachLimit(b, c, |c.nested|, halt, e);
    } else {
      NestedArePreAndPostOrder(b, c, |c.nested|, halt, e);
      h, s := PreNested(c, |c.nested|, e), PostNested(c, |c.nested|, e);
    }
  }

  lemma {:induction false} NestedReachLimit(b: Bus, c: Call, k: nat, halt: Tree, e: Event) returns (h: seq<Event>, s: seq<Event>)
    requires k <= |c.nested| && Top(b) == Some(e) && Reaches(b, NestedErrors(c, k))
    ensures var r := NestedDone(b, c, k, halt);
            && Added(b, r, h, s) && r.limit.None?
            && HaltAfter(h, s, PreNested(c, k, e), PostNested(c, k, e), NestedTripper(c, k, e, Due(b)), halt)
    decreases c, k
  {
    var u, b1 := c.nested[k - 1], NestedDone(b, c, k - 1, halt);
    var h0, s0, h1, s1 := PreNested(c, k - 1, e), PostNested(c, k - 1, e), Pre(u, Some(e)), Post(u, Some(e));
    if Below(b, NestedErrors(c, k - 1)) {
      NestedArePreAndPostOrder(b, c, k - 1, halt, e);
      var g, q := HaltIsInsertedOnce(b1, u, halt);
      HaltLater(g, q, h1, s1, Tripper(u, Some(e), Due(b1)), halt, h0, s0);
      h, s := h0 + g, s0 + q;
      AddedTwice(b, b1, Publish(b1, u, halt), h0, s0, g, q);
    } else {
      var g, q := NestedReachLimit(b, c, k - 1, halt, e);
      DispatchIsPreAndPostOrder(b1, u, halt);
      HaltEarlier(g, q, h0, s0, NestedTripper(c, k - 1, e, Due(b)), halt, h1, s1);
      h, s := g + h1, q + s1;
      AddedTwice(b, b1, Publish(b1, u, halt), g, q, h1, s1);
    }
  }

  // --------------------------------------------------------------------- the object

  class EventBus {
    const maxHistory: nat
    var stack: seq<Event>
    var history: seq<Event>
    var store: seq<Event>
    var errors: nat
    var limit: Option<nat>
    var halts: nat
    /** Every event ever published. */
    ghost var all: seq<Event>

    ghost function View(): Bus
      reads this
    {
      Bus(stack, all, store, errors, limit, halts)
    }

    /** The bounded deque keeps the latest events. */
    ghost predicate Valid()
      reads this
    {
      history == LastN(all, maxHistory)
    }

    constructor (maxHistory: nat, limit: Option<nat>)
      ensures this.maxHistory == maxHistory && Valid() && View() == Bus([], [], [], 0, limit, 0)
    {
      this.maxHistory, this.limit := maxHistory, limit;
      stack, history, store, errors, halts, all := [], [], [], 0, 0, [];
    }

    method Enter(e: Event)
      requires Valid()
      modifies this`stack, this`history, this`all
      ensures Valid() && View() == Entered(old(View()), e)
    {
      stack := stack + [e];
      LastNAppend(all, maxHistory, e);
      history := history + [e];
      if |history| > maxHistory { history := history[|history| - maxHistory..]; }
      all := all + [e];
    }

    method PublishTree(t: Tree, halt: Tree)
      requires Valid()
      modifies this
      ensures Valid() && View() == Publish(old(View()), t, halt)
      decreases Armed(View()), t, 1
    {
      var e := Stamp(t.e, if stack == [] then None else Some(stack[|stack| - 1]));
      Enter(e);
      var tripped := RunHandlers(t, halt);
      Leave(e);
      if tripped {
        halts := halts + 1;
        PublishTree(halt, halt);
      }
    }

    method Leave(e: Event)
      requires Valid() && stack != []
      modifies this`stack, this`store
      ensures Valid() && View() == Left(old(View()), e)
    {
      store := store + [e];
      stack := stack[..|stack| - 1];
    }

    /** The handlers in dispatch order; an exception is counted and swallowed. */
    method RunHandlers(t: Tree, halt: Tree) returns (tripped: bool)
      requires Valid()
      modifies this
      ensures Valid() && (View(), tripped) == CallsDone(old(View()), t, |t.calls|, halt)
      decreases Armed(View()), t, 0
    {
      tripped := false;
      for k := 0 to |t.calls|
        invariant Valid() && (View(), tripped) == CallsDone(old(View()), t, k, halt)
      {
        RunHandler(t.calls[k], halt);
        if t.calls[k].raises {
          errors := errors + 1;
          if limit.Some? && errors >= limit.value {
            tripped, limit := true, None;
          }
        }
      }
    }

    method RunHandler(c: Call, halt: Tree)
      requires Valid()
      modifies this
      ensures Valid() && View() == NestedDone(old(View()), c, |c.nested|, halt)
      decreases Armed(View()), c
    {
      for k := 0 to |c.nested|
        invariant Valid() && View() == NestedDone(old(View()), c, k, halt)
      {
        PublishTree(c.nested[k], halt);
      }
    }
  }
}
