/**
 * The older signal graph of `packages/cherry-js/lib/signals.js`.
 *
 * It has the shape of the hot/cold graph, with three differences that
 * matter: a dirty `Compute` always recomputes under tracking when read (there
 * is no cold path), `follow` calls the new follower at once when the set was
 * empty, and `notify` reads the value once and hands that same value to
 * every follower.
 *
 * Because `follow` calls a new dependency listener at once when the
 * dependency had no followers, and that listener may run `#update` of the
 * very `Compute` that is subscribing, the recursion of the source need not
 * end (a followed `Compute` that starts reading an unfollowed signal calls
 * itself forever). The model therefore carries `fuel`, the number of nested
 * recomputations the JavaScript call stack still has room for; when it runs
 * out, `overflow` is raised and every call unwinds, as the engine's
 * `RangeError` would, leaving the store as it was at that moment.
 */
module CherrySignals {
  import opened Text
  import opened SignalStore

  /*
   * Running a callback whose reads meet only plain signals: each read is the
   * stored value, and the reads are recorded in a tracker frame.
   */

  /** The value of a callback when every signal read yields its stored value. */
  function Stored(sigs: seq<Sig>, e: Callback, bound: nat): int
    requires ReadsBelow(e, bound) && bound <= |sigs|
  {
    match e
    case Lit(n) => n
    case Read(d) => sigs[d].value
    case Add(l, r) => Stored(sigs, l, bound) + Stored(sigs, r, bound)
    case If(c, y, n) => if Stored(sigs, c, bound) != 0 then Stored(sigs, y, bound) else Stored(sigs, n, bound)
  }

  /** The tracker frame after such a run: every signal read, in first-read order, along the branches taken. */
  function ReadsOf(sigs: seq<Sig>, frame: seq<Id>, e: Callback, bound: nat): seq<Id>
    requires ReadsBelow(e, bound) && bound <= |sigs|
    decreases e
  {
    match e
    case Lit(_) => frame
    case Read(d) => AddOnce(frame, d)
    case Add(l, r) => ReadsOf(sigs, ReadsOf(sigs, frame, l, bound), r, bound)
    case If(c, y, n) =>
      var f := ReadsOf(sigs, frame, c, bound);
      if Stored(sigs, c, bound) != 0 then ReadsOf(sigs, f, y, bound) else ReadsOf(sigs, f, n, bound)
  }

  /** Every signal the run reads is plain, so each `get()` only tracks and returns the stored value. */
  predicate PlainReads(sigs: seq<Sig>, e: Callback, bound: nat)
    requires ReadsBelow(e, bound) && bound <= |sigs|
  {
    match e
    case Lit(_) => true
    case Read(d) => Plain(sigs[d])
    case Add(l, r) => PlainReads(sigs, l, bound) && PlainReads(sigs, r, bound)
    case If(c, y, n) =>
      PlainReads(sigs, c, bound)
      && if Stored(sigs, c, bound) != 0 then PlainReads(sigs, y, bound) else PlainReads(sigs, n, bound)
  }

  /** A run only adds to its frame, and only signals below the bound. */
  lemma {:induction false} ReadsOfGrows(sigs: seq<Sig>, frame: seq<Id>, e: Callback, bound: nat)
    requires ReadsBelow(e, bound) && bound <= |sigs|
    ensures frame <= ReadsOf(sigs, frame, e, bound)
    ensures forall t | t in ReadsOf(sigs, frame, e, bound) :: t in frame || t < bound
    decreases e
  {
    match e
    case Lit(_) =>
    case Read(_) =>
    case Add(l, r) =>
      ReadsOfGrows(sigs, frame, l, bound);
      ReadsOfGrows(sigs, ReadsOf(sigs, frame, l, bound), r, bound);
    case If(c, y, n) =>
      ReadsOfGrows(sigs, frame, c, bound);
      ReadsOfGrows(sigs, ReadsOf(sigs, frame, c, bound), y, bound);
      ReadsOfGrows(sigs, ReadsOf(sigs, frame, c, bound), n, bound);
  }

  /** Two stores that hold the same signals below `bound`. */
  ghost predicate AgreeBelow(a: seq<Sig>, b: seq<Sig>, bound: nat)
  {
    bound <= |a| && bound <= |b| && forall y | 0 <= y < bound :: a[y] == b[y]
  }

  /** A run depends only on the signals below its bound. */
  lemma {:induction false} RunFrame(a: seq<Sig>, b: seq<Sig>, frame: seq<Id>, e: Callback, bound: nat)
    requires ReadsBelow(e, bound) && AgreeBelow(a, b, bound)
    ensures Stored(a, e, bound) == Stored(b, e, bound)
    ensures ReadsOf(a, frame, e, bound) == ReadsOf(b, frame, e, bound)
    ensures PlainReads(a, e, bound) == PlainReads(b, e, bound)
    decreases e
  {
    match e
    case Lit(_) =>
    case Read(d) =>
      assert a[d] == b[d];
    case Add(l, r) =>
      RunFrame(a, b, frame, l, bound);
      RunFrame(a, b, ReadsOf(a, frame, l, bound), r, bound);
    case If(c, y, n) =>
      RunFrame(a, b, frame, c, bound);
      RunFrame(a, b, ReadsOf(a, frame, c, bound), y, bound);
      RunFrame(a, b, ReadsOf(a, frame, c, bound), n, bound);
  }

  /** The value a run of `c`'s callback computes from stored values. */
  ghost function RunValue(sigs: seq<Sig>, c: Id): int
    requires CallbacksBelow(sigs) && c < |sigs| && sigs[c].kind.Compute?
  {
    assert CallbackOk(sigs, c);
    Stored(sigs, sigs[c].kind.callback, c)
  }

  /** The tracker frame a run of `c`'s callback fills, starting from an empty one. */
  ghost function RunReads(sigs: seq<Sig>, c: Id): seq<Id>
    requires CallbacksBelow(sigs) && c < |sigs| && sigs[c].kind.Compute?
  {
    assert CallbackOk(sigs, c);
    ReadsOf(sigs, [], sigs[c].kind.callback, c)
  }

  /**
   * The situation in which `#update` of `c` behaves as intended: its run
   * reads only plain signals, each already followed by someone (so
   * subscribing to it calls nobody at once), and `c`'s own followers are
   * outside functions.
   */
  ghost predicate Quiet(sigs: seq<Sig>, c: Id)
    requires CallbacksBelow(sigs) && c < |sigs| && sigs[c].kind.Compute?
  {
    assert CallbackOk(sigs, c);
    && PlainReads(sigs, sigs[c].kind.callback, c)
    && (forall d | d in RunReads(sigs, c) :: d < |sigs| && |sigs[d].followers| > 0)
    && AllExternal(sigs[c].followers)
  }

  /** The recomputations a quiet `#update` of `c` makes: a second, nested one when the value changes. */
  ghost function Need(sigs: seq<Sig>, c: Id): nat
    requires CallbacksBelow(sigs) && c < |sigs| && sigs[c].kind.Compute?
  {
    if RunValue(sigs, c) != sigs[c].value then 2 else 1
  }

  /** The outside calls a quiet `#update` of `c` makes: one per follower, with the new value, if it changed. */
  ghost function Notified(sigs: seq<Sig>, c: Id): seq<Call>
    requires CallbacksBelow(sigs) && c < |sigs| && sigs[c].kind.Compute?
  {
    if RunValue(sigs, c) != sigs[c].value then CallsOf(sigs[c].followers, RunValue(sigs, c)) else []
  }

  /** Changing `c`'s value, flag or dependencies does not change what a quiet run of its callback does. */
  lemma QuietFrame(a: seq<Sig>, b: seq<Sig>, c: Id)
    requires CallbacksBelow(a) && CallbacksBelow(b) && c < |a| && c < |b| && a[c].kind.Compute?
    requires b[c].kind == a[c].kind && b[c].followers == a[c].followers && AgreeBelow(a, b, c)
    ensures RunValue(b, c) == RunValue(a, c) && RunReads(b, c) == RunReads(a, c)
    ensures Quiet(b, c) == Quiet(a, c)
  {
    assert CallbackOk(a, c);
    var cb := a[c].kind.callback;
    RunFrame(a, b, [], cb, c);
    ReadsOfGrows(a, [], cb, c);
    assert forall d | d in RunReads(a, c) :: d < c && a[d] == b[d];
  }

  /*
   * Well-formedness of the store, which every operation keeps (even one cut
   * short by an overflow).
   */

  /** A listener belongs to an existing `Compute`. */
  ghost predicate OwnerOk(sigs: seq<Sig>, f: Follower)
    requires f.Listener?
  {
    f.owner < |sigs| && sigs[f.owner].kind.Compute?
  }

  /**
   * One signal is wired: its followers form a set in insertion order, every
   * listener among them has an owner, it is not its own dependency, and
   * the unfollower stored for each dependency would remove a listener that
   * is really there.
   */
  ghost predicate Wired(sigs: seq<Sig>, x: Id, clock: nat)
    requires x < |sigs|
  {
    var sig := sigs[x];
    && Ordered(sig.followers) && StampsBelow(sig.followers, clock)
    && (forall f | f in Members(sig.followers) && f.Listener? :: OwnerOk(sigs, f))
    && x !in sig.deps
    && (forall d | d in sig.deps :: d < |sigs| && Listener(x, sig.deps[d]) in Members(sigs[d].followers))
  }

  ghost predicate Wellformed(sigs: seq<Sig>, clock: nat)
  {
    CallbacksBelow(sigs) && forall x | 0 <= x < |sigs| :: Wired(sigs, x, clock)
  }

  /** The followers of a signal are in insertion order, stamped before the clock, and a listener among them has a `Compute` owner. */
  lemma FollowersWired(sigs: seq<Sig>, clock: nat, s: Id)
    requires Wellformed(sigs, clock) && s < |sigs|
    ensures Ordered(sigs[s].followers) && StampsBelow(sigs[s].followers, clock)
    ensures forall f | f in Members(sigs[s].followers) && f.Listener? :: OwnerOk(sigs, f)
  {
    assert Wired(sigs, s, clock);
  }

  /** The same signal, but for its followers. */
  predicate SameButFollowers(x: Sig, y: Sig)
  {
    y == x.(followers := y.followers)
  }

  /** Only the follower sets of signals other than `c` differ. */
  ghost predicate FollowersOnly(a: seq<Sig>, b: seq<Sig>, c: Id)
  {
    |b| == |a| && forall y | 0 <= y < |a| && y != c :: SameButFollowers(a[y], b[y])
  }

  /** `followers.add(f)` on signal `s`. */
  function Joined(sigs: seq<Sig>, s: Id, f: Follower, stamp: nat): seq<Sig>
    requires s < |sigs|
  {
    sigs[s := sigs[s].(followers := Insert(sigs[s].followers, f, stamp))]
  }

  /** `dependencies.set(d, unfollow)` in `c`, the unfollower being that of listener `serial`. */
  function Hooked(sigs: seq<Sig>, c: Id, d: Id, serial: nat): seq<Sig>
    requires c < |sigs|
  {
    sigs[c := sigs[c].(deps := sigs[c].deps[d := serial])]
  }

  lemma JoinedWired(sigs: seq<Sig>, s: Id, f: Follower, clock: nat)
    requires Wellformed(sigs, clock) && s < |sigs|
    requires f.Listener? ==> OwnerOk(sigs, f)
    ensures Wellformed(Joined(sigs, s, f, clock), clock + 1)
    ensures f in Members(Joined(sigs, s, f, clock)[s].followers)
  {
    assert Wired(sigs, s, clock);
    InsertOrdered(sigs[s].followers, f, clock);
    InsertMembers(sigs[s].followers, f, clock);
    var r := Joined(sigs, s, f, clock);
    var clock' := clock + 1;
    forall x | 0 <= x < |r| ensures Wired(r, x, clock')
    {
      assert Wired(sigs, x, clock);
      forall g | g in Members(r[x].followers) && g.Listener? ensures OwnerOk(r, g)
      {
        if g != f {
          assert OwnerOk(sigs, g);
        }
      }
      forall i | 0 <= i < |r[x].followers| ensures r[x].followers[i].stamp < clock'
      {
        if x != s {
          assert r[x].followers[i] == sigs[x].followers[i];
        }
      }
    }
    assert CallbacksBelow(r) by {
      forall x | 0 <= x < |r| ensures CallbackOk(r, x)
      {
        assert CallbackOk(sigs, x);
      }
    }
  }

  lemma HookedWired(sigs: seq<Sig>, c: Id, d: Id, serial: nat, clock: nat)
    requires Wellformed(sigs, clock) && c < |sigs| && d < |sigs| && c != d
    requires Listener(c, serial) in Members(sigs[d].followers)
    ensures Wellformed(Hooked(sigs, c, d, serial), clock)
  {
    var r := Hooked(sigs, c, d, serial);
    forall x | 0 <= x < |r| ensures Wired(r, x, clock)
    {
      assert Wired(sigs, x, clock);
      forall g | g in Members(r[x].followers) && g.Listener? ensures OwnerOk(r, g)
      {
        assert OwnerOk(sigs, g);
      }
    }
    assert CallbacksBelow(r) by {
      forall x | 0 <= x < |r| ensures CallbackOk(r, x)
      {
        assert CallbackOk(sigs, x);
      }
    }
  }

  /** Calling a stored unfollower and deleting the dependency keeps the store wired, and the listener is gone. */
  lemma UnsubscribedWired(sigs: seq<Sig>, c: Id, d: Id, clock: nat)
    requires Wellformed(sigs, clock) && c < |sigs| && d < |sigs| && d in sigs[c].deps
    ensures c != d
    ensures Wellformed(Unsubscribed(sigs, c, d), clock)
    ensures Listener(c, sigs[c].deps[d]) !in Members(Unsubscribed(sigs, c, d)[d].followers)
  {
    assert Wired(sigs, c, clock);
    assert Wired(sigs, d, clock);
    var gone := Listener(c, sigs[c].deps[d]);
    DeleteMembers(sigs[d].followers, gone);
    DeleteOrdered(sigs[d].followers, gone, clock);
    var r := Unsubscribed(sigs, c, d);
    forall x | 0 <= x < |r| ensures Wired(r, x, clock)
    {
      assert Wired(sigs, x, clock);
      forall g | g in Members(r[x].followers) && g.Listener? ensures OwnerOk(r, g)
      {
        assert OwnerOk(sigs, g);
      }
      forall d' | d' in r[x].deps ensures d' < |r| && Listener(x, r[x].deps[d']) in Members(r[d'].followers)
      {
        assert d' in sigs[x].deps && r[x].deps[d'] == sigs[x].deps[d'];
      }
    }
    assert CallbacksBelow(r) by {
      forall x | 0 <= x < |r| ensures CallbackOk(r, x)
      {
        assert CallbackOk(sigs, x);
      }
    }
  }

  lemma FlagsWired(sigs: seq<Sig>, s: Id, v: int, dirty: bool, clock: nat)
    requires Wellformed(sigs, clock) && s < |sigs|
    ensures Wellformed(sigs[s := sigs[s].(value := v, dirty := dirty)], clock)
  {
    var r := sigs[s := sigs[s].(value := v, dirty := dirty)];
    forall x | 0 <= x < |r| ensures Wired(r, x, clock)
    {
      assert Wired(sigs, x, clock);
      forall g | g in Members(r[x].followers) && g.Listener? ensures OwnerOk(r, g)
      {
        assert OwnerOk(sigs, g);
      }
    }
    assert CallbacksBelow(r) by {
      forall x | 0 <= x < |r| ensures CallbackOk(r, x)
      {
        assert CallbackOk(sigs, x);
      }
    }
  }

  lemma UnfollowedWired(sigs: seq<Sig>, s: Id, k: nat, clock: nat)
    requires Wellformed(sigs, clock) && s < |sigs|
    ensures Wellformed(Unfollowed(sigs, s, k), clock)
  {
    assert Wired(sigs, s, clock);
    DeleteMembers(sigs[s].followers, External(k));
    DeleteOrdered(sigs[s].followers, External(k), clock);
    var r := Unfollowed(sigs, s, k);
    forall x | 0 <= x < |r| ensures Wired(r, x, clock)
    {
      assert Wired(sigs, x, clock);
      forall g | g in Members(r[x].followers) && g.Listener? ensures OwnerOk(r, g)
      {
        assert OwnerOk(sigs, g);
      }
    }
    assert CallbacksBelow(r) by {
      forall x | 0 <= x < |r| ensures CallbackOk(r, x)
      {
        assert CallbackOk(sigs, x);
      }
    }
  }

  lemma AppendWired(sigs: seq<Sig>, kind: Kind, v: int, clock: nat)
    requires Wellformed(sigs, clock)
    requires kind.Compute? ==> ReadsBelow(kind.callback, |sigs|)
    ensures Wellformed(sigs + [Sig(kind, v, [], kind.Compute?, map[])], clock)
  {
    var r := sigs + [Sig(kind, v, [], kind.Compute?, map[])];
    forall x | 0 <= x < |r| ensures Wired(r, x, clock) && CallbackOk(r, x)
    {
      if x < |sigs| {
        assert Wired(sigs, x, clock) && CallbackOk(sigs, x);
        assert r[x] == sigs[x];
        forall g | g in Members(r[x].followers) && g.Listener? ensures OwnerOk(r, g)
        {
          assert OwnerOk(sigs, g);
        }
      }
    }
  }

  /** The unfollower of an outside follower: calling it twice is calling it once. */
  lemma UnfollowedTwice(sigs: seq<Sig>, s: Id, k: nat)
    requires s < |sigs|
    ensures Unfollowed(Unfollowed(sigs, s, k), s, k) == Unfollowed(sigs, s, k)
  {
    DeleteIdempotent(sigs[s].followers, External(k));
  }

  /** Every tracked signal is a dependency already, or has followers (so following it calls nobody). */
  ghost predicate Followable(sigs: seq<Sig>, c: Id, tracked: seq<Id>)
    requires c < |sigs|
  {
    forall d | d in tracked :: d < |sigs| && (d in sigs[c].deps || |sigs[d].followers| > 0)
  }

  /**
   * `b` is `a` after a quiet `#update` of `c`: `c` is clean, holds its
   * callback's value and depends on exactly the signals the run read; other
   * signals differ at most in their followers.
   */
  ghost predicate RecomputedFrom(a: seq<Sig>, b: seq<Sig>, c: Id)
    requires CallbacksBelow(a) && c < |a| && a[c].kind.Compute?
  {
    && FollowersOnly(a, b, c)
    && b[c] == a[c].(value := RunValue(a, c), dirty := false, deps := b[c].deps)
    && b[c].deps.Keys == Elements(RunReads(a, c))
  }

  lemma FollowersOnlyTrans(a: seq<Sig>, b: seq<Sig>, d: seq<Sig>, c: Id)
    requires FollowersOnly(a, b, c) && FollowersOnly(b, d, c)
    ensures FollowersOnly(a, d, c)
  {
    forall y | 0 <= y < |a| && y != c ensures SameButFollowers(a[y], d[y])
    {
      assert SameButFollowers(a[y], b[y]) && SameButFollowers(b[y], d[y]);
    }
  }

  /** Between `#set` and the pop of a quiet `#update`: `c` holds `v`, other signals differ at most in their followers. */
  ghost predicate Midway(a: seq<Sig>, b: seq<Sig>, c: Id, v: int)
    requires c < |a| && c < |b|
  {
    FollowersOnly(a, b, c) && b[c] == a[c].(value := v, dirty := b[c].dirty, deps := b[c].deps)
  }

  /** A quiet `#update` of `c` is complete once its dependency map is reconciled after the pop. */
  lemma RecomputedAfterClose(a: seq<Sig>, b: seq<Sig>, d: seq<Sig>, c: Id)
    requires CallbacksBelow(a) && c < |a| && a[c].kind.Compute? && c < |b|
    requires Midway(a, b, c, RunValue(a, c))
    requires FollowersOnly(b, d, c) && d[c] == b[c].(dirty := false, deps := d[c].deps)
    requires d[c].deps.Keys == Elements(RunReads(a, c))
    ensures RecomputedFrom(a, d, c)
  {
    FollowersOnlyTrans(a, b, d, c);
  }

  /**
   * What the three ways through `#set` of a quiet `#update` leave behind:
   * nothing (same value), a plain change with its notification, or the
   * nested `#update` of a dirty `Compute`. In each, `c` holds `v` and the
   * frame, once `c` is removed, holds the run's reads, all followable.
   */
  lemma MidwayQuiet(sigs0: seq<Sig>, sigs1: seq<Sig>, stack0: seq<seq<Id>>, stack1: seq<seq<Id>>, c: Id, v: int)
    requires CallbacksBelow(sigs0) && c < |sigs0| && sigs0[c].kind.Compute? && |stack0| > 0
    requires Quiet(sigs0, c) && v == RunValue(sigs0, c) && Top(stack0) == RunReads(sigs0, c)
    requires v == sigs0[c].value ==> sigs1 == sigs0 && stack1 == stack0
    requires v != sigs0[c].value && Plain(sigs0[c]) ==> sigs1 == sigs0[c := sigs0[c].(value := v)] && stack1 == Tracked(stack0, c)
    requires v != sigs0[c].value && !Plain(sigs0[c]) ==> RecomputedFrom(sigs0, sigs1, c) && stack1 == Tracked(stack0, c)
    ensures |sigs1| == |sigs0| && Midway(sigs0, sigs1, c, v) && |stack1| > 0 && Beneath(stack1) == Beneath(stack0)
    ensures Elements(Top(stack1)) - {c} == Elements(RunReads(sigs0, c))
    ensures Followable(sigs1, c, Without(Top(stack1), c))
  {
    assert CallbackOk(sigs0, c);
    var r := RunReads(sigs0, c);
    ReadsOfGrows(sigs0, [], sigs0[c].kind.callback, c);
    assert c !in r;
    WithoutElements(Top(stack1), c);
    forall d | d in Without(Top(stack1), c)
      ensures d < |sigs1| && (d in sigs1[c].deps || |sigs1[d].followers| > 0)
    {
      assert d in Elements(Without(Top(stack1), c));
      assert d in r && d < c;
    }
  }

  /** The tracker stack below its top frame. */
  function Beneath(stack: seq<seq<Id>>): seq<seq<Id>>
  {
    if |stack| == 0 then [] else stack[..|stack| - 1]
  }

  /** Same depth and the same frames below the top one: only the top frame may have gained reads. */
  predicate Balanced(a: seq<seq<Id>>, b: seq<seq<Id>>)
  {
    |b| == |a| && Beneath(b) == Beneath(a)
  }

  class Graph {
    var sigs: seq<Sig>
    /** `trackerStack`: one frame (an insertion-ordered set of ids) per computation under way. */
    var stack: seq<seq<Id>>
    /** The calls made to outside followers, in order. */
    var trace: seq<Call>
    /** The source of insertion stamps. */
    var clock: nat
    /** The number of dependency listeners created, which numbers the next one. */
    var serials: nat
    /** How many more nested recomputations the call stack has room for; each `#update` takes one level and gives it back on return. */
    var fuel: nat
    /** A stack overflow is unwinding every call. */
    var overflow: bool

    ghost predicate Valid()
      reads this
    {
      Wellformed(sigs, clock) && FramesBelow(stack, |sigs|)
    }

    constructor(depth: nat)
      ensures Valid() && sigs == [] && stack == [] && trace == [] && fuel == depth && !overflow
    {
      sigs := [];
      stack := [];
      trace := [];
      clock := 0;
      serials := 0;
      fuel := depth;
      overflow := false;
    }

    /** What every operation keeps, whatever the tracker stack: among them the values of the `State`s. */
    twostate predicate Held()
      reads this
    {
      Evolved() && StateValues(sigs) == StateValues(old(sigs))
    }

    /** All of that but the values of the `State`s, which a setter writes. */
    twostate predicate Evolved()
      reads this
    {
      && Valid()
      && SameKinds(old(sigs), sigs)
      && old(trace) <= trace && old(clock) <= clock && old(serials) <= serials && fuel <= old(fuel)
    }

    /**
     * ... and, unless an overflow is unwinding, the tracker stack is as deep
     * as before with only its top frame grown, and every level of the call
     * stack used is given back.
     */
    twostate predicate Kept()
      reads this
    {
      Held() && Returned()
    }

    /** The tracker stack and the call stack as an operation that did not overflow leaves them. */
    twostate predicate Returned()
      reads this
    {
      !overflow ==> Balanced(old(stack), stack) && fuel == old(fuel)
    }

    /** No overflow, and no follower inserted, listener created or fuel spent. */
    twostate predicate Still()
      reads this
    {
      !overflow && clock == old(clock) && serials == old(serials) && fuel == old(fuel)
    }

    /** The effect of a quiet `#update` of `c` on the store. */
    twostate predicate Recomputed(c: Id)
      reads this
      requires old(Valid()) && c < |old(sigs)| && old(sigs)[c].kind.Compute?
    {
      !overflow && RecomputedFrom(old(sigs), sigs, c)
    }

    /** The effect of the listener's teardown branch on `e`. */
    twostate predicate TornDown(e: Id)
      reads this
      requires e < |old(sigs)| && |sigs| == |old(sigs)|
    {
      && Still() && stack == old(stack) && trace == old(trace)
      && sigs[e] == old(sigs)[e].(dirty := true, deps := map[])
      && forall d | d in old(sigs)[e].deps :: d < |sigs| && Listener(e, old(sigs)[e].deps[d]) !in Members(sigs[d].followers)
    }

    /**
     * The dependency listener's branch for a `Compute` without followers:
     * it is marked dirty, then every stored unfollower is called and its
     * dependency deleted, so no listener of it is left on them.
     */
    method TearDown(e: Id)
      requires Valid() && !overflow && e < |sigs|
      modifies this
      ensures Valid() && SameKinds(old(sigs), sigs) && StateValues(sigs) == StateValues(old(sigs)) && TornDown(e)
    {
      FlagsWired(sigs, e, sigs[e].value, true, clock);
      sigs := sigs[e := sigs[e].(dirty := true)];
      while sigs[e].deps != map[]
        invariant Valid() && SameKinds(old(sigs), sigs) && StateValues(sigs) == StateValues(old(sigs)) && e < |sigs|
        invariant Still() && stack == old(stack) && trace == old(trace)
        invariant sigs[e] == old(sigs)[e].(dirty := true, deps := sigs[e].deps)
        invariant forall d | d in sigs[e].deps :: d in old(sigs)[e].deps && sigs[e].deps[d] == old(sigs)[e].deps[d]
        invariant forall d | d in old(sigs)[e].deps && d !in sigs[e].deps ::
          d < |sigs| && Listener(e, old(sigs)[e].deps[d]) !in Members(sigs[d].followers)
        decreases |sigs[e].deps|
      {
        var d :| d in sigs[e].deps;
        Unlink(e, d);
      }
    }

    /** The unfollower `c` stored for dependency `d` (its listener leaves `d`), then `dependencies.delete(d)`. */
    method Unlink(c: Id, d: Id)
      requires Valid() && !overflow && c < |sigs| && d in sigs[c].deps
      modifies this
      ensures Valid() && SameKinds(old(sigs), sigs) && Still() && stack == old(stack) && trace == old(trace)
      ensures d < |sigs| && d != c
      ensures sigs[c] == old(sigs)[c].(deps := old(sigs)[c].deps - {d})
      ensures SameButFollowers(old(sigs)[d], sigs[d])
      ensures Listener(c, old(sigs)[c].deps[d]) !in Members(sigs[d].followers)
      ensures forall y | 0 <= y < |sigs| && y != c && y != d :: sigs[y] == old(sigs)[y]
    {
      assert Wired(sigs, c, clock);
      UnsubscribedWired(sigs, c, d, clock);
      sigs := Unsubscribed(sigs, c, d);
    }

    /*
     * The calls of the source, which may call each other. Only `#update`
     * spends fuel; every cycle of calls goes through it, so the rank
     * (fuel, level) decreases at every call.
     */

    /**
     * `get()`: a dirty `Compute` first runs `#update`, always; then the
     * signal is added to the top tracker frame (if any) and its stored value
     * returned. A plain signal changes nothing else.
     */
    method Get(s: Id) returns (v: int)
      requires Valid() && !overflow && s < |sigs|
      modifies this
      decreases fuel, 1, 0
      ensures Kept()
      ensures Plain(old(sigs)[s]) ==>
        Still() && sigs == old(sigs) && trace == old(trace) && v == sigs[s].value && stack == Tracked(old(stack), s)
      ensures !Plain(old(sigs)[s]) && old(Quiet(sigs, s) && fuel >= Need(sigs, s)) ==>
        && Recomputed(s) && v == sigs[s].value && stack == Tracked(old(stack), s)
        && trace == old(trace) + Notified(old(sigs), s)
    {
      if sigs[s].kind.Compute? && sigs[s].dirty {
        Update(s);
        if overflow {
          v := 0;
          return;
        }
      }
      stack := Tracked(stack, s);
      v := sigs[s].value;
    }

    /** A callback run: every `get()` it meets is a `Get`, in evaluation order; an overflow ends it. */
    method Eval(e: Callback, bound: nat) returns (v: int)
      requires Valid() && !overflow && ReadsBelow(e, bound) && bound <= |sigs|
      modifies this
      decreases fuel, 2, Size(e)
      ensures Kept()
      ensures old(PlainReads(sigs, e, bound)) ==>
        && Still() && sigs == old(sigs) && trace == old(trace) && v == Stored(sigs, e, bound)
        && stack == WithTop(old(stack), ReadsOf(sigs, Top(old(stack)), e, bound))
    {
      match e
      case Lit(n) =>
        v := n;
      case Read(d) =>
        v := Get(d);
      case Add(l, r) =>
        var a := Eval(l, bound);
        if overflow {
          v := 0;
          return;
        }
        var b := Eval(r, bound);
        v := a + b;
      case If(c, y, n) =>
        var cond := Eval(c, bound);
        if overflow {
          v := 0;
          return;
        }
        if cond != 0 {
          v := Eval(y, bound);
        } else {
          v := Eval(n, bound);
        }
    }

    /**
     * `#update`: one level of the call stack is used up; the callback runs
     * in a fresh tracker frame and its value is `#set` before the frame is
     * popped; then the dependencies are reconciled. In the quiet case the
     * `Compute` ends clean, holding the callback's value, depending on
     * exactly the signals read, and its followers were called once each if
     * the value changed.
     */
    method Update(c: Id)
      requires Valid() && !overflow && c < |sigs| && sigs[c].kind.Compute?
      modifies this
      decreases fuel, 0, 0
      ensures Kept()
      ensures old(Quiet(sigs, c) && fuel >= Need(sigs, c)) ==>
        Recomputed(c) && stack == old(stack) && trace == old(trace) + Notified(old(sigs), c)
    {
      if fuel == 0 {
        overflow := true;
        return;
      }
      fuel := fuel - 1;
      assert CallbackOk(sigs, c);
      stack := stack + [[]];
      var v := Eval(sigs[c].kind.callback, c);
      if overflow {
        return;
      }
      Finish(c, v);
      if overflow {
        return;
      }
      fuel := fuel + 1;
    }

    /**
     * The rest of `#update` once the callback has returned `v`: `#set(v)`
     * while the frame is still pushed (so a change re-enters `get()` of this
     * still-dirty `Compute`, which updates it again and tracks it into the
     * frame), then `Close`.
     */
    method Finish(c: Id, v: int)
      requires Valid() && !overflow && c < |sigs| && sigs[c].kind.Compute? && |stack| > 0
      modifies this
      decreases fuel, 8, 0
      ensures Held() && (!overflow ==> Balanced(Beneath(old(stack)), stack) && fuel == old(fuel))
      ensures old(Quiet(sigs, c) && v == RunValue(sigs, c) && Top(stack) == RunReads(sigs, c) && fuel + 1 >= Need(sigs, c)) ==>
        Recomputed(c) && stack == Beneath(old(stack)) && trace == old(trace) + Notified(old(sigs), c)
    {
      ghost var quiet := Quiet(sigs, c) && v == RunValue(sigs, c) && Top(stack) == RunReads(sigs, c) && fuel + 1 >= Need(sigs, c);
      ghost var sigs0 := sigs;
      ghost var stack0 := stack;
      ComputeWriteKeepsStates(sigs, c, v);
      SetValue(c, v);
      if overflow {
        return;
      }
      ghost var sigs1 := sigs;
      if quiet {
        MidwayQuiet(sigs0, sigs1, stack0, stack, c, v);
      }
      Close(c);
      if quiet {
        RecomputedAfterClose(sigs0, sigs1, sigs, c);
      }
    }

    /**
     * After `#set`: the frame is popped, `trackedSet.delete(self)`, and
     * `Settle` runs on what was tracked.
     */
    method Close(c: Id)
      requires Valid() && !overflow && c < |sigs| && sigs[c].kind.Compute? && |stack| > 0
      modifies this
      decreases fuel, 7, 0
      ensures Held() && (!overflow ==> Balanced(Beneath(old(stack)), stack) && fuel == old(fuel))
      ensures old(Followable(sigs, c, Without(Top(stack), c))) ==>
        && !overflow && trace == old(trace) && stack == Beneath(old(stack)) && fuel == old(fuel)
        && sigs[c] == old(sigs)[c].(dirty := false, deps := sigs[c].deps)
        && sigs[c].deps.Keys == Elements(Top(old(stack))) - {c}
        && FollowersOnly(old(sigs), sigs, c)
    {
      var tracked := Top(stack);
      stack := stack[..|stack| - 1];
      WithoutElements(tracked, c);
      tracked := Without(tracked, c);
      assert forall t | t in tracked :: t in Elements(tracked);
      Settle(c, tracked);
    }

    /**
     * `#set`: the value is always stored, and `notify` runs only when it
     * differs from the old one. For a dirty `Compute` in `#update` the
     * change re-enters its `get()`, which runs `#update` again.
     */
    method SetValue(s: Id, v: int)
      requires Valid() && !overflow && s < |sigs|
      modifies this
      decreases fuel, 5, 0
      ensures Evolved() && StateValues(sigs) == StateValues(old(sigs)[s := old(sigs)[s].(value := v)]) && Returned()
      ensures old(sigs)[s].kind.State? ==> sigs[s].value == v
      ensures v == old(sigs)[s].value ==> Still() && sigs == old(sigs) && stack == old(stack) && trace == old(trace)
      ensures Plain(old(sigs)[s]) && AllExternal(old(sigs)[s].followers) ==>
        && Still() && sigs == old(sigs)[s := old(sigs)[s].(value := v)]
        && trace == old(trace) + (if v != old(sigs)[s].value then CallsOf(old(sigs)[s].followers, v) else [])
        && stack == (if v != old(sigs)[s].value then Tracked(old(stack), s) else old(stack))
      ensures v != old(sigs)[s].value && !Plain(old(sigs)[s]) && old(Quiet(sigs, s) && v == RunValue(sigs, s) && fuel >= 1) ==>
        && Recomputed(s) && trace == old(trace) + CallsOf(old(sigs)[s].followers, v)
        && stack == Tracked(old(stack), s)
    {
      var changed := sigs[s].value != v;
      ghost var sigs0 := sigs;
      FlagsWired(sigs, s, v, sigs[s].dirty, clock);
      sigs := sigs[s := sigs[s].(value := v)];
      if changed {
        if sigs[s].kind.Compute? {
          QuietFrame(sigs0, sigs, s);
        }
        ghost var stored := sigs;
        Notify(s);
        if stored[s].kind.State? {
          StateValueKept(stored, sigs, s);
        }
      }
    }

    /**
     * `notify(self, value = self.val)`: the value is read once, then every
     * follower in the set, in insertion order, is called with that same
     * value; deletions made meanwhile are seen.
     */
    method Notify(s: Id)
      requires Valid() && !overflow && s < |sigs|
      modifies this
      decreases fuel, 4, 0
      ensures Kept()
      ensures Plain(old(sigs)[s]) && AllExternal(old(sigs)[s].followers) ==>
        && Still() && sigs == old(sigs) && stack == Tracked(old(stack), s)
        && trace == old(trace) + CallsOf(old(sigs)[s].followers, old(sigs)[s].value)
      ensures !Plain(old(sigs)[s]) && old(Quiet(sigs, s) && RunValue(sigs, s) == sigs[s].value && fuel >= 1) ==>
        && Recomputed(s) && stack == Tracked(old(stack), s)
        && trace == old(trace) + CallsOf(old(sigs)[s].followers, old(sigs)[s].value)
    {
      var v := Get(s);
      if overflow {
        return;
      }
      Broadcast(s, v);
    }

    /** The loop of `notify`, with the value already read. */
    method Broadcast(s: Id, v: int)
      requires Valid() && !overflow && s < |sigs|
      modifies this
      decreases fuel, 3, 0
      ensures Kept()
      ensures AllExternal(old(sigs)[s].followers) ==>
        && Still() && sigs == old(sigs) && stack == old(stack)
        && trace == old(trace) + CallsOf(old(sigs)[s].followers, v)
    {
      ghost var fs := sigs[s].followers;
      ghost var outside := AllExternal(fs);
      FollowersWired(sigs, clock, s);
      var limit := clock;
      var cursor: int := -1;
      ghost var i := 0;
      while true
        invariant Kept() && !overflow && s < |sigs|
        invariant -1 <= cursor < limit
        invariant outside ==> Still() && sigs == old(sigs) && stack == old(stack)
        invariant outside ==> i <= |fs| && cursor == (if i == 0 then -1 else fs[i - 1].stamp)
        invariant outside ==> trace == old(trace) + CallsOf(fs[..i], v)
        decreases limit - cursor
      {
        var next := NextAfter(sigs[s].followers, cursor);
        if outside {
          if i < |fs| {
            NextAfterVisits(fs, i, cursor);
          } else {
            NextAfterEnds(fs, cursor);
          }
        }
        if next.None? || next.value.stamp >= limit {
          break;
        }
        cursor := next.value.stamp;
        VisitEntry(s, next.value, v);
        if overflow {
          return;
        }
        if outside {
          CallsOfNext(old(trace), fs, i, v);
          i := i + 1;
        }
      }
      if outside {
        assert fs[..i] == fs;
      }
    }

    /** One pass of the loop of `notify`: `follower(value)` for a follower found in the set of `s`. */
    method VisitEntry(s: Id, e: Entry, v: int)
      requires Valid() && !overflow && s < |sigs| && e in sigs[s].followers
      modifies this
      decreases fuel, 2, 1
      ensures Kept()
      ensures e.follower.External? ==>
        Still() && sigs == old(sigs) && stack == old(stack) && trace == old(trace) + [Call(e.follower.k, v)]
    {
      EntryMember(sigs[s].followers, e);
      FollowersWired(sigs, clock, s);
      Visit(e.follower, v);
    }

    /** `follower(value)`: an outside follower records the call, a listener fires. */
    method Visit(f: Follower, v: int)
      requires Valid() && !overflow && (f.Listener? ==> OwnerOk(sigs, f))
      modifies this
      decreases fuel, 2, 0
      ensures Kept()
      ensures f.External? ==> Still() && sigs == old(sigs) && stack == old(stack) && trace == old(trace) + [Call(f.k, v)]
      ensures f.Listener? && |old(sigs)[f.owner].followers| == 0 ==> TornDown(f.owner)
    {
      match f
      case External(k) =>
        trace := trace + [Call(k, v)];
      case Listener(e, _) =>
        ListenerFire(e);
    }

    /**
     * The dependency listener of `e`: while `e` has followers it runs
     * `#update`; otherwise `e` becomes dirty and every dependency is
     * unfollowed and removed.
     */
    method ListenerFire(e: Id)
      requires Valid() && !overflow && e < |sigs| && sigs[e].kind.Compute?
      modifies this
      decreases fuel, 1, 0
      ensures Kept()
      ensures |old(sigs)[e].followers| == 0 ==> TornDown(e)
      ensures |old(sigs)[e].followers| > 0 && old(Quiet(sigs, e) && fuel >= Need(sigs, e)) ==>
        Recomputed(e) && stack == old(stack) && trace == old(trace) + Notified(old(sigs), e)
    {
      if |sigs[e].followers| > 0 {
        Update(e);
      } else {
        TearDown(e);
      }
    }

    /**
     * `follow(f, immediate)`: when `immediate` is set or the set is empty,
     * `f` is first called with `val`; then it joins the set (once).
     */
    method FollowWith(s: Id, f: Follower, immediate: bool)
      requires Valid() && !overflow && s < |sigs| && (f.Listener? ==> OwnerOk(sigs, f))
      modifies this
      decreases fuel, 3, 1
      ensures Kept()
      ensures !overflow ==> f in Members(sigs[s].followers)
      ensures !immediate && |old(sigs)[s].followers| > 0 ==>
        && !overflow && trace == old(trace) && stack == old(stack) && fuel == old(fuel)
        && clock == old(clock) + 1 && serials == old(serials)
        && sigs == Joined(old(sigs), s, f, old(clock))
      ensures f.External? && Plain(old(sigs)[s]) ==>
        && !overflow && fuel == old(fuel) && clock == old(clock) + 1 && serials == old(serials)
        && sigs == Joined(old(sigs), s, f, old(clock))
        && var called := immediate || |old(sigs)[s].followers| == 0;
           && trace == old(trace) + (if called then [Call(f.k, old(sigs)[s].value)] else [])
           && stack == (if called then Tracked(old(stack), s) else old(stack))
      ensures f.Listener? && f.owner != s && Plain(old(sigs)[s]) && |old(sigs)[s].followers| == 0 && |old(sigs)[f.owner].followers| == 0 ==>
        !overflow && sigs[f.owner] == old(sigs)[f.owner].(dirty := true, deps := map[])
    {
      if immediate || |sigs[s].followers| == 0 {
        Greet(s, f);
        if overflow {
          return;
        }
      }
      Join(s, f);
    }

    /** `follower(self.val)`, the call `follow` makes before adding the follower. */
    method Greet(s: Id, f: Follower)
      requires Valid() && !overflow && s < |sigs| && (f.Listener? ==> OwnerOk(sigs, f))
      modifies this
      decreases fuel, 3, 0
      ensures Kept()
      ensures f.External? && Plain(old(sigs)[s]) ==>
        && Still() && sigs == old(sigs) && stack == Tracked(old(stack), s)
        && trace == old(trace) + [Call(f.k, old(sigs)[s].value)]
      ensures f.Listener? && f.owner != s && Plain(old(sigs)[s]) && |old(sigs)[f.owner].followers| == 0 ==>
        && Still() && stack == Tracked(old(stack), s) && trace == old(trace)
        && sigs[f.owner] == old(sigs)[f.owner].(dirty := true, deps := map[])
    {
      var v := Get(s);
      if overflow {
        return;
      }
      Visit(f, v);
    }

    /** `followers.add(f)`: the follower joins the set with the next insertion stamp. */
    method Join(s: Id, f: Follower)
      requires Valid() && !overflow && s < |sigs| && (f.Listener? ==> OwnerOk(sigs, f))
      modifies this
      ensures Valid() && sigs == Joined(old(sigs), s, f, old(clock)) && f in Members(sigs[s].followers)
      ensures SameKinds(old(sigs), sigs) && clock == old(clock) + 1
      ensures stack == old(stack) && trace == old(trace) && serials == old(serials)
      ensures fuel == old(fuel) && overflow == old(overflow)
    {
      JoinedWired(sigs, s, f, clock);
      sigs := Joined(sigs, s, f, clock);
      clock := clock + 1;
    }

    /**
     * `dependencies.set(d, d.follow(listener))` inside `#update` of `c`, with
     * a new listener closure. A dependency that already has followers is
     * simply subscribed to. One that has none calls the listener at once;
     * if `c` has no followers either, that call tears `c` down, so `c` ends
     * dirty, depending on `d` alone.
     */
    method Subscribe(c: Id, d: Id)
      requires Valid() && !overflow && c < |sigs| && d < |sigs| && c != d && sigs[c].kind.Compute?
      modifies this
      decreases fuel, 4, 0
      ensures Kept()
      ensures !overflow ==> d in sigs[c].deps
      ensures |old(sigs)[d].followers| > 0 ==>
        && !overflow && trace == old(trace) && stack == old(stack) && fuel == old(fuel)
        && clock == old(clock) + 1 && serials == old(serials) + 1
        && sigs == Hooked(Joined(old(sigs), d, Listener(c, old(serials)), old(clock)), c, d, old(serials))
      ensures Plain(old(sigs)[d]) && |old(sigs)[d].followers| == 0 && |old(sigs)[c].followers| == 0 ==>
        !overflow && sigs[c].dirty && sigs[c].deps.Keys == {d}
    {
      var serial := serials;
      serials := serials + 1;
      FollowWith(d, Listener(c, serial), false);
      if overflow {
        return;
      }
      HookedWired(sigs, c, d, serial, clock);
      sigs := Hooked(sigs, c, d, serial);
    }

    /** After the pop: the flag is cleared, then stale dependencies are dropped and new ones followed. */
    method Settle(c: Id, tracked: seq<Id>)
      requires Valid() && !overflow && c < |sigs| && sigs[c].kind.Compute?
      requires forall t | t in tracked :: t < |sigs| && t != c
      modifies this
      decreases fuel, 6, 0
      ensures Kept()
      ensures old(Followable(sigs, c, tracked)) ==>
        && !overflow && trace == old(trace) && stack == old(stack) && fuel == old(fuel)
        && sigs[c] == old(sigs)[c].(dirty := false, deps := sigs[c].deps)
        && sigs[c].deps.Keys == Elements(tracked)
        && FollowersOnly(old(sigs), sigs, c)
    {
      FlagsWired(sigs, c, sigs[c].value, false, clock);
      sigs := sigs[c := sigs[c].(dirty := false)];
      DropStale(c, tracked);
      FollowNew(c, tracked);
    }

    /** The first loop: each dependency not tracked is unfollowed and deleted. */
    method DropStale(c: Id, tracked: seq<Id>)
      requires Valid() && !overflow && c < |sigs|
      modifies this
      ensures Valid() && SameKinds(old(sigs), sigs) && Still() && stack == old(stack) && trace == old(trace)
      ensures sigs[c] == old(sigs)[c].(deps := sigs[c].deps)
      ensures sigs[c].deps.Keys == old(sigs)[c].deps.Keys * Elements(tracked)
      ensures FollowersOnly(old(sigs), sigs, c)
      ensures forall y | 0 <= y < |sigs| && y != c && y !in old(sigs)[c].deps :: sigs[y] == old(sigs)[y]
    {
      var stale := sigs[c].deps.Keys - Elements(tracked);
      while stale != {}
        invariant Valid() && SameKinds(old(sigs), sigs) && Still() && stack == old(stack) && trace == old(trace) && c < |sigs|
        invariant sigs[c] == old(sigs)[c].(deps := sigs[c].deps)
        invariant stale <= sigs[c].deps.Keys && stale !! Elements(tracked)
        invariant sigs[c].deps.Keys == old(sigs)[c].deps.Keys * Elements(tracked) + stale
        invariant FollowersOnly(old(sigs), sigs, c)
        invariant forall y | 0 <= y < |sigs| && y != c && y !in old(sigs)[c].deps :: sigs[y] == old(sigs)[y]
        decreases stale
      {
        var d :| d in stale;
        Unlink(c, d);
        stale := stale - {d};
      }
    }

    /** The second loop: each tracked signal not (or no longer) a dependency is subscribed to. */
    method FollowNew(c: Id, tracked: seq<Id>)
      requires Valid() && !overflow && c < |sigs| && sigs[c].kind.Compute?
      requires forall t | t in tracked :: t < |sigs| && t != c
      modifies this
      decreases fuel, 5, 0
      ensures Kept()
      ensures old(Followable(sigs, c, tracked)) ==>
        && !overflow && trace == old(trace) && stack == old(stack) && fuel == old(fuel)
        && sigs[c] == old(sigs)[c].(deps := sigs[c].deps)
        && sigs[c].deps.Keys == old(sigs)[c].deps.Keys + Elements(tracked)
        && FollowersOnly(old(sigs), sigs, c)
    {
      ghost var quiet := Followable(sigs, c, tracked);
      var i := 0;
      while i < |tracked|
        invariant 0 <= i <= |tracked|
        invariant Kept() && !overflow && c < |sigs|
        invariant quiet ==> trace == old(trace) && stack == old(stack) && fuel == old(fuel)
        invariant quiet ==> sigs[c] == old(sigs)[c].(deps := sigs[c].deps)
        invariant quiet ==> sigs[c].deps.Keys == old(sigs)[c].deps.Keys + Elements(tracked[..i])
        invariant quiet ==> FollowersOnly(old(sigs), sigs, c) && Followable(sigs, c, tracked)
      {
        var d := tracked[i];
        assert d in tracked;
        if d !in sigs[c].deps {
          Subscribe(c, d);
          if overflow {
            return;
          }
        }
        assert tracked[..i + 1] == tracked[..i] + [d];
        i := i + 1;
      }
      assert tracked[..i] == tracked;
    }

    /*
     * The operations outside code calls: `ref`, `computed`, the `State`
     * setter (`set` and `val =`), `follow` and its unfollower. Reading
     * (`get()` and `val`) is `Get`.
     */

    /** `ref(value)`: a new `State` holding `value`. */
    method Ref(v: int) returns (s: Id)
      requires Valid()
      modifies this
      ensures Valid() && s == |old(sigs)|
      ensures sigs == old(sigs) + [Sig(State, v, [], false, map[])]
      ensures stack == old(stack) && trace == old(trace) && clock == old(clock) && serials == old(serials)
      ensures fuel == old(fuel) && overflow == old(overflow)
    {
      AppendWired(sigs, State, v, clock);
      s := |sigs|;
      sigs := sigs + [Sig(State, v, [], false, map[])];
    }

    /** `computed(callback)`: a new `Compute`, dirty, with value 0, no followers and no dependencies. */
    method Computed(cb: Callback) returns (c: Id)
      requires Valid() && ReadsBelow(cb, |sigs|)
      modifies this
      ensures Valid() && c == |old(sigs)|
      ensures sigs == old(sigs) + [Sig(Compute(cb), 0, [], true, map[])]
      ensures stack == old(stack) && trace == old(trace) && clock == old(clock) && serials == old(serials)
      ensures fuel == old(fuel) && overflow == old(overflow)
    {
      AppendWired(sigs, Compute(cb), 0, clock);
      c := |sigs|;
      sigs := sigs + [Sig(Compute(cb), 0, [], true, map[])];
    }

    /**
     * `State.set(v)` and the setter `val = v`, both `#set`: the value is
     * stored; the followers are called with it only if it changed.
     */
    method Set(s: Id, v: int)
      requires Valid() && !overflow && s < |sigs| && sigs[s].kind.State?
      modifies this
      ensures Evolved() && StateValues(sigs) == StateValues(old(sigs)[s := old(sigs)[s].(value := v)]) && Returned()
      ensures sigs[s].value == v
      ensures v == old(sigs)[s].value ==> Still() && sigs == old(sigs) && stack == old(stack) && trace == old(trace)
      ensures AllExternal(old(sigs)[s].followers) ==>
        && Still() && sigs == old(sigs)[s := old(sigs)[s].(value := v)]
        && trace == old(trace) + (if v != old(sigs)[s].value then CallsOf(old(sigs)[s].followers, v) else [])
        && stack == (if v != old(sigs)[s].value then Tracked(old(stack), s) else old(stack))
    {
      SetValue(s, v);
    }

    /**
     * `s.follow(f, immediate)` for an outside follower `f` (numbered `k`):
     * it is called first when `immediate` is set or nobody followed `s`,
     * then it joins the set (once).
     */
    method Follow(s: Id, k: nat, immediate: bool)
      requires Valid() && !overflow && s < |sigs|
      modifies this
      ensures Kept()
      ensures !overflow ==> External(k) in Members(sigs[s].followers)
      ensures Plain(old(sigs)[s]) ==>
        && !overflow && sigs == Joined(old(sigs), s, External(k), old(clock))
        && var called := immediate || |old(sigs)[s].followers| == 0;
           trace == old(trace) + (if called then [Call(k, old(sigs)[s].value)] else [])
    {
      FollowWith(s, External(k), immediate);
    }

    /** The unfollower `follow` returned: `f` leaves the set, and nothing else happens. */
    method Unfollow(s: Id, k: nat)
      requires Valid() && s < |sigs|
      modifies this
      ensures Valid() && sigs == Unfollowed(old(sigs), s, k)
      ensures forall f :: f in Members(sigs[s].followers) <==> f in Members(old(sigs)[s].followers) && f != External(k)
      ensures stack == old(stack) && trace == old(trace) && clock == old(clock) && serials == old(serials)
      ensures fuel == old(fuel) && overflow == old(overflow)
    {
      DeleteMembers(sigs[s].followers, External(k));
      UnfollowedWired(sigs, s, k, clock);
      sigs := Unfollowed(sigs, s, k);
    }
  }
}
