/**
 * The hot/cold signal graph of `packages/purified-js/dist/signals.js`.
 *
 * A `Graph` holds every signal of the program (the JavaScript objects,
 * addressed by id), the module-level `trackerStack`, and the trace of the
 * calls made to outside followers. A `Compute` with no followers is cold: it
 * evaluates its callback on every read without caching. Once followed it is
 * hot: it recomputes under tracking, keeps a dependency map, and drops every
 * dependency when its last follower leaves.
 *
 * Callbacks are side-effect free expressions and outside followers only
 * record their calls, so no operation starts while a callback runs. In such
 * a program a dependency is always older than its dependent and a dirty
 * `Compute` never has followers (`Consistent`); notification climbs towards
 * newer signals and the recomputation of a cold dependency towards older
 * ones, which is what makes the recursion of the source terminate.
 */
module PurifiedSignals {
  import opened Text
  import opened SignalStore

  /**
   * What `s.val` yields in a consistent store: the stored value of a plain
   * signal, or else the value of the callback (a dirty `Compute` has no
   * followers, so it evaluates its callback uncached).
   */
  ghost function Current(sigs: seq<Sig>, s: Id): int
    requires CallbacksBelow(sigs) && s < |sigs|
    decreases s + 1, 0
  {
    if Plain(sigs[s]) then sigs[s].value
    else assert CallbackOk(sigs, s); Evaluate(sigs, sigs[s].kind.callback, s)
  }

  ghost function Evaluate(sigs: seq<Sig>, e: Callback, bound: nat): int
    requires CallbacksBelow(sigs) && ReadsBelow(e, bound) && bound <= |sigs|
    decreases bound, Size(e)
  {
    match e
    case Lit(n) => n
    case Read(d) => Current(sigs, d)
    case Add(l, r) => Evaluate(sigs, l, bound) + Evaluate(sigs, r, bound)
    case If(c, y, n) =>
      if Evaluate(sigs, c, bound) != 0 then Evaluate(sigs, y, bound) else Evaluate(sigs, n, bound)
  }

  /** The tracker frame after `s.val`: a cold `Compute` is transparent, its callback's reads are tracked instead. */
  ghost function Tracks(sigs: seq<Sig>, frame: seq<Id>, s: Id): seq<Id>
    requires CallbacksBelow(sigs) && s < |sigs|
    decreases s + 1, 0
  {
    if Plain(sigs[s]) then AddOnce(frame, s)
    else assert CallbackOk(sigs, s); TracksExpr(sigs, frame, sigs[s].kind.callback, s)
  }

  ghost function TracksExpr(sigs: seq<Sig>, frame: seq<Id>, e: Callback, bound: nat): seq<Id>
    requires CallbacksBelow(sigs) && ReadsBelow(e, bound) && bound <= |sigs|
    decreases bound, Size(e)
  {
    match e
    case Lit(_) => frame
    case Read(d) => Tracks(sigs, frame, d)
    case Add(l, r) => TracksExpr(sigs, TracksExpr(sigs, frame, l, bound), r, bound)
    case If(c, y, n) =>
      var f := TracksExpr(sigs, frame, c, bound);
      if Evaluate(sigs, c, bound) != 0 then TracksExpr(sigs, f, y, bound) else TracksExpr(sigs, f, n, bound)
  }

  /**
   * Tracking only adds, and what it adds is older than the reader: the
   * frame after reading `s` extends the frame before, with signals up to `s`.
   */
  lemma {:induction false} TracksGrows(sigs: seq<Sig>, frame: seq<Id>, s: Id)
    requires CallbacksBelow(sigs) && s < |sigs|
    ensures frame <= Tracks(sigs, frame, s)
    ensures forall t | t in Tracks(sigs, frame, s) :: t in frame || t <= s
    decreases s + 1, 0
  {
    if !Plain(sigs[s]) {
      assert CallbackOk(sigs, s);
      TracksExprGrows(sigs, frame, sigs[s].kind.callback, s);
    }
  }

  lemma {:induction false} TracksExprGrows(sigs: seq<Sig>, frame: seq<Id>, e: Callback, bound: nat)
    requires CallbacksBelow(sigs) && ReadsBelow(e, bound) && bound <= |sigs|
    ensures frame <= TracksExpr(sigs, frame, e, bound)
    ensures forall t | t in TracksExpr(sigs, frame, e, bound) :: t in frame || t < bound
    decreases bound, Size(e)
  {
    match e
    case Lit(_) =>
    case Read(d) =>
      TracksGrows(sigs, frame, d);
    case Add(l, r) =>
      TracksExprGrows(sigs, frame, l, bound);
      TracksExprGrows(sigs, TracksExpr(sigs, frame, l, bound), r, bound);
    case If(c, y, n) =>
      var f := TracksExpr(sigs, frame, c, bound);
      TracksExprGrows(sigs, frame, c, bound);
      TracksExprGrows(sigs, f, y, bound);
      TracksExprGrows(sigs, f, n, bound);
  }

  /** A read of a cold `Compute` does not register the `Compute` itself. */
  lemma ColdReadUntracked(sigs: seq<Sig>, frame: seq<Id>, s: Id)
    requires CallbacksBelow(sigs) && s < |sigs| && !Plain(sigs[s]) && s !in frame
    ensures s !in Tracks(sigs, frame, s)
  {
    assert CallbackOk(sigs, s);
    TracksExprGrows(sigs, frame, sigs[s].kind.callback, s);
  }

  /** A hot or `State` signal is registered by a read, exactly once. */
  lemma PlainReadTracked(sigs: seq<Sig>, frame: seq<Id>, s: Id)
    requires CallbacksBelow(sigs) && s < |sigs| && Plain(sigs[s])
    ensures s in Tracks(sigs, frame, s)
    ensures Tracks(sigs, Tracks(sigs, frame, s), s) == Tracks(sigs, frame, s)
  {
  }

  /** A `State`, a signal with followers, or a torn-down `Compute` (no dependencies, dirty) is settled. */
  predicate Settled(sig: Sig)
  {
    sig.kind.State? || |sig.followers| > 0 || (sig.deps == map[] && sig.dirty)
  }


  /** The value a run of `c`'s callback computes. */
  ghost function RunValue(sigs: seq<Sig>, c: Id): int
    requires CallbacksBelow(sigs) && c < |sigs| && sigs[c].kind.Compute?
  {
    assert CallbackOk(sigs, c);
    Evaluate(sigs, sigs[c].kind.callback, c)
  }

  /** The tracker frame a run of `c`'s callback fills, starting from an empty one. */
  ghost function RunReads(sigs: seq<Sig>, c: Id): seq<Id>
    requires CallbacksBelow(sigs) && c < |sigs| && sigs[c].kind.Compute?
  {
    assert CallbackOk(sigs, c);
    TracksExpr(sigs, [], sigs[c].kind.callback, c)
  }

  /** The store after `computed(cb)`. */
  function Created(sigs: seq<Sig>, cb: Callback): seq<Sig>
  {
    sigs + [Sig(Compute(cb), 0, [], true, map[])]
  }

  /** The signals above `x` (newer ones), which an operation on `x` that notifies nobody leaves alone. */
  ghost predicate SameAbove(a: seq<Sig>, b: seq<Sig>, x: int)
  {
    |b| == |a| && forall y | 0 <= y < |a| && x < y :: b[y] == a[y]
  }

  class Graph {
    var sigs: seq<Sig>
    /** `trackerStack`: one frame (an insertion-ordered set of ids) per computation under way. */
    var stack: seq<seq<Id>>
    /** The calls made to outside followers, in order. */
    var trace: seq<Call>
    /** The source of insertion stamps and listener serials. */
    var clock: nat

    ghost predicate Valid()
      reads this
    {
      Consistent(sigs, clock) && FramesBelow(stack, |sigs|)
    }

    constructor()
      ensures Valid() && sigs == [] && stack == [] && trace == []
    {
      sigs := [];
      stack := [];
      trace := [];
      clock := 0;
    }

    /** What every operation keeps: consistency, the signals and their kinds, the values of the `State`s, an extended trace and the tracker stack. */
    twostate predicate Kept()
      reads this
    {
      Evolved() && StateValues(sigs) == StateValues(old(sigs))
    }

    /** All of that but the values of the `State`s, which a setter writes. */
    twostate predicate Evolved()
      reads this
    {
      && Valid()
      && SameKinds(old(sigs), sigs)
      && old(trace) <= trace && old(clock) <= clock
      && stack == old(stack)
    }

    /** A teardown: consistency and kinds kept, and nothing but the store changes. */
    twostate predicate Torn()
      reads this
    {
      && Valid()
      && SameKinds(old(sigs), sigs) && StateValues(sigs) == StateValues(old(sigs))
      && trace == old(trace) && clock == old(clock) && stack == old(stack)
    }

    /*
     * Teardown: the stored unfollowers and `#unfollowDependencies`.
     */

    /**
     * The unfollower stored for dependency `d` of `c`, then
     * `dependencies.delete(d)`: `c`'s listener leaves `d`, and a `Compute` `d`
     * left without followers drops its own dependencies. Only `c` and
     * signals up to `d` change.
     */
    method UnfollowListener(d: Id, c: Id)
      requires Valid() && c < |sigs| && d in sigs[c].deps
      modifies this
      decreases d, 1
      ensures Torn()
      ensures sigs[c] == old(sigs)[c].(deps := old(sigs)[c].deps - {d})
      ensures SameAbove(old(sigs)[c := sigs[c]], sigs, d)
    {
      UnsubscribedConsistent(sigs, c, d, clock);
      sigs := Unsubscribed(sigs, c, d);
      if sigs[d].kind.Compute? && |sigs[d].followers| == 0 {
        UnfollowDependencies(d);
      }
    }

    /**
     * `#unfollowDependencies` of a `Compute` left without followers: every
     * stored unfollower is called (so no listener of it is left anywhere, by
     * `NoListenersLeft`), the map is emptied and the `Compute` is dirty. Newer signals do not
     * change, and with no dependencies to drop nothing but the flag does.
     */
    method UnfollowDependencies(c: Id)
      requires Valid() && c < |sigs| && sigs[c].kind.Compute? && |sigs[c].followers| == 0
      modifies this
      decreases c, 0
      ensures Torn()
      ensures sigs[c] == old(sigs)[c].(deps := map[], dirty := true)
      ensures SameAbove(old(sigs), sigs, c)
      ensures old(sigs[c].deps) == map[] ==> sigs == old(sigs)[c := sigs[c]]
    {
      while sigs[c].deps != map[]
        invariant Torn()
        invariant sigs[c] == old(sigs)[c].(deps := sigs[c].deps)
        invariant SameAbove(old(sigs), sigs, c)
        invariant old(sigs[c].deps) == map[] ==> sigs == old(sigs)
        decreases |sigs[c].deps|
      {
        var d :| d in sigs[c].deps;
        DependencyOlder(sigs, clock, c, d);
        UnfollowListener(d, c);
      }
      MarkDirty(c);
    }

    /** `self.#dirty = true` for a `Compute` without followers. */
    method MarkDirty(c: Id)
      requires Valid() && c < |sigs| && sigs[c].kind.Compute? && |sigs[c].followers| == 0
      modifies this
      ensures Torn() && sigs == old(sigs)[c := old(sigs)[c].(dirty := true)]
    {
      FlagsConsistent(sigs, c, sigs[c].value, true, clock);
      sigs := sigs[c := sigs[c].(dirty := true)];
    }

    /*
     * Reading: `val` and the callbacks that run inside a computation.
     */

    /**
     * `s.val`: a `State` or a clean `Compute` is added to the top tracker
     * frame (if any) and yields its stored value; a dirty `Compute`, which
     * has no followers, evaluates its callback uncached, with no frame of
     * its own and no change to the store.
     */
    method Val(s: Id) returns (v: int)
      requires Valid() && s < |sigs|
      modifies this
      decreases s + 1, 0
      ensures Valid() && sigs == old(sigs) && trace == old(trace) && clock == old(clock)
      ensures v == Current(sigs, s)
      ensures stack == WithTop(old(stack), Tracks(sigs, Top(old(stack)), s))
    {
      assert SigOk(sigs, s, clock) && CallbackOk(sigs, s);
      if sigs[s].kind.Compute? && sigs[s].dirty {
        // the branch of `#updateAndTrack` for a followed dirty `Compute` cannot be taken
        assert |sigs[s].followers| == 0;
        v := Eval(sigs[s].kind.callback, s);
      } else {
        stack := Tracked(stack, s);
        v := sigs[s].value;
      }
    }

    /** A callback run: every `val` it meets is a `Val`, in evaluation order. */
    method Eval(e: Callback, bound: nat) returns (v: int)
      requires Valid() && ReadsBelow(e, bound) && bound <= |sigs|
      modifies this
      decreases bound, Size(e)
      ensures Valid() && sigs == old(sigs) && trace == old(trace) && clock == old(clock)
      ensures v == Evaluate(sigs, e, bound)
      ensures stack == WithTop(old(stack), TracksExpr(sigs, Top(old(stack)), e, bound))
    {
      match e
      case Lit(n) =>
        v := n;
      case Read(d) =>
        v := Val(d);
      case Add(l, r) =>
        var a := Eval(l, bound);
        var b := Eval(r, bound);
        v := a + b;
      case If(c, y, n) =>
        var cond := Eval(c, bound);
        if cond != 0 {
          v := Eval(y, bound);
        } else {
          v := Eval(n, bound);
        }
    }

    /*
     * Updating: `#set`, `notify`, `#updateAndTrack` and the dependency
     * listener. These call each other; they run outside any computation
     * (the tracker stack is empty) and terminate by the rank `Heat`.
     */

    /**
     * The rank of the update recursion: a followed signal ranks above every
     * cold one and above every newer followed one. Notification climbs to
     * newer signals, and only cold signals are recomputed on the way down.
     */
    ghost function Heat(s: Id): nat
      reads this
      requires s < |sigs|
    {
      if |sigs[s].followers| > 0 then |sigs| + 1 - s else 0
    }

    /**
     * `notify`: every follower in the set, in insertion order, is called with
     * `this.val`, read again for each; deletions made meanwhile are seen.
     * With only outside followers nothing changes but the trace, which gets
     * one call per follower with the current value.
     */
    method Notify(s: Id)
      requires Valid() && s < |sigs| && stack == []
      modifies this
      decreases Heat(s), s, 1
      ensures Kept()
      ensures AllExternal(old(sigs)[s].followers) ==>
        sigs == old(sigs) && trace == old(trace) + CallsOf(old(sigs)[s].followers, Current(old(sigs), s))
    {
      ghost var hot := |sigs[s].followers| > 0;
      ghost var outside := AllExternal(sigs[s].followers);
      ghost var fs := sigs[s].followers;
      assert SigOk(sigs, s, clock);
      assert Ordered(fs) && StampsBelow(fs, clock);
      var limit := clock;
      var cursor: int := -1;
      ghost var i := 0;
      while true
        invariant Kept() && s < |sigs|
        invariant -1 <= cursor < limit
        invariant !hot ==> sigs == old(sigs)
        invariant outside ==> sigs == old(sigs) && i <= |fs| && cursor == (if i == 0 then -1 else fs[i - 1].stamp)
        invariant outside ==> trace == old(trace) + CallsOf(fs[..i], Current(old(sigs), s))
        decreases limit - cursor
      {
        var next := NextAfter(sigs[s].followers, cursor);
        if outside {
          if i < |fs| {
            NextAfterVisits(fs, i, cursor);
          } else {
            NextAfterEnds(fs, cursor);
          }
        }
        if next.None? || next.value.stamp >= limit {
          break;
        }
        cursor := next.value.stamp;
        EntryMember(sigs[s].followers, next.value);
        Visit(s, next.value.follower);
        if outside {
          CallsOfNext(old(trace), fs, i, Current(old(sigs), s));
          i := i + 1;
        }
      }
      if outside {
        assert fs[..i] == fs;
      }
    }

    /** One step of `notify`: `follower(this.val)`, for a follower in the set. */
    method Visit(s: Id, f: Follower)
      requires Valid() && s < |sigs| && f in Members(sigs[s].followers) && stack == []
      modifies this
      decreases Heat(s), s, 0
      ensures Kept()
      ensures f.External? ==> sigs == old(sigs) && trace == old(trace) + [Call(f.k, Current(old(sigs), s))]
    {
      assert SigOk(sigs, s, clock);
      var v := Val(s);
      match f {
        case External(k) =>
          trace := trace + [Call(k, v)];
        case Listener(e, _) =>
          assert ListenerOk(sigs, s, f);
          ListenerFire(e);
      }
    }

    /**
     * `#set` of a signal whose `val` is its stored value: the value is always
     * stored, and `notify` runs only when it differs from the old one.
     */
    method SetValue(s: Id, v: int)
      requires Valid() && s < |sigs| && Plain(sigs[s]) && stack == []
      modifies this
      decreases Heat(s), s, 2
      ensures Evolved() && StateValues(sigs) == StateValues(old(sigs)[s := old(sigs)[s].(value := v)])
      ensures old(sigs)[s].kind.State? ==> sigs[s].value == v
      ensures v == old(sigs)[s].value ==> sigs == old(sigs) && trace == old(trace) && clock == old(clock)
      ensures AllExternal(old(sigs)[s].followers) ==>
        && sigs == old(sigs)[s := old(sigs)[s].(value := v)]
        && trace == old(trace) + (if old(sigs)[s].value != v then CallsOf(old(sigs)[s].followers, v) else [])
    {
      var changed := sigs[s].value != v;
      FlagsConsistent(sigs, s, v, sigs[s].dirty, clock);
      sigs := sigs[s := sigs[s].(value := v)];
      if changed {
        ghost var stored := sigs;
        Notify(s);
        if stored[s].kind.State? {
          StateValueKept(stored, sigs, s);
        }
      }
    }

    /** The result of `#updateAndTrack` of `c` when `c` notifies nobody inside the graph. */
    twostate predicate Recomputed(c: Id)
      reads this
      requires old(Valid()) && c < |old(sigs)| && old(sigs)[c].kind.Compute? && |sigs| == |old(sigs)|
    {
      var v := RunValue(old(sigs), c);
      && sigs[c] == old(sigs)[c].(value := v, dirty := false, deps := sigs[c].deps)
      && sigs[c].deps.Keys == Elements(RunReads(old(sigs), c))
      && SameAbove(old(sigs), sigs, c)
      && trace == old(trace) + (if v != old(sigs)[c].value then CallsOf(old(sigs)[c].followers, v) else [])
    }

    /**
     * `#updateAndTrack`: the callback runs in a fresh tracker frame, which is
     * popped; the `Compute` is marked clean and its value set (notifying its
     * followers); dependencies not read this time are unfollowed and new
     * ones followed. When its followers are all outside ones, the new value
     * is the callback's, the dependencies are exactly the signals the run
     * read, newer signals are untouched and the followers were called once
     * each if the value changed.
     */
    method UpdateAndTrack(c: Id)
      requires Valid() && c < |sigs| && sigs[c].kind.Compute? && stack == []
      modifies this
      decreases Heat(c), c, 4
      ensures Kept()
      ensures AllExternal(old(sigs)[c].followers) ==> Recomputed(c)
    {
      var v, tracked := RunTracked(c);
      MarkClean(c);
      Reconcile(c, v, tracked);
    }

    /**
     * The callback of `c` run in a fresh tracker frame, which is popped, and
     * `trackedSet.delete(self)`: the value and the signals read, none of
     * them `c` itself.
     */
    method RunTracked(c: Id) returns (v: int, tracked: seq<Id>)
      requires Valid() && c < |sigs| && sigs[c].kind.Compute? && stack == []
      modifies this
      ensures Valid() && sigs == old(sigs) && trace == old(trace) && clock == old(clock) && stack == old(stack)
      ensures v == RunValue(sigs, c) && tracked == RunReads(sigs, c)
      ensures forall t | t in tracked :: t < c
    {
      assert SigOk(sigs, c, clock) && CallbackOk(sigs, c);
      var cb := sigs[c].kind.callback;
      stack := stack + [[]];
      v := Eval(cb, c);
      tracked := Top(stack);
      stack := stack[..|stack| - 1];
      TracksExprGrows(sigs, [], cb, c);
      WithoutElements(tracked, c);
      tracked := Without(tracked, c);
    }

    /** `self.#dirty = false`, before the new value is set. */
    method MarkClean(c: Id)
      requires Valid() && c < |sigs| && sigs[c].kind.Compute?
      modifies this
      ensures Kept() && sigs == old(sigs)[c := old(sigs)[c].(dirty := false)]
      ensures trace == old(trace) && clock == old(clock)
    {
      FlagsConsistent(sigs, c, sigs[c].value, false, clock);
      sigs := sigs[c := sigs[c].(dirty := false)];
    }

    /**
     * The second half of `#updateAndTrack`, once the callback has run and the
     * `Compute` is clean: `#set(value)`, then the dependency map is brought
     * in line with the signals tracked.
     */
    method Reconcile(c: Id, v: int, tracked: seq<Id>)
      requires Valid() && c < |sigs| && sigs[c].kind.Compute? && !sigs[c].dirty && stack == []
      requires forall t | t in tracked :: t < c
      modifies this
      decreases Heat(c), c, 3
      ensures Kept()
      ensures AllExternal(old(sigs)[c].followers) ==>
        && sigs[c] == old(sigs)[c].(value := v, deps := sigs[c].deps)
        && sigs[c].deps.Keys == Elements(tracked)
        && SameAbove(old(sigs), sigs, c)
        && trace == old(trace) + (if v != old(sigs)[c].value then CallsOf(old(sigs)[c].followers, v) else [])
    {
      SetValue(c, v);
      DropStale(c, tracked);
      FollowNew(c, tracked);
    }

    /** The dependency listener: recompute while followed, otherwise drop every dependency. */
    method ListenerFire(e: Id)
      requires Valid() && e < |sigs| && sigs[e].kind.Compute? && stack == []
      modifies this
      decreases Heat(e), e, 5
      ensures Kept()
      ensures |old(sigs)[e].followers| == 0 ==> sigs[e].deps == map[] && sigs[e].dirty
      ensures |old(sigs)[e].followers| > 0 && AllExternal(old(sigs)[e].followers) ==> Recomputed(e)
    {
      if |sigs[e].followers| > 0 {
        UpdateAndTrack(e);
      } else {
        UnfollowDependencies(e);
      }
    }

    /** The first loop of `#updateAndTrack`: each dependency not in `tracked` is unfollowed and deleted. */
    method DropStale(c: Id, tracked: seq<Id>)
      requires Valid() && c < |sigs|
      modifies this
      ensures Torn()
      ensures sigs[c] == old(sigs)[c].(deps := sigs[c].deps)
      ensures sigs[c].deps.Keys == old(sigs)[c].deps.Keys * Elements(tracked)
      ensures SameAbove(old(sigs), sigs, c)
    {
      var stale := sigs[c].deps.Keys - Elements(tracked);
      while stale != {}
        invariant Torn()
        invariant sigs[c] == old(sigs)[c].(deps := sigs[c].deps)
        invariant stale <= sigs[c].deps.Keys && stale !! Elements(tracked)
        invariant sigs[c].deps.Keys == old(sigs)[c].deps.Keys * Elements(tracked) + stale
        invariant SameAbove(old(sigs), sigs, c)
        decreases stale
      {
        var d :| d in stale;
        DependencyOlder(sigs, clock, c, d);
        UnfollowListener(d, c);
        stale := stale - {d};
      }
    }

    /** The second loop of `#updateAndTrack`: each tracked signal not yet a dependency is followed. */
    method FollowNew(c: Id, tracked: seq<Id>)
      requires Valid() && c < |sigs| && sigs[c].kind.Compute? && stack == []
      requires forall t | t in tracked :: t < c
      modifies this
      decreases Heat(c), c, 2
      ensures Kept() && trace == old(trace)
      ensures sigs[c] == old(sigs)[c].(deps := sigs[c].deps)
      ensures sigs[c].deps.Keys == old(sigs)[c].deps.Keys + Elements(tracked)
      ensures SameAbove(old(sigs), sigs, c)
    {
      var i := 0;
      while i < |tracked|
        invariant 0 <= i <= |tracked|
        invariant Kept() && trace == old(trace)
        invariant sigs[c] == old(sigs)[c].(deps := sigs[c].deps)
        invariant sigs[c].deps.Keys == old(sigs)[c].deps.Keys + Elements(tracked[..i])
        invariant SameAbove(old(sigs), sigs, c)
      {
        var d := tracked[i];
        assert d in tracked;
        if d !in sigs[c].deps {
          Subscribe(c, d);
        }
        assert tracked[..i + 1] == tracked[..i] + [d];
        i := i + 1;
      }
      assert tracked[..i] == tracked;
    }

    /**
     * `dependency.follow(listener)` and `dependencies.set`: a dirty `Compute`
     * dependency (cold, since dirty) is brought up to date first; then the
     * new listener joins its set, and the dependency is recorded with it.
     */
    method Subscribe(c: Id, d: Id)
      requires Valid() && d < c < |sigs| && sigs[c].kind.Compute? && d !in sigs[c].deps && stack == []
      modifies this
      decreases Heat(c), c, 1
      ensures Kept() && trace == old(trace)
      ensures d in sigs[c].deps && sigs[c] == old(sigs)[c].(deps := old(sigs)[c].deps[d := sigs[c].deps[d]])
      ensures SameAbove(old(sigs)[c := sigs[c]], sigs, d)
    {
      if sigs[d].kind.Compute? && sigs[d].dirty {
        assert SigOk(sigs, d, clock);
        UpdateAndTrack(d);
      }
      SubscribedConsistent(sigs, c, d, clock);
      sigs := Subscribed(sigs, c, d, clock);
      clock := clock + 1;
    }

    /*
     * The operations outside code calls: `ref`, `awaited`, `computed`, the
     * `State` setter, `follow` and its unfollower, and `effect`. Reading
     * `val` from outside is `Val` with an empty tracker stack.
     */

    /** `ref(value)`: a new `State` holding `value`. */
    method Ref(v: int) returns (s: Id)
      requires Valid()
      modifies this
      ensures Valid() && s == |old(sigs)|
      ensures sigs == old(sigs) + [Sig(State, v, [], false, map[])]
      ensures stack == old(stack) && trace == old(trace) && clock == old(clock)
    {
      AppendConsistent(sigs, State, v, clock);
      s := |sigs|;
      sigs := sigs + [Sig(State, v, [], false, map[])];
    }

    /** `awaited(promise, until)`: a new `State` holding `until` until the promise settles. */
    method Awaited(until: int) returns (s: Id)
      requires Valid()
      modifies this
      ensures Valid() && s == |old(sigs)|
      ensures sigs == old(sigs) + [Sig(State, until, [], false, map[])]
      ensures stack == old(stack) && trace == old(trace) && clock == old(clock)
    {
      s := Ref(until);
    }

    /** `computed(callback)`: a new `Compute`, dirty, with no followers and no dependencies, whose callback runs later. */
    method Computed(cb: Callback) returns (c: Id)
      requires Valid() && ReadsBelow(cb, |sigs|)
      modifies this
      ensures Valid() && c == |old(sigs)|
      ensures sigs == Created(old(sigs), cb)
      ensures stack == old(stack) && trace == old(trace) && clock == old(clock)
    {
      AppendConsistent(sigs, Compute(cb), 0, clock);
      c := |sigs|;
      sigs := Created(sigs, cb);
    }

    /** The `State` setter `s.val = v`, which is `#set`. */
    method SetState(s: Id, v: int)
      requires Valid() && s < |sigs| && sigs[s].kind.State? && stack == []
      modifies this
      ensures Evolved() && StateValues(sigs) == StateValues(old(sigs)[s := old(sigs)[s].(value := v)])
      ensures sigs[s].value == v
      ensures v == old(sigs)[s].value ==> sigs == old(sigs) && trace == old(trace) && clock == old(clock)
      ensures AllExternal(old(sigs)[s].followers) ==>
        && sigs == old(sigs)[s := old(sigs)[s].(value := v)]
        && trace == old(trace) + (if old(sigs)[s].value != v then CallsOf(old(sigs)[s].followers, v) else [])
    {
      SetValue(s, v);
    }

    /**
     * `s.follow(f, immediate)` for an outside follower `f` (numbered `k`): a
     * dirty `Compute` is computed first; with `immediate` the follower is
     * called once with the value; then it joins the set (once).
     */
    method Follow(s: Id, k: nat, immediate: bool)
      requires Valid() && s < |sigs| && stack == []
      modifies this
      ensures Kept()
      ensures clock > 0 && sigs[s].followers == Insert(old(sigs)[s].followers, External(k), clock - 1)
      ensures sigs[s].value == Current(old(sigs), s) && !(sigs[s].kind.Compute? && sigs[s].dirty)
      ensures old(sigs)[s].kind.Compute? && old(sigs)[s].dirty ==> sigs[s].deps.Keys == Elements(RunReads(old(sigs), s))
      ensures SameAbove(old(sigs), sigs, s)
      ensures trace == old(trace) + (if immediate then [Call(k, Current(old(sigs), s))] else [])
    {
      if sigs[s].kind.Compute? && sigs[s].dirty {
        ColdUnfollowed(sigs, clock, s);
        UpdateAndTrack(s);
      }
      if immediate {
        var v := Val(s);
        trace := trace + [Call(k, v)];
      }
      Join(s, k);
    }

    /** `this.#followers.add(follower)`: the follower joins the set with the next insertion stamp. */
    method Join(s: Id, k: nat)
      requires Valid() && s < |sigs| && !(sigs[s].kind.Compute? && sigs[s].dirty)
      modifies this
      ensures Kept() && sigs == Followed(old(sigs), s, k, old(clock)) && clock == old(clock) + 1 && trace == old(trace)
    {
      FollowedConsistent(sigs, s, k, clock);
      sigs := Followed(sigs, s, k, clock);
      clock := clock + 1;
    }

    /**
     * The unfollower `follow` returns: `f` leaves the set, and a `Compute`
     * left without followers drops its dependencies. Afterwards the signal
     * is settled, so calling it again changes nothing.
     */
    method Unfollow(s: Id, k: nat)
      requires Valid() && s < |sigs|
      modifies this
      ensures Torn()
      ensures forall f :: f in Members(sigs[s].followers) <==> f in Members(old(sigs)[s].followers) && f != External(k)
      ensures Settled(sigs[s])
      ensures SameAbove(old(sigs), sigs, s)
      ensures old(External(k) !in Members(sigs[s].followers) && Settled(sigs[s])) ==> sigs == old(sigs)
    {
      DeleteMembers(sigs[s].followers, External(k));
      if External(k) !in Members(sigs[s].followers) {
        DeleteAbsent(sigs[s].followers, External(k));
      }
      UnfollowedConsistent(sigs, s, k, clock);
      sigs := Unfollowed(sigs, s, k);
      if sigs[s].kind.Compute? && |sigs[s].followers| == 0 {
        UnfollowDependencies(s);
      }
    }

    /**
     * `effect(callback)`: a `Compute` followed (not immediately) by a
     * follower that does nothing, so the callback runs once at creation and
     * its reads become the dependencies.
     */
    method Effect(cb: Callback, k: nat) returns (c: Id)
      requires Valid() && ReadsBelow(cb, |sigs|) && stack == []
      modifies this
      ensures Valid() && c == |old(sigs)| && |sigs| == c + 1 && stack == old(stack) && trace == old(trace)
      ensures CallbacksBelow(Created(old(sigs), cb))
      ensures sigs[c].kind == Compute(cb) && !sigs[c].dirty
      ensures sigs[c].value == RunValue(Created(old(sigs), cb), c)
      ensures sigs[c].deps.Keys == Elements(RunReads(Created(old(sigs), cb), c))
      ensures Members(sigs[c].followers) == [External(k)]
    {
      c := Computed(cb);
      Follow(c, k, false);
      InsertMembers([], External(k), clock - 1);
    }
  }
}
