/**
 * The store shared by the two signal graphs (`packages/purified-js` and
 * `packages/cherry-js`): signal records addressed by id, the
 * insertion-ordered follower sets (JavaScript `Set`s of functions), and the
 * callback language a `Compute` signal runs.
 *
 * A follower is either an outside function, known only by a number (its
 * calls are recorded in a trace), or the dependency listener a `Compute`
 * installs on a signal it read; a listener closure is new each time it is
 * created, so it carries a serial number besides its owner.
 */
module SignalStore {
  import opened Text

  type Id = nat

  /**
   * A compute callback: a small expression language whose `Read` is a read
   * of another signal's `val`, so the signals it reads depend on the values
   * it meets (`If` reads only the branch it takes). Numbers stand for the
   * values; a condition holds when it is not zero.
   */
  datatype Callback =
    | Lit(n: int)
    | Read(id: Id)
    | Add(left: Callback, right: Callback)
    | If(cond: Callback, yes: Callback, no: Callback)

  /** Every signal the callback may read has an id below `bound`. */
  predicate ReadsBelow(e: Callback, bound: nat)
  {
    match e
    case Lit(_) => true
    case Read(id) => id < bound
    case Add(l, r) => ReadsBelow(l, bound) && ReadsBelow(r, bound)
    case If(c, y, n) => ReadsBelow(c, bound) && ReadsBelow(y, bound) && ReadsBelow(n, bound)
  }

  lemma {:induction false} ReadsBelowGrows(e: Callback, bound: nat, bound': nat)
    requires ReadsBelow(e, bound) && bound <= bound'
    ensures ReadsBelow(e, bound')
  {
    match e
    case Lit(_) =>
    case Read(_) =>
    case Add(l, r) =>
      ReadsBelowGrows(l, bound, bound');
      ReadsBelowGrows(r, bound, bound');
    case If(c, y, n) =>
      ReadsBelowGrows(c, bound, bound');
      ReadsBelowGrows(y, bound, bound');
      ReadsBelowGrows(n, bound, bound');
  }

  function Size(e: Callback): nat
  {
    match e
    case Lit(_) => 1
    case Read(_) => 1
    case Add(l, r) => Size(l) + Size(r) + 1
    case If(c, y, n) => Size(c) + Size(y) + Size(n) + 1
  }

  datatype Follower = External(k: nat) | Listener(owner: Id, serial: nat)

  /** A member of a follower set, stamped with the time it was inserted. */
  datatype Entry = Entry(follower: Follower, stamp: nat)

  /** One call of an outside follower, with the value it was given. */
  datatype Call = Call(follower: nat, value: int)

  datatype Kind = State | Compute(callback: Callback)

  /**
   * One signal: its value and followers, and for a `Compute` the dirty flag
   * and the dependency map from each dependency to the serial of the
   * listener installed on it (which identifies the stored unfollower).
   */
  datatype Sig = Sig(kind: Kind, value: int, followers: seq<Entry>, dirty: bool, deps: map<Id, nat>)

  /** A signal whose read only tracks and returns the stored value: a `State`, or a `Compute` that is not dirty. */
  predicate Plain(sig: Sig)
  {
    sig.kind.State? || !sig.dirty
  }

  /** The kinds of the signals, which no operation changes. */
  ghost predicate SameKinds(a: seq<Sig>, b: seq<Sig>)
  {
    |b| == |a| && forall x {:trigger b[x].kind} | 0 <= x < |a| :: b[x].kind == a[x].kind
  }

  /**
   * The values of the `State`s, position by position (0 stands for a
   * `Compute`): only the setter of a `State` changes them.
   */
  ghost function StateValues(sigs: seq<Sig>): seq<int>
  {
    seq(|sigs|, x requires 0 <= x < |sigs| => if sigs[x].kind.State? then sigs[x].value else 0)
  }

  /** Writing the value of a `Compute` leaves the values of the `State`s as they were. */
  lemma ComputeWriteKeepsStates(sigs: seq<Sig>, c: Id, v: int)
    requires c < |sigs| && sigs[c].kind.Compute?
    ensures StateValues(sigs[c := sigs[c].(value := v)]) == StateValues(sigs)
  {
    assert forall x | 0 <= x < |sigs| :: StateValues(sigs[c := sigs[c].(value := v)])[x] == StateValues(sigs)[x];
  }

  /** A `State` whose position keeps its entry in `StateValues` keeps its value. */
  lemma StateValueKept(a: seq<Sig>, b: seq<Sig>, s: Id)
    requires s < |a| && a[s].kind.State? && SameKinds(a, b) && StateValues(b) == StateValues(a)
    ensures b[s].value == a[s].value
  {
    assert StateValues(b)[s] == StateValues(a)[s];
  }

  function Members(fs: seq<Entry>): seq<Follower>
  {
    seq(|fs|, i requires 0 <= i < |fs| => fs[i].follower)
  }

  lemma EntryMember(fs: seq<Entry>, e: Entry)
    requires e in fs
    ensures e.follower in Members(fs)
  {
    var i :| 0 <= i < |fs| && fs[i] == e;
    assert Members(fs)[i] == e.follower;
  }

  /** A JavaScript `Set`: no follower twice, and iteration (insertion) order is stamp order. */
  predicate Ordered(fs: seq<Entry>)
  {
    forall i, j :: 0 <= i < j < |fs| ==> fs[i].stamp < fs[j].stamp && fs[i].follower != fs[j].follower
  }

  predicate StampsBelow(fs: seq<Entry>, clock: nat)
  {
    forall i :: 0 <= i < |fs| ==> fs[i].stamp < clock
  }

  /** `set.add(f)`: a follower already present keeps its place; a new one goes last. */
  function Insert(fs: seq<Entry>, f: Follower, stamp: nat): seq<Entry>
  {
    if f in Members(fs) then fs else fs + [Entry(f, stamp)]
  }

  /** `set.delete(f)`. */
  function Delete(fs: seq<Entry>, f: Follower): seq<Entry>
  {
    if |fs| == 0 then []
    else (if fs[0].follower == f then [] else [fs[0]]) + Delete(fs[1..], f)
  }

  lemma InsertMembers(fs: seq<Entry>, f: Follower, stamp: nat)
    ensures Members(Insert(fs, f, stamp)) == if f in Members(fs) then Members(fs) else Members(fs) + [f]
  {
    if f !in Members(fs) {
      assert Members(fs + [Entry(f, stamp)]) == Members(fs) + [f];
    }
  }

  /** Adding a follower with a fresh stamp keeps the set a set, in insertion order. */
  lemma InsertOrdered(fs: seq<Entry>, f: Follower, clock: nat)
    requires Ordered(fs) && StampsBelow(fs, clock)
    ensures Ordered(Insert(fs, f, clock)) && StampsBelow(Insert(fs, f, clock), clock + 1)
    ensures f in Members(Insert(fs, f, clock))
  {
    InsertMembers(fs, f, clock);
    if f !in Members(fs) {
      var r := fs + [Entry(f, clock)];
      forall i, j | 0 <= i < j < |r|
        ensures r[i].stamp < r[j].stamp && r[i].follower != r[j].follower
      {
        if j == |fs| {
          assert Members(fs)[i] == fs[i].follower;
        }
      }
    }
  }

  /** `delete` removes exactly the given follower and keeps the others in order. */
  lemma {:induction false} DeleteMembers(fs: seq<Entry>, f: Follower)
    ensures forall g :: g in Members(Delete(fs, f)) <==> g in Members(fs) && g != f
    ensures forall e :: e in Delete(fs, f) ==> e in fs
  {
    if |fs| > 0 {
      DeleteMembers(fs[1..], f);
      var head := if fs[0].follower == f then [] else [fs[0]];
      assert Delete(fs, f) == head + Delete(fs[1..], f);
      assert Members(Delete(fs, f)) == Members(head) + Members(Delete(fs[1..], f));
      assert Members(fs) == [fs[0].follower] + Members(fs[1..]);
      forall g ensures g in Members(Delete(fs, f)) <==> g in Members(fs) && g != f
      {
        if fs[0].follower == f {
          assert Members(head) == [];
        } else {
          assert Members(head) == [fs[0].follower];
        }
      }
      forall e | e in Delete(fs, f) ensures e in fs
      {
        if e !in head {
          assert e in fs[1..];
        }
      }
    }
  }

  lemma {:induction false} DeleteOrdered(fs: seq<Entry>, f: Follower, clock: nat)
    requires Ordered(fs) && StampsBelow(fs, clock)
    ensures Ordered(Delete(fs, f)) && StampsBelow(Delete(fs, f), clock)
  {
    if |fs| > 0 {
      DeleteOrdered(fs[1..], f, clock);
      DeleteMembers(fs[1..], f);
      var rest := Delete(fs[1..], f);
      if fs[0].follower != f {
        var r := [fs[0]] + rest;
        forall i, j | 0 <= i < j < |r|
          ensures r[i].stamp < r[j].stamp && r[i].follower != r[j].follower
        {
          if i == 0 {
            assert r[j] == rest[j - 1] && rest[j - 1] in fs[1..];
          } else {
            assert r[i] == rest[i - 1] && r[j] == rest[j - 1];
          }
        }
        forall i | 0 <= i < |r| ensures r[i].stamp < clock
        {
          if i > 0 {
            assert r[i] == rest[i - 1] && rest[i - 1] in fs[1..];
          }
        }
      }
    }
  }

  /** Deleting a follower twice is deleting it once. */
  lemma {:induction false} DeleteIdempotent(fs: seq<Entry>, f: Follower)
    ensures Delete(Delete(fs, f), f) == Delete(fs, f)
  {
    if |fs| > 0 {
      DeleteIdempotent(fs[1..], f);
      if fs[0].follower != f {
        var r := [fs[0]] + Delete(fs[1..], f);
        assert r[0] == fs[0] && r[1..] == Delete(fs[1..], f);
        assert Delete(r, f) == [fs[0]] + Delete(Delete(fs[1..], f), f);
      } else {
        assert Delete(fs, f) == Delete(fs[1..], f);
      }
    }
  }

  /** Deleting a follower that is absent changes nothing. */
  lemma {:induction false} DeleteAbsent(fs: seq<Entry>, f: Follower)
    requires f !in Members(fs)
    ensures Delete(fs, f) == fs
  {
    if |fs| > 0 {
      assert Members(fs) == [fs[0].follower] + Members(fs[1..]);
      DeleteAbsent(fs[1..], f);
      assert [fs[0]] + fs[1..] == fs;
    }
  }

  /**
   * The step of a `for ... of` loop over a live `Set`: the first member
   * inserted after the one visited last (whose stamp is `cursor`). Members
   * deleted meanwhile are skipped and members added meanwhile are reached.
   */
  function NextAfter(fs: seq<Entry>, cursor: int): (r: Option<Entry>)
    ensures r.Some? ==> r.value in fs && r.value.stamp > cursor
  {
    if |fs| == 0 then None
    else if fs[0].stamp > cursor then Some(fs[0])
    else NextAfter(fs[1..], cursor)
  }

  /** On a set that does not change, the iteration visits the members one by one in insertion order. */
  lemma {:induction false} NextAfterVisits(fs: seq<Entry>, i: nat, cursor: int)
    requires Ordered(fs) && i < |fs|
    requires (i == 0 || fs[i - 1].stamp <= cursor) && cursor < fs[i].stamp
    ensures NextAfter(fs, cursor) == Some(fs[i])
  {
    if fs[0].stamp <= cursor {
      NextAfterVisits(fs[1..], i - 1, cursor);
    }
  }

  /** ... and stops after the last member. */
  lemma {:induction false} NextAfterEnds(fs: seq<Entry>, cursor: int)
    requires Ordered(fs) && (|fs| == 0 || fs[|fs| - 1].stamp <= cursor)
    ensures NextAfter(fs, cursor) == None
  {
    if |fs| > 0 {
      NextAfterEnds(fs[1..], cursor);
    }
  }

  predicate AllExternal(fs: seq<Entry>)
  {
    forall i :: 0 <= i < |fs| ==> fs[i].follower.External?
  }

  /** The calls of the outside followers in `fs`, in order, each given `v`. */
  function CallsOf(fs: seq<Entry>, v: int): seq<Call>
  {
    if |fs| == 0 then []
    else CallsOf(fs[..|fs| - 1], v)
         + (match fs[|fs| - 1].follower
            case External(k) => [Call(k, v)]
            case Listener(_, _) => [])
  }

  /** Notifying one more outside follower adds its call at the end of the calls made so far (after the earlier trace `t`). */
  lemma CallsOfNext(t: seq<Call>, fs: seq<Entry>, i: nat, v: int)
    requires i < |fs| && fs[i].follower.External?
    ensures t + CallsOf(fs[..i + 1], v) == t + CallsOf(fs[..i], v) + [Call(fs[i].follower.k, v)]
  {
    assert fs[..i + 1][..i] == fs[..i];
  }

  /** With only outside followers, a notification is one call per follower, in insertion order, all with the same value. */
  lemma {:induction false} CallsOfExternal(fs: seq<Entry>, v: int)
    requires AllExternal(fs)
    ensures |CallsOf(fs, v)| == |fs|
    ensures forall i | 0 <= i < |fs| :: CallsOf(fs, v)[i] == Call(fs[i].follower.k, v)
  {
    if |fs| > 0 {
      var init := fs[..|fs| - 1];
      assert AllExternal(init) by {
        forall i | 0 <= i < |init| ensures init[i].follower.External?
        {
          assert init[i] == fs[i];
        }
      }
      CallsOfExternal(init, v);
      assert fs[|fs| - 1].follower.External?;
    }
  }

  /** A tracker frame (a `Set` of signals): `add` keeps the first insertion. */
  function AddOnce(frame: seq<Id>, s: Id): seq<Id>
  {
    if s in frame then frame else frame + [s]
  }

  function Top(stack: seq<seq<Id>>): seq<Id>
  {
    if |stack| == 0 then [] else stack[|stack| - 1]
  }

  function WithTop(stack: seq<seq<Id>>, frame: seq<Id>): seq<seq<Id>>
  {
    if |stack| == 0 then stack else stack[|stack| - 1 := frame]
  }

  /** `trackerStack.at(-1)?.add(s)`. */
  function Tracked(stack: seq<seq<Id>>, s: Id): (r: seq<seq<Id>>)
  {
    WithTop(stack, AddOnce(Top(stack), s))
  }

  /** Set semantics of tracking: the signal is recorded, nothing else is, and a second read records nothing new. */
  lemma TrackedOnce(stack: seq<seq<Id>>, s: Id)
    ensures |Tracked(stack, s)| == |stack|
    ensures |stack| > 0 ==> s in Top(Tracked(stack, s))
    ensures forall t :: t in Top(Tracked(stack, s)) <==> t in Top(stack) || (|stack| > 0 && t == s)
    ensures Tracked(Tracked(stack, s), s) == Tracked(stack, s)
  {
  }

  function Elements(frame: seq<Id>): set<Id>
  {
    set x | x in frame
  }

  /** `trackedSet.delete(s)`. */
  function Without(frame: seq<Id>, s: Id): seq<Id>
  {
    if |frame| == 0 then []
    else (if frame[0] == s then [] else [frame[0]]) + Without(frame[1..], s)
  }

  lemma {:induction false} WithoutElements(frame: seq<Id>, s: Id)
    ensures Elements(Without(frame, s)) == Elements(frame) - {s}
    ensures s !in frame ==> Without(frame, s) == frame
  {
    if |frame| > 0 {
      WithoutElements(frame[1..], s);
      assert frame == [frame[0]] + frame[1..];
      assert Elements(frame) == {frame[0]} + Elements(frame[1..]);
      var head := if frame[0] == s then [] else [frame[0]];
      assert Elements(Without(frame, s)) == Elements(head) + Elements(Without(frame[1..], s));
    }
  }

  predicate FramesBelow(stack: seq<seq<Id>>, n: nat)
  {
    forall i, j :: 0 <= i < |stack| && 0 <= j < |stack[i]| ==> stack[i][j] < n
  }

  /*
   * Consistency of the hot/cold graph's store, kept by all its operations.
   */

  /**
   * One signal is in order: its followers form a set in insertion order;
   * every listener among them belongs to a newer `Compute` that lists this
   * signal as a dependency under the listener's serial; every dependency is
   * older and holds the listener; and a dirty `Compute` has no followers.
   */
  ghost predicate SigOk(sigs: seq<Sig>, x: Id, clock: nat)
    requires x < |sigs|
  {
    var sig := sigs[x];
    && Ordered(sig.followers) && StampsBelow(sig.followers, clock)
    && (forall f | f in Members(sig.followers) && f.Listener? :: ListenerOk(sigs, x, f))
    && (forall d | d in sig.deps :: d < x && Listener(x, sig.deps[d]) in Members(sigs[d].followers))
    && ColdOk(sigs, x)
  }

  ghost predicate ListenerOk(sigs: seq<Sig>, x: Id, f: Follower)
    requires f.Listener?
  {
    x < f.owner < |sigs| && sigs[f.owner].kind.Compute?
    && x in sigs[f.owner].deps && sigs[f.owner].deps[x] == f.serial
  }

  /** A `Compute` that is dirty has no followers. */
  ghost predicate ColdOk(sigs: seq<Sig>, x: Id)
    requires x < |sigs|
  {
    sigs[x].kind.Compute? && sigs[x].dirty ==> |sigs[x].followers| == 0
  }

  /** A callback reads only signals created before its own. */
  ghost predicate CallbackOk(sigs: seq<Sig>, x: Id)
    requires x < |sigs|
  {
    sigs[x].kind.Compute? ==> ReadsBelow(sigs[x].kind.callback, x)
  }

  ghost predicate CallbacksBelow(sigs: seq<Sig>)
  {
    forall x | 0 <= x < |sigs| :: CallbackOk(sigs, x)
  }

  ghost predicate Consistent(sigs: seq<Sig>, clock: nat)
  {
    CallbacksBelow(sigs) && forall x | 0 <= x < |sigs| :: SigOk(sigs, x, clock)
  }

  /*
   * The primitive updates of the store.
   */

  /** `dependency.follow(listener)` followed by `dependencies.set(dependency, unfollow)`. */
  function Subscribed(sigs: seq<Sig>, c: Id, d: Id, serial: nat): seq<Sig>
    requires c < |sigs| && d < |sigs| && c != d
  {
    var sigs1 := sigs[d := sigs[d].(followers := Insert(sigs[d].followers, Listener(c, serial), serial))];
    sigs1[c := sigs1[c].(deps := sigs1[c].deps[d := serial])]
  }

  /** The stored unfollower of `d` called, then `dependencies.delete(d)`. */
  function Unsubscribed(sigs: seq<Sig>, c: Id, d: Id): seq<Sig>
    requires c < |sigs| && d < |sigs| && d in sigs[c].deps
  {
    var sigs1 := sigs[d := sigs[d].(followers := Delete(sigs[d].followers, Listener(c, sigs[c].deps[d])))];
    sigs1[c := sigs1[c].(deps := sigs1[c].deps - {d})]
  }

  function Followed(sigs: seq<Sig>, s: Id, k: nat, stamp: nat): seq<Sig>
    requires s < |sigs|
  {
    sigs[s := sigs[s].(followers := Insert(sigs[s].followers, External(k), stamp))]
  }

  function Unfollowed(sigs: seq<Sig>, s: Id, k: nat): seq<Sig>
    requires s < |sigs|
  {
    sigs[s := sigs[s].(followers := Delete(sigs[s].followers, External(k)))]
  }

  /**
   * A new listener of `c` on an older `d` it did not depend on: the listener
   * is new to `d`'s set (goes last), and `d` must not be a dirty `Compute`.
   */
  lemma SubscribedConsistent(sigs: seq<Sig>, c: Id, d: Id, clock: nat)
    requires Consistent(sigs, clock)
    requires d < c < |sigs| && sigs[c].kind.Compute? && d !in sigs[c].deps
    requires !(sigs[d].kind.Compute? && sigs[d].dirty)
    ensures Consistent(Subscribed(sigs, c, d, clock), clock + 1)
    ensures Subscribed(sigs, c, d, clock)[d].followers == sigs[d].followers + [Entry(Listener(c, clock), clock)]
  {
    assert SigOk(sigs, d, clock);
    var l := Listener(c, clock);
    InsertOrdered(sigs[d].followers, l, clock);
    InsertMembers(sigs[d].followers, l, clock);
    var r := Subscribed(sigs, c, d, clock);
    var clock' := clock + 1;
    forall x | 0 <= x < |r| ensures SigOk(r, x, clock')
    {
      assert SigOk(sigs, x, clock);
      forall f | f in Members(r[x].followers) && f.Listener? ensures ListenerOk(r, x, f)
      {
        if f != l {
          assert f in Members(sigs[x].followers) && ListenerOk(sigs, x, f);
        }
      }
      forall d' | d' in r[x].deps
        ensures d' < x && Listener(x, r[x].deps[d']) in Members(r[d'].followers)
      {
        if x != c || d' != d {
          assert d' in sigs[x].deps && r[x].deps[d'] == sigs[x].deps[d'];
        }
      }
      forall i | 0 <= i < |r[x].followers| ensures r[x].followers[i].stamp < clock'
      {
        if x != d {
          assert r[x].followers[i] == sigs[x].followers[i];
        }
      }
    }
    assert CallbacksBelow(r) by {
      forall x | 0 <= x < |r| ensures CallbackOk(r, x)
      {
        assert CallbackOk(sigs, x);
      }
    }
  }

  lemma UnsubscribedConsistent(sigs: seq<Sig>, c: Id, d: Id, clock: nat)
    requires Consistent(sigs, clock)
    requires c < |sigs| && d in sigs[c].deps
    ensures d < c
    ensures Consistent(Unsubscribed(sigs, c, d), clock)
    ensures Unsubscribed(sigs, c, d)[c] == sigs[c].(deps := sigs[c].deps - {d})
  {
    assert SigOk(sigs, c, clock);
    assert SigOk(sigs, d, clock);
    var gone := Listener(c, sigs[c].deps[d]);
    DeleteMembers(sigs[d].followers, gone);
    DeleteOrdered(sigs[d].followers, gone, clock);
    var r := Unsubscribed(sigs, c, d);
    forall x | 0 <= x < |r| ensures SigOk(r, x, clock)
    {
      assert SigOk(sigs, x, clock);
      forall f | f in Members(r[x].followers) && f.Listener? ensures ListenerOk(r, x, f)
      {
        assert f in Members(sigs[x].followers) && ListenerOk(sigs, x, f);
      }
      forall d' | d' in r[x].deps
        ensures d' < x && Listener(x, r[x].deps[d']) in Members(r[d'].followers)
      {
        assert d' in sigs[x].deps && r[x].deps[d'] == sigs[x].deps[d'];
      }
      if |r[x].followers| > 0 {
        assert Members(r[x].followers)[0] in Members(r[x].followers);
      }
    }
    assert CallbacksBelow(r) by {
      forall x | 0 <= x < |r| ensures CallbackOk(r, x)
      {
        assert CallbackOk(sigs, x);
      }
    }
  }

  lemma FollowedConsistent(sigs: seq<Sig>, s: Id, k: nat, clock: nat)
    requires Consistent(sigs, clock) && s < |sigs|
    requires !(sigs[s].kind.Compute? && sigs[s].dirty)
    ensures Consistent(Followed(sigs, s, k, clock), clock + 1)
  {
    assert SigOk(sigs, s, clock);
    InsertOrdered(sigs[s].followers, External(k), clock);
    InsertMembers(sigs[s].followers, External(k), clock);
    var r := Followed(sigs, s, k, clock);
    var clock' := clock + 1;
    forall x | 0 <= x < |r| ensures SigOk(r, x, clock')
    {
      assert SigOk(sigs, x, clock);
      forall f | f in Members(r[x].followers) && f.Listener? ensures ListenerOk(r, x, f)
      {
        assert f in Members(sigs[x].followers) && ListenerOk(sigs, x, f);
      }
      forall i | 0 <= i < |r[x].followers| ensures r[x].followers[i].stamp < clock'
      {
        if x != s {
          assert r[x].followers[i] == sigs[x].followers[i];
        }
      }
    }
    assert CallbacksBelow(r) by {
      forall x | 0 <= x < |r| ensures CallbackOk(r, x)
      {
        assert CallbackOk(sigs, x);
      }
    }
  }

  lemma UnfollowedConsistent(sigs: seq<Sig>, s: Id, k: nat, clock: nat)
    requires Consistent(sigs, clock) && s < |sigs|
    ensures Consistent(Unfollowed(sigs, s, k), clock)
  {
    assert SigOk(sigs, s, clock);
    DeleteMembers(sigs[s].followers, External(k));
    DeleteOrdered(sigs[s].followers, External(k), clock);
    var r := Unfollowed(sigs, s, k);
    forall x | 0 <= x < |r| ensures SigOk(r, x, clock)
    {
      assert SigOk(sigs, x, clock);
      forall f | f in Members(r[x].followers) && f.Listener? ensures ListenerOk(r, x, f)
      {
        assert f in Members(sigs[x].followers) && ListenerOk(sigs, x, f);
      }
      if |r[x].followers| > 0 {
        assert Members(r[x].followers)[0] in Members(r[x].followers);
      }
    }
    assert CallbacksBelow(r) by {
      forall x | 0 <= x < |r| ensures CallbackOk(r, x)
      {
        assert CallbackOk(sigs, x);
      }
    }
  }

  /** Changing a value or a dirty flag keeps the store consistent, unless it makes a followed `Compute` dirty. */
  lemma FlagsConsistent(sigs: seq<Sig>, s: Id, v: int, dirty: bool, clock: nat)
    requires Consistent(sigs, clock) && s < |sigs|
    requires dirty && sigs[s].kind.Compute? ==> |sigs[s].followers| == 0
    ensures Consistent(sigs[s := sigs[s].(value := v, dirty := dirty)], clock)
  {
    var r := sigs[s := sigs[s].(value := v, dirty := dirty)];
    forall x | 0 <= x < |r| ensures SigOk(r, x, clock)
    {
      assert SigOk(sigs, x, clock);
      forall f | f in Members(r[x].followers) && f.Listener? ensures ListenerOk(r, x, f)
      {
        assert ListenerOk(sigs, x, f);
      }
    }
    assert CallbacksBelow(r) by {
      forall x | 0 <= x < |r| ensures CallbackOk(r, x)
      {
        assert CallbackOk(sigs, x);
      }
    }
  }

  /** A new signal, with no followers and no dependencies, added to a consistent store. */
  lemma AppendConsistent(sigs: seq<Sig>, kind: Kind, v: int, clock: nat)
    requires Consistent(sigs, clock)
    requires kind.Compute? ==> ReadsBelow(kind.callback, |sigs|)
    ensures Consistent(sigs + [Sig(kind, v, [], kind.Compute?, map[])], clock)
  {
    var r := sigs + [Sig(kind, v, [], kind.Compute?, map[])];
    forall x | 0 <= x < |r| ensures SigOk(r, x, clock) && CallbackOk(r, x)
    {
      if x < |sigs| {
        assert SigOk(sigs, x, clock) && CallbackOk(sigs, x);
        assert r[x] == sigs[x];
        forall f | f in Members(r[x].followers) && f.Listener? ensures ListenerOk(r, x, f)
        {
          assert ListenerOk(sigs, x, f);
        }
      }
    }
  }

  /** A dirty `Compute` has no followers. */
  lemma ColdUnfollowed(sigs: seq<Sig>, clock: nat, x: Id)
    requires Consistent(sigs, clock) && x < |sigs|
    ensures ColdOk(sigs, x)
  {
    assert SigOk(sigs, x, clock);
  }

  /** One dependency of `x` is older than `x`. */
  lemma DependencyOlder(sigs: seq<Sig>, clock: nat, x: Id, d: Id)
    requires Consistent(sigs, clock) && x < |sigs| && d in sigs[x].deps
    ensures d < x
  {
    assert SigOk(sigs, x, clock);
  }

  /** No signal depends on itself, nor on a newer signal. */
  lemma NoSelfDependency(sigs: seq<Sig>, clock: nat)
    requires Consistent(sigs, clock)
    ensures forall x, d | 0 <= x < |sigs| && d in sigs[x].deps :: d < x
  {
    forall x, d | 0 <= x < |sigs| && d in sigs[x].deps ensures d < x
    {
      assert SigOk(sigs, x, clock);
    }
  }

  /** A `Compute` without dependencies has no listener left anywhere: every stored unfollower has been called. */
  lemma NoListenersLeft(sigs: seq<Sig>, c: Id, clock: nat)
    requires Consistent(sigs, clock) && c < |sigs| && sigs[c].deps == map[]
    ensures forall y, serial | 0 <= y < |sigs| :: Listener(c, serial) !in Members(sigs[y].followers)
  {
    forall y, serial | 0 <= y < |sigs| ensures Listener(c, serial) !in Members(sigs[y].followers)
    {
      assert SigOk(sigs, y, clock);
    }
  }
}
