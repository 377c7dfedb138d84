/**
 * Keyed list reconciliation of `each(arr).key(getKey).as(mapper)`.
 *
 * The reconciler keeps a cache from key to the mapped result and to the two
 * signals (the element's value and its index) that were handed to the
 * mapper when the result was made.  Each time the array changes, results of
 * surviving keys are reused and their signals are updated, the mapper runs
 * only for keys it has not seen, and keys that left the array are evicted.
 *
 * A signal created by the external `signal(...)` helper is represented by
 * its current contents (the `value` and `index` of an entry); `ping` has no
 * effect that can be stated without the external signal module.
 */
module KeyedEach {

  /** A cache entry: the mapper's result and the contents of its value and index signals. */
  datatype Entry<T, R> = Entry(result: R, value: T, index: nat)

  class Each<T, K(==), R> {
    /** The `getKey` function given to `.key(...)`. */
    const getKey: (T, nat) -> K
    /** The `as` function given to `.as(...)`, seen through the initial contents of the signals it receives. */
    const mapper: (T, nat) -> R

    /** The `cache` map from key to entry. */
    var cache: map<K, Entry<T, R>>
    /** The keys for which the mapper was called, in call order. */
    var mapped: seq<K>

    constructor (getKey: (T, nat) -> K, mapper: (T, nat) -> R)
      ensures this.getKey == getKey && this.mapper == mapper
      ensures cache == map[] && mapped == []
    {
      this.getKey := getKey;
      this.mapper := mapper;
      cache := map[];
      mapped := [];
    }

    /** The key of element `i` of `arr`. */
    function KeyAt(arr: seq<T>, i: nat): K
      requires i < |arr|
    {
      getKey(arr[i], i)
    }

    /** The keys of the first `n` elements of `arr`. */
    function KeysOf(arr: seq<T>, n: nat): set<K>
      requires n <= |arr|
    {
      if n == 0 then {} else KeysOf(arr, n - 1) + {KeyAt(arr, n - 1)}
    }

    /** The first position among the first `n` elements whose key is `k`. */
    function FirstIn(arr: seq<T>, n: nat, k: K): (j: nat)
      requires n <= |arr| && k in KeysOf(arr, n)
      ensures j < n
    {
      if k in KeysOf(arr, n - 1) then FirstIn(arr, n - 1, k) else n - 1
    }

    /** The last position among the first `n` elements whose key is `k`. */
    function LastIn(arr: seq<T>, n: nat, k: K): (j: nat)
      requires n <= |arr| && k in KeysOf(arr, n)
      ensures j < n
    {
      if KeyAt(arr, n - 1) == k then n - 1 else LastIn(arr, n - 1, k)
    }

    /** The keys among the first `n` elements that were not cached in `c`, in order of first appearance. */
    function NewKeys(c: map<K, Entry<T, R>>, arr: seq<T>, n: nat): seq<K>
      requires n <= |arr|
    {
      if n == 0 then []
      else
        var k := KeyAt(arr, n - 1);
        NewKeys(c, arr, n - 1) + (if k in c || k in KeysOf(arr, n - 1) then [] else [k])
    }

    /** The result that element keyed `k` receives: the cached one, or the mapper's result for the key's first element. */
    function ResultFor(c: map<K, Entry<T, R>>, arr: seq<T>, n: nat, k: K): R
      requires n <= |arr| && k in KeysOf(arr, n)
    {
      if k in c then c[k].result
      else var j := FirstIn(arr, n, k); mapper(arr[j], j)
    }

    lemma {:induction false} KeyInKeysOf(arr: seq<T>, n: nat, i: nat)
      requires i < n <= |arr|
      ensures KeyAt(arr, i) in KeysOf(arr, n)
    {
      if i < n - 1 {
        KeyInKeysOf(arr, n - 1, i);
      }
    }

    lemma {:induction false} KeysOfExact(arr: seq<T>, n: nat, k: K)
      requires n <= |arr|
      ensures k in KeysOf(arr, n) <==> exists i :: 0 <= i < n && KeyAt(arr, i) == k
    {
      if n > 0 {
        KeysOfExact(arr, n - 1, k);
      }
    }

    /** `FirstIn` is the first position with key `k`. */
    lemma {:induction false} FirstInIsFirst(arr: seq<T>, n: nat, k: K)
      requires n <= |arr| && k in KeysOf(arr, n)
      ensures KeyAt(arr, FirstIn(arr, n, k)) == k
      ensures forall i :: 0 <= i < FirstIn(arr, n, k) ==> KeyAt(arr, i) != k
    {
      if k in KeysOf(arr, n - 1) {
        FirstInIsFirst(arr, n - 1, k);
      } else {
        forall i | 0 <= i < n - 1 ensures KeyAt(arr, i) != k {
          KeysOfExact(arr, n - 1, k);
        }
      }
    }

    /** `LastIn` is the last position with key `k`. */
    lemma {:induction false} LastInIsLast(arr: seq<T>, n: nat, k: K)
      requires n <= |arr| && k in KeysOf(arr, n)
      ensures KeyAt(arr, LastIn(arr, n, k)) == k
      ensures forall i :: LastIn(arr, n, k) < i < n ==> KeyAt(arr, i) != k
    {
      if KeyAt(arr, n - 1) != k {
        LastInIsLast(arr, n - 1, k);
      }
    }

    /** The mapper is called only for keys that were not cached, and at most once per key. */
    lemma {:induction false} NewKeysAreNew(c: map<K, Entry<T, R>>, arr: seq<T>, n: nat)
      requires n <= |arr|
      ensures forall i :: 0 <= i < |NewKeys(c, arr, n)| ==> NewKeys(c, arr, n)[i] !in c
      ensures forall i :: 0 <= i < |NewKeys(c, arr, n)| ==> NewKeys(c, arr, n)[i] in KeysOf(arr, n)
      ensures forall i, j :: 0 <= i < j < |NewKeys(c, arr, n)| ==> NewKeys(c, arr, n)[i] != NewKeys(c, arr, n)[j]
    {
      if n > 0 {
        NewKeysAreNew(c, arr, n - 1);
      }
    }

    /** Every key of the array that was not cached gets exactly one mapper call. */
    lemma {:induction false} NewKeysComplete(c: map<K, Entry<T, R>>, arr: seq<T>, n: nat, k: K)
      requires n <= |arr| && k in KeysOf(arr, n) && k !in c
      ensures k in NewKeys(c, arr, n)
    {
      if k in KeysOf(arr, n - 1) {
        NewKeysComplete(c, arr, n - 1, k);
      }
    }

    /** The cache contents after the first `n` elements of `arr` were reconciled against `c0`. */
    ghost predicate CachedAfter(c0: map<K, Entry<T, R>>, arr: seq<T>, n: nat, c: map<K, Entry<T, R>>)
      requires n <= |arr|
    {
      && c.Keys == c0.Keys + KeysOf(arr, n)
      && (forall k :: k in c0 && k !in KeysOf(arr, n) ==> c[k] == c0[k])
      && (forall k :: k in KeysOf(arr, n) ==>
            c[k] == Entry(ResultFor(c0, arr, n, k), arr[LastIn(arr, n, k)], LastIn(arr, n, k)))
    }

    /** Element `n` does not change where earlier keys first occur, hence their results. */
    lemma ResultStable(c0: map<K, Entry<T, R>>, arr: seq<T>, n: nat, k: K)
      requires n < |arr| && k in KeysOf(arr, n)
      ensures k in KeysOf(arr, n + 1)
      ensures ResultFor(c0, arr, n + 1, k) == ResultFor(c0, arr, n, k)
    {
      assert FirstIn(arr, n + 1, k) == FirstIn(arr, n, k);
    }

    /** Reconciling element `n` extends the cache as the loop body of `Reconcile` does. */
    lemma CachedStep(c0: map<K, Entry<T, R>>, arr: seq<T>, n: nat, c: map<K, Entry<T, R>>)
      requires n < |arr| && CachedAfter(c0, arr, n, c)
      ensures var k := KeyAt(arr, n);
              CachedAfter(c0, arr, n + 1,
                if k in c then c[k := Entry(c[k].result, arr[n], n)]
                else c[k := Entry(mapper(arr[n], n), arr[n], n)])
      ensures var k := KeyAt(arr, n);
              ResultFor(c0, arr, n + 1, k) == if k in c then c[k].result else mapper(arr[n], n)
    {
      var k0 := KeyAt(arr, n);
      var c' := if k0 in c then c[k0 := Entry(c[k0].result, arr[n], n)]
                else c[k0 := Entry(mapper(arr[n], n), arr[n], n)];
      var keys' := KeysOf(arr, n + 1);
      assert keys' == KeysOf(arr, n) + {k0};
      assert c'.Keys == c0.Keys + keys';
      assert forall k :: k in c0 && k !in keys' ==> c'[k] == c0[k];
      assert ResultFor(c0, arr, n + 1, k0) == if k0 in c then c[k0].result else mapper(arr[n], n) by {
        if k0 in KeysOf(arr, n) {
          ResultStable(c0, arr, n, k0);
        } else if k0 !in c {
          assert FirstIn(arr, n + 1, k0) == n;
        }
      }
      forall k | k in keys'
        ensures c'[k] == Entry(ResultFor(c0, arr, n + 1, k), arr[LastIn(arr, n + 1, k)], LastIn(arr, n + 1, k))
      {
        if k != k0 {
          ResultStable(c0, arr, n, k);
        }
      }
    }

    /** The cache after the first `n` elements of `arr` were reconciled against `c0`, step by step. */
    function CacheAfter(c0: map<K, Entry<T, R>>, arr: seq<T>, n: nat): map<K, Entry<T, R>>
      requires n <= |arr|
    {
      if n == 0 then c0
      else
        var c, k := CacheAfter(c0, arr, n - 1), KeyAt(arr, n - 1);
        if k in c then c[k := Entry(c[k].result, arr[n - 1], n - 1)]
        else c[k := Entry(mapper(arr[n - 1], n - 1), arr[n - 1], n - 1)]
    }

    /** The results produced for the first `n` elements of `arr`, step by step. */
    function ResultsAfter(c0: map<K, Entry<T, R>>, arr: seq<T>, n: nat): seq<R>
      requires n <= |arr|
    {
      if n == 0 then []
      else
        var c, k := CacheAfter(c0, arr, n - 1), KeyAt(arr, n - 1);
        ResultsAfter(c0, arr, n - 1) + [if k in c then c[k].result else mapper(arr[n - 1], n - 1)]
    }

    /** The step-by-step cache holds exactly the entries `CachedAfter` describes. */
    lemma {:induction false} CacheAfterSpec(c0: map<K, Entry<T, R>>, arr: seq<T>, n: nat)
      requires n <= |arr|
      ensures CachedAfter(c0, arr, n, CacheAfter(c0, arr, n))
    {
      if n > 0 {
        CacheAfterSpec(c0, arr, n - 1);
        CachedStep(c0, arr, n - 1, CacheAfter(c0, arr, n - 1));
      }
    }

    /** The result produced for element `n` is the one `ResultFor` assigns to its key. */
    lemma ResultAtStep(c0: map<K, Entry<T, R>>, arr: seq<T>, n: nat)
      requires n < |arr|
      ensures var c, k := CacheAfter(c0, arr, n), KeyAt(arr, n);
              ResultFor(c0, arr, n + 1, k) == if k in c then c[k].result else mapper(arr[n], n)
    {
      CacheAfterSpec(c0, arr, n);
      CachedStep(c0, arr, n, CacheAfter(c0, arr, n));
    }

    /** Element `j` receives the cached result of its key, or the mapper's result for the key's first element. */
    lemma {:induction false} ResultsAfterSpec(c0: map<K, Entry<T, R>>, arr: seq<T>, n: nat)
      requires n <= |arr|
      ensures |ResultsAfter(c0, arr, n)| == n
      ensures forall j :: 0 <= j < n ==>
                KeyAt(arr, j) in KeysOf(arr, n) && ResultsAfter(c0, arr, n)[j] == ResultFor(c0, arr, n, KeyAt(arr, j))
    {
      if n > 0 {
        var m := n - 1;
        var prev, rs := ResultsAfter(c0, arr, m), ResultsAfter(c0, arr, n);
        ResultsAfterSpec(c0, arr, m);
        assert rs == prev + [rs[m]];
        forall j | 0 <= j < m
          ensures KeyAt(arr, j) in KeysOf(arr, n) && rs[j] == ResultFor(c0, arr, n, KeyAt(arr, j))
        {
          ResultStable(c0, arr, m, KeyAt(arr, j));
        }
        ResultAtStep(c0, arr, m);
        KeyInKeysOf(arr, n, m);
      }
    }

    /** The keys of the step-by-step cache: the old ones and those of the array so far. */
    lemma {:induction false} CacheAfterKeys(c0: map<K, Entry<T, R>>, arr: seq<T>, n: nat)
      requires n <= |arr|
      ensures CacheAfter(c0, arr, n).Keys == c0.Keys + KeysOf(arr, n)
    {
      if n > 0 {
        CacheAfterKeys(c0, arr, n - 1);
      }
    }

    /** After the whole array, evicting the keys that left it yields the cache `Reconcile` promises. */
    lemma ReconciledCache(c0: map<K, Entry<T, R>>, arr: seq<T>)
      ensures var c := CacheAfter(c0, arr, |arr|) - (c0.Keys - KeysOf(arr, |arr|));
              && c.Keys == KeysOf(arr, |arr|)
              && forall k :: k in c ==>
                   c[k] == Entry(ResultFor(c0, arr, |arr|, k), arr[LastIn(arr, |arr|, k)], LastIn(arr, |arr|, k))
    {
      CacheAfterSpec(c0, arr, |arr|);
    }

    /**
     * The reconciliation callback run on every new array: returns the new
     * results, reusing cached ones, and updates the cache in place.
     */
    method Reconcile(arr: seq<T>) returns (results: seq<R>)
      modifies this
      ensures |results| == |arr|
      ensures forall i :: 0 <= i < |arr| ==>
                KeyAt(arr, i) in KeysOf(arr, |arr|) &&
                results[i] == ResultFor(old(cache), arr, |arr|, KeyAt(arr, i))
      ensures cache.Keys == KeysOf(arr, |arr|)
      ensures forall k :: k in cache ==>
                cache[k] == Entry(ResultFor(old(cache), arr, |arr|, k), arr[LastIn(arr, |arr|, k)], LastIn(arr, |arr|, k))
      ensures mapped == old(mapped) + NewKeys(old(cache), arr, |arr|)
    {
      var c, toRemove, calls;
      c, toRemove, calls, results := MapArray(arr);
      ResultsAfterSpec(cache, arr, |arr|);
      ReconciledCache(cache, arr);
      cache := c;
      Evict(toRemove);
      mapped := mapped + calls;
    }

    /** `for (let key of toRemove) cache.delete(key)`: the keys go one at a time, in any order. */
    method Evict(toRemove: set<K>)
      modifies this
      ensures cache == old(cache) - toRemove && mapped == old(mapped)
    {
      var rest := toRemove;
      while rest != {}
        invariant rest <= toRemove
        invariant cache == old(cache) - (toRemove - rest) && mapped == old(mapped)
        decreases rest
      {
        var k :| k in rest;
        cache := cache - {k};
        rest := rest - {k};
      }
    }

    /**
     * The `arr.map` pass: each element's key either reuses its cached
     * result (and leaves `toRemove`) or gets the mapper's result; the
     * updated entries are those of `CacheAfter`.
     */
    method MapArray(arr: seq<T>)
      returns (c: map<K, Entry<T, R>>, toRemove: set<K>, calls: seq<K>, results: seq<R>)
      ensures c == CacheAfter(cache, arr, |arr|)
      ensures toRemove == cache.Keys - KeysOf(arr, |arr|)
      ensures calls == NewKeys(cache, arr, |arr|)
      ensures results == ResultsAfter(cache, arr, |arr|)
    {
      c := cache;
      toRemove := cache.Keys;
      calls := [];
      results := [];
      var i := 0;
      while i < |arr|
        invariant 0 <= i <= |arr|
        invariant toRemove == cache.Keys - KeysOf(arr, i)
        invariant c == CacheAfter(cache, arr, i)
        invariant results == ResultsAfter(cache, arr, i)
        invariant calls == NewKeys(cache, arr, i)
      {
        var value := arr[i];
        var key := getKey(value, i);
        CacheAfterKeys(cache, arr, i);
        var result;
        if key in c {
          toRemove := toRemove - {key};
          var e := c[key];
          result := e.result;
          c := c[key := Entry(e.result, value, i)];
        } else {
          result := mapper(value, i);
          c := c[key := Entry(result, value, i)];
          calls := calls + [key];
        }
        results := results + [result];
        i := i + 1;
      }
    }
  }
}
