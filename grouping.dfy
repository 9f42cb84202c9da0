/** Insertion-ordered buckets: the value of a JavaScript `Map<K, V[]>` that a
    loop fills with `arr = map.get(k) ?? []; arr.push(v); map.set(k, arr)`.
    A `Map` iterates its keys in first-insertion order and `set` on a present
    key keeps that key's position, so the map is an association list. */
module Grouping {
  import opened Common

  /** Index of the first entry with key k, or |g| when there is none. */
  function KeyIndex<K(==), V>(g: seq<(K, V)>, k: K): (i: nat)
    ensures i <= |g|
    ensures i < |g| ==> g[i].0 == k
    ensures forall j :: 0 <= j < i ==> g[j].0 != k
  {
    if |g| == 0 then 0 else if g[0].0 == k then 0 else 1 + KeyIndex(g[1..], k)
  }

  ghost predicate DistinctKeys<K, V>(g: seq<(K, V)>)
  {
    forall i, j :: 0 <= i < j < |g| ==> g[i].0 != g[j].0
  }

  /** Appends v to the bucket of k, opening the bucket at the end if k is new. */
  function AddTo<K(==), V>(g: seq<(K, seq<V>)>, k: K, v: V): seq<(K, seq<V>)>
  {
    var i := KeyIndex(g, k);
    if i < |g| then g[i := (k, g[i].1 + [v])] else g + [(k, [v])]
  }

  /** The buckets built from the key/value pairs kvs, processed in order. */
  function Buckets<K(==), V>(kvs: seq<(K, V)>): seq<(K, seq<V>)>
  {
    if |kvs| == 0 then []
    else AddTo(Buckets(kvs[..|kvs| - 1]), kvs[|kvs| - 1].0, kvs[|kvs| - 1].1)
  }

  /** One more pair is one more `AddTo`. */
  lemma BucketsSnoc<K, V>(kvs: seq<(K, V)>, x: (K, V))
    ensures Buckets(kvs + [x]) == AddTo(Buckets(kvs), x.0, x.1)
  {
    assert (kvs + [x])[..|kvs|] == kvs;
  }

  /** Reference definition: the values paired with k, in order. */
  function ValuesFor<K(==), V>(kvs: seq<(K, V)>, k: K): seq<V>
  {
    if |kvs| == 0 then []
    else ValuesFor(kvs[..|kvs| - 1], k) + (if kvs[|kvs| - 1].0 == k then [kvs[|kvs| - 1].1] else [])
  }

  /** v is a value of key k exactly when the pair (k, v) occurs. */
  lemma {:induction false} ValuesForMembers<K, V>(kvs: seq<(K, V)>, k: K)
    ensures forall v :: v in ValuesFor(kvs, k) <==> (k, v) in kvs
  {
    if |kvs| > 0 {
      var p, x := kvs[..|kvs| - 1], kvs[|kvs| - 1];
      ValuesForMembers(p, k);
      assert kvs == p + [x];
    }
  }

  function Values<K, V>(kvs: seq<(K, V)>): seq<V>
  {
    if |kvs| == 0 then [] else [kvs[0].1] + Values(kvs[1..])
  }

  lemma {:induction false} KeyIndexAppend<K, V>(p: seq<(K, V)>, x: (K, V), k: K)
    ensures KeyIndex(p + [x], k)
         == if KeyIndex(p, k) < |p| then KeyIndex(p, k) else if x.0 == k then |p| else |p| + 1
  {
    if |p| > 0 {
      assert (p + [x])[1..] == p[1..] + [x];
      KeyIndexAppend(p[1..], x, k);
    }
  }

  lemma {:induction false} KeyIndexSameKeys<K, V, W>(a: seq<(K, V)>, b: seq<(K, W)>, k: K)
    requires |a| == |b| && forall i :: 0 <= i < |a| ==> a[i].0 == b[i].0
    ensures KeyIndex(a, k) == KeyIndex(b, k)
  {
    if |a| > 0 { KeyIndexSameKeys(a[1..], b[1..], k); }
  }

  lemma ValuesForAbsent<K, V>(kvs: seq<(K, V)>, k: K)
    requires KeyIndex(kvs, k) == |kvs|
    ensures ValuesFor(kvs, k) == []
  {
    if |kvs| > 0 {
      var p := kvs[..|kvs| - 1];
      KeyIndexAppend(p, kvs[|kvs| - 1], k);
      assert p + [kvs[|kvs| - 1]] == kvs;
      ValuesForAbsent(p, k);
    }
  }

  /** The buckets have distinct keys, and a key has a bucket exactly when some
      pair carries it. */
  lemma {:induction false} BucketsKeys<K, V>(kvs: seq<(K, V)>)
    ensures DistinctKeys(Buckets(kvs))
    ensures forall k :: KeyIndex(Buckets(kvs), k) < |Buckets(kvs)| <==> KeyIndex(kvs, k) < |kvs|
  {
    if |kvs| > 0 {
      var p, x := kvs[..|kvs| - 1], kvs[|kvs| - 1];
      assert p + [x] == kvs;
      BucketsKeys(p);
      var G := Buckets(p);
      var i := KeyIndex(G, x.0);
      forall k ensures KeyIndex(Buckets(kvs), k) < |Buckets(kvs)| <==> KeyIndex(kvs, k) < |kvs| {
        KeyIndexAppend(p, x, k);
        if i < |G| {
          KeyIndexSameKeys(G, G[i := (x.0, G[i].1 + [x.1])], k);
        } else {
          KeyIndexAppend(G, (x.0, [x.1]), k);
        }
      }
    }
  }

  /** Each bucket holds exactly the values paired with its key, in order. */
  lemma {:induction false} BucketsValues<K, V>(kvs: seq<(K, V)>)
    ensures forall i :: 0 <= i < |Buckets(kvs)| ==>
      Buckets(kvs)[i].1 == ValuesFor(kvs, Buckets(kvs)[i].0) && |Buckets(kvs)[i].1| > 0
  {
    if |kvs| > 0 {
      var p, x := kvs[..|kvs| - 1], kvs[|kvs| - 1];
      BucketsValues(p);
      BucketsKeys(p);
      var G := Buckets(p);
      var i := KeyIndex(G, x.0);
      if i == |G| { ValuesForAbsent(p, x.0); }
    }
  }

  /** Buckets appear in the order in which their keys first occur. */
  lemma {:induction false} BucketsFirstOccurrence<K, V>(kvs: seq<(K, V)>)
    ensures forall i, j :: 0 <= i < j < |Buckets(kvs)| ==>
      KeyIndex(kvs, Buckets(kvs)[i].0) < KeyIndex(kvs, Buckets(kvs)[j].0)
  {
    if |kvs| > 0 {
      var p, x := kvs[..|kvs| - 1], kvs[|kvs| - 1];
      assert p + [x] == kvs;
      BucketsFirstOccurrence(p);
      OldKeysFirst(p, x);
    }
  }

  /** A key that already has a bucket keeps its first occurrence when a pair
      is appended; a new key first occurs at the appended pair. */
  lemma OldKeysFirst<K, V>(p: seq<(K, V)>, x: (K, V))
    ensures forall m :: 0 <= m < |Buckets(p)| ==> KeyIndex(p + [x], Buckets(p)[m].0) == KeyIndex(p, Buckets(p)[m].0) < |p|
    ensures KeyIndex(Buckets(p), x.0) == |Buckets(p)| ==> KeyIndex(p + [x], x.0) == |p|
  {
    BucketsKeys(p);
    var G := Buckets(p);
    forall m | 0 <= m < |G| ensures KeyIndex(p + [x], G[m].0) == KeyIndex(p, G[m].0) < |p| {
      assert KeyIndex(G, G[m].0) <= m;
      KeyIndexAppend(p, x, G[m].0);
    }
    KeyIndexAppend(p, x, x.0);
  }

  // ---------------------------------------------------------------------------
  // Conservation: summing a weight bucket by bucket gives the overall sum.
  // ---------------------------------------------------------------------------

  function BucketTotal<K, V>(g: seq<(K, seq<V>)>, w: V -> int): int
  {
    if |g| == 0 then 0 else SumOf(g[0].1, w) + BucketTotal(g[1..], w)
  }

  lemma {:induction false} BucketTotalUpdate<K, V>(g: seq<(K, seq<V>)>, i: nat, e: (K, seq<V>), w: V -> int)
    requires i < |g|
    ensures BucketTotal(g[i := e], w) == BucketTotal(g, w) - SumOf(g[i].1, w) + SumOf(e.1, w)
  {
    if i == 0 {
      assert g[i := e][1..] == g[1..];
    } else {
      assert g[i := e][1..] == g[1..][i - 1 := e];
      BucketTotalUpdate(g[1..], i - 1, e, w);
    }
  }

  lemma {:induction false} BucketTotalAppend<K, V>(g: seq<(K, seq<V>)>, e: (K, seq<V>), w: V -> int)
    ensures BucketTotal(g + [e], w) == BucketTotal(g, w) + SumOf(e.1, w)
  {
    if |g| == 0 {
      assert ([] + [e])[1..] == [];
    } else {
      assert (g + [e])[1..] == g[1..] + [e];
      BucketTotalAppend(g[1..], e, w);
    }
  }

  lemma {:induction false} ValuesAppend<K, V>(p: seq<(K, V)>, x: (K, V))
    ensures Values(p + [x]) == Values(p) + [x.1]
  {
    if |p| > 0 {
      assert (p + [x])[1..] == p[1..] + [x];
      ValuesAppend(p[1..], x);
    }
  }

  lemma {:induction false} BucketsConserve<K, V>(kvs: seq<(K, V)>, w: V -> int)
    ensures BucketTotal(Buckets(kvs), w) == SumOf(Values(kvs), w)
  {
    if |kvs| > 0 {
      var p, x := kvs[..|kvs| - 1], kvs[|kvs| - 1];
      assert p + [x] == kvs;
      BucketsConserve(p, w);
      ValuesAppend(p, x);
      SumOfAppend(Values(p), [x.1], w);
      var G := Buckets(p);
      var i := KeyIndex(G, x.0);
      if i < |G| {
        BucketTotalUpdate(G, i, (x.0, G[i].1 + [x.1]), w);
        SumOfAppend(G[i].1, [x.1], w);
      } else {
        BucketTotalAppend(G, (x.0, [x.1]), w);
      }
    }
  }

  /** Rows derived one per bucket inherit the conservation law. */
  lemma {:induction false} RowsTotal<K, V, R>(rows: seq<R>, f: R -> int, g: seq<(K, seq<V>)>, w: V -> int)
    requires |rows| == |g|
    requires forall i :: 0 <= i < |g| ==> f(rows[i]) == SumOf(g[i].1, w)
    ensures SumOf(rows, f) == BucketTotal(g, w)
  {
    if |g| > 0 { RowsTotal(rows[1..], f, g[1..], w); }
  }

  // ---------------------------------------------------------------------------
  // Accumulating maps: `existing = map.get(k); if (existing) update it in
  // place, else map.set(k, fresh)`. The value of a key is the fold of its
  // bucket.
  // ---------------------------------------------------------------------------

  /** One accumulation step: fold v into the entry of k, or open it with `first`. */
  function AddAcc<K(==), V, R>(m: seq<(K, R)>, k: K, v: V, first: V -> R, step: (R, V) -> R): seq<(K, R)>
  {
    var i := KeyIndex(m, k);
    if i < |m| then m[i := (k, step(m[i].1, v))] else m + [(k, first(v))]
  }

  /** The map after processing the pairs kvs in order. */
  function Accumulate<K(==), V, R>(kvs: seq<(K, V)>, first: V -> R, step: (R, V) -> R): seq<(K, R)>
  {
    if |kvs| == 0 then []
    else AddAcc(Accumulate(kvs[..|kvs| - 1], first, step), kvs[|kvs| - 1].0, kvs[|kvs| - 1].1, first, step)
  }

  lemma AccumulateSnoc<K, V, R>(kvs: seq<(K, V)>, x: (K, V), first: V -> R, step: (R, V) -> R)
    ensures Accumulate(kvs + [x], first, step) == AddAcc(Accumulate(kvs, first, step), x.0, x.1, first, step)
  {
    assert (kvs + [x])[..|kvs|] == kvs;
  }

  /** The fold of one non-empty bucket: `first` on its first value, `step`
      on each later one. */
  function FoldBucket<V, R>(vs: seq<V>, first: V -> R, step: (R, V) -> R): R
    requires |vs| > 0
  {
    if |vs| == 1 then first(vs[0]) else step(FoldBucket(vs[..|vs| - 1], first, step), vs[|vs| - 1])
  }

  lemma FoldBucketSnoc<V, R>(vs: seq<V>, v: V, first: V -> R, step: (R, V) -> R)
    requires |vs| > 0
    ensures FoldBucket(vs + [v], first, step) == step(FoldBucket(vs, first, step), v)
  {
    assert (vs + [v])[..|vs|] == vs;
  }

  /** The accumulated map has the keys of the buckets, in the same order,
      and each value is the fold of its bucket. */
  lemma {:induction false} AccumulateIsBuckets<K, V, R>(kvs: seq<(K, V)>, first: V -> R, step: (R, V) -> R)
    ensures |Accumulate(kvs, first, step)| == |Buckets(kvs)|
    ensures forall i :: 0 <= i < |Buckets(kvs)| ==>
      |Buckets(kvs)[i].1| > 0
      && Accumulate(kvs, first, step)[i] == (Buckets(kvs)[i].0, FoldBucket(Buckets(kvs)[i].1, first, step))
  {
    BucketsValues(kvs);
    if |kvs| > 0 {
      var p, x := kvs[..|kvs| - 1], kvs[|kvs| - 1];
      AccumulateIsBuckets(p, first, step);
      BucketsValues(p);
      var m, G := Accumulate(p, first, step), Buckets(p);
      KeyIndexSameKeys(m, G, x.0);
      var i := KeyIndex(G, x.0);
      if i < |G| {
        FoldBucketSnoc(G[i].1, x.1, first, step);
      } else {
        assert FoldBucket([x.1], first, step) == first(x.1);
      }
    }
  }

  /** `xs` paired with their keys. */
  function Keyed<K, V>(xs: seq<V>, key: V -> K): seq<(K, V)>
  {
    if |xs| == 0 then [] else Keyed(xs[..|xs| - 1], key) + [(key(xs[|xs| - 1]), xs[|xs| - 1])]
  }

  lemma {:induction false} KeyedIndex<K, V>(xs: seq<V>, key: V -> K)
    ensures |Keyed(xs, key)| == |xs|
    ensures forall i :: 0 <= i < |xs| ==> Keyed(xs, key)[i] == (key(xs[i]), xs[i])
  {
    if |xs| > 0 { KeyedIndex(xs[..|xs| - 1], key); }
  }

  lemma KeyedSnoc<K, V>(xs: seq<V>, x: V, key: V -> K)
    ensures Keyed(xs + [x], key) == Keyed(xs, key) + [(key(x), x)]
  {
    assert (xs + [x])[..|xs|] == xs;
  }

  lemma {:induction false} KeyedValues<K, V>(xs: seq<V>, key: V -> K)
    ensures Values(Keyed(xs, key)) == xs
  {
    if |xs| > 0 {
      var p, x := xs[..|xs| - 1], xs[|xs| - 1];
      KeyedValues(p, key);
      ValuesAppend(Keyed(p, key), (key(x), x));
      assert p + [x] == xs;
    }
  }

  function HasKey<K(==), V>(key: V -> K, k: K): V -> bool
  {
    (v: V) => key(v) == k
  }

  /** The values of key k are the elements with that key, in order. */
  lemma {:induction false} ValuesForKeyed<K, V>(xs: seq<V>, key: V -> K, k: K)
    ensures ValuesFor(Keyed(xs, key), k) == Filter(xs, HasKey(key, k))
  {
    if |xs| > 0 {
      var p, x := xs[..|xs| - 1], xs[|xs| - 1];
      ValuesForKeyed(p, key, k);
      KeyedSnoc(p, x, key);
      KeyedIndex(p, key);
      assert p + [x] == xs;
      assert Keyed(xs, key)[..|xs| - 1] == Keyed(p, key);
      FilterSnoc(p, x, HasKey(key, k));
    }
  }

  /** A key occurs among the pairs exactly when some element has it. */
  lemma KeyedKeys<K, V>(xs: seq<V>, key: V -> K, k: K)
    ensures KeyIndex(Keyed(xs, key), k) < |xs| <==> exists v :: v in xs && key(v) == k
  {
    var kvs := Keyed(xs, key);
    KeyedIndex(xs, key);
    if KeyIndex(kvs, k) < |xs| {
      assert xs[KeyIndex(kvs, k)] in xs;
    }
    if exists v :: v in xs && key(v) == k {
      var v :| v in xs && key(v) == k;
      var j :| 0 <= j < |xs| && xs[j] == v;
      assert kvs[j].0 == k;
    }
  }

  /** Accumulating with `first = AddAcc([], ..)` and `step = AddAcc(m, ..)`
      over a bucket builds the inner map of that bucket: a map of maps. */
  lemma {:induction false} FoldOfAdd<K2, V, R>(vs: seq<V>, key: V -> K2, first: V -> R, step: (R, V) -> R,
                                                   outerFirst: V -> seq<(K2, R)>, outerStep: (seq<(K2, R)>, V) -> seq<(K2, R)>)
    requires |vs| > 0
    requires forall v :: outerFirst(v) == AddAcc([], key(v), v, first, step)
    requires forall m, v :: outerStep(m, v) == AddAcc(m, key(v), v, first, step)
    ensures FoldBucket(vs, outerFirst, outerStep) == Accumulate(Keyed(vs, key), first, step)
  {
    var p, x := vs[..|vs| - 1], vs[|vs| - 1];
    assert p + [x] == vs;
    KeyedSnoc(p, x, key);
    AccumulateSnoc(Keyed(p, key), (key(x), x), first, step);
    if |vs| > 1 {
      FoldOfAdd(p, key, first, step, outerFirst, outerStep);
    } else {
      assert p == [];
    }
  }

  lemma {:induction false} ValuesIndex<K, V>(m: seq<(K, V)>)
    ensures |Values(m)| == |m|
    ensures forall i :: 0 <= i < |m| ==> Values(m)[i] == m[i].1
  {
    if |m| > 0 { ValuesIndex(m[1..]); }
  }

  /** What an accumulating map over elements keyed by `key` holds: distinct
      keys; exactly the keys some element has; in the order in which the keys
      first occur; and for each key the fold of the elements with that key,
      in input order. */
  lemma AccumulateFacts<K, V, R>(xs: seq<V>, key: V -> K, first: V -> R, step: (R, V) -> R)
    ensures var m := Accumulate(Keyed(xs, key), first, step);
      && DistinctKeys(m)
      && (forall i :: 0 <= i < |m| ==>
            |Filter(xs, HasKey(key, m[i].0))| > 0
            && m[i].1 == FoldBucket(Filter(xs, HasKey(key, m[i].0)), first, step))
      && (forall k :: KeyIndex(m, k) < |m| <==> exists v :: v in xs && key(v) == k)
      && (forall i, j :: 0 <= i < j < |m| ==> KeyIndex(Keyed(xs, key), m[i].0) < KeyIndex(Keyed(xs, key), m[j].0))
  {
    var kvs := Keyed(xs, key);
    var m := Accumulate(kvs, first, step);
    KeyedIndex(xs, key);
    AccumulateIsBuckets(kvs, first, step);
    BucketsKeys(kvs);
    BucketsValues(kvs);
    BucketsFirstOccurrence(kvs);
    var G := Buckets(kvs);
    forall i | 0 <= i < |m| ensures G[i].1 == Filter(xs, HasKey(key, m[i].0)) {
      ValuesForKeyed(xs, key, m[i].0);
    }
    forall k ensures KeyIndex(m, k) < |m| <==> exists v :: v in xs && key(v) == k {
      KeyIndexSameKeys(m, G, k);
      KeyedKeys(xs, key, k);
    }
  }

  /** Summing a weight of the accumulated values gives the weight of all
      elements when the value of each key sums the elements with that key. */
  lemma AccumulateConserve<K, V, R>(xs: seq<V>, key: V -> K, first: V -> R, step: (R, V) -> R, f: R -> int, w: V -> int)
    requires forall k :: |Filter(xs, HasKey(key, k))| > 0 ==>
      f(FoldBucket(Filter(xs, HasKey(key, k)), first, step)) == SumOf(Filter(xs, HasKey(key, k)), w)
    ensures SumOf(Values(Accumulate(Keyed(xs, key), first, step)), f) == SumOf(xs, w)
  {
    var kvs := Keyed(xs, key);
    var m := Accumulate(kvs, first, step);
    var G := Buckets(kvs);
    AccumulateIsBuckets(kvs, first, step);
    BucketsValues(kvs);
    ValuesIndex(m);
    var rows := Values(m);
    forall i | 0 <= i < |G| ensures f(rows[i]) == SumOf(G[i].1, w) {
      ValuesForKeyed(xs, key, G[i].0);
      assert rows[i] == FoldBucket(G[i].1, first, step);
    }
    RowsTotal(rows, f, G, w);
    BucketsConserve(kvs, w);
    KeyedValues(xs, key);
  }

  /** One more element, kept or skipped by the filter p. */
  lemma AccumulateFilterSnoc<K, V, R>(xs: seq<V>, x: V, p: V -> bool, key: V -> K, first: V -> R, step: (R, V) -> R)
    ensures Accumulate(Keyed(Filter(xs + [x], p), key), first, step)
         == if p(x) then AddAcc(Accumulate(Keyed(Filter(xs, p), key), first, step), key(x), x, first, step)
            else Accumulate(Keyed(Filter(xs, p), key), first, step)
  {
    FilterSnoc(xs, x, p);
    if p(x) {
      KeyedSnoc(Filter(xs, p), x, key);
      AccumulateSnoc(Keyed(Filter(xs, p), key), (key(x), x), first, step);
    } else {
      assert Filter(xs + [x], p) == Filter(xs, p);
    }
  }
  /** The accumulation over a prefix one element longer, without a filter. */
  lemma AccumulatePrefixStep<K, V, R>(xs: seq<V>, s: nat, key: V -> K, first: V -> R, step: (R, V) -> R)
    requires s < |xs|
    ensures Accumulate(Keyed(xs[..s + 1], key), first, step)
         == AddAcc(Accumulate(Keyed(xs[..s], key), first, step), key(xs[s]), xs[s], first, step)
  {
    assert xs[..s + 1] == xs[..s] + [xs[s]];
    KeyedSnoc(xs[..s], xs[s], key);
    AccumulateSnoc(Keyed(xs[..s], key), (key(xs[s]), xs[s]), first, step);
  }

  /** The accumulation over a prefix one element longer. */
  lemma AccumulatePrefixNext<K, V, R>(xs: seq<V>, s: nat, p: V -> bool, key: V -> K, first: V -> R, step: (R, V) -> R)
    requires s < |xs|
    ensures Accumulate(Keyed(Filter(xs[..s + 1], p), key), first, step)
         == if p(xs[s]) then AddAcc(Accumulate(Keyed(Filter(xs[..s], p), key), first, step), key(xs[s]), xs[s], first, step)
            else Accumulate(Keyed(Filter(xs[..s], p), key), first, step)
  {
    assert xs[..s + 1] == xs[..s] + [xs[s]];
    AccumulateFilterSnoc(xs[..s], xs[s], p, key, first, step);
  }

}
