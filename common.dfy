/** Shared vocabulary: optional values, the string order used wherever the
    application sorts with `localeCompare`, a stable sort, subsequences and
    the decimal rendering of numbers inside template strings. */
module Common {

  datatype Option<T> = None | Some(value: T) {
    /** The value, or the default when there is none. */
    function GetOr(default: T): T
    {
      if Some? then value else default
    }
  }

  function Min(a: int, b: int): int { if a <= b then a else b }

  // ---------------------------------------------------------------------------
  // String order. `localeCompare` is modelled by the code-point lexicographic
  // order; every property proved about sorting relies only on the facts that
  // StrLe is a total order (the four lemmas below).
  // ---------------------------------------------------------------------------

  predicate StrLe(a: string, b: string)
    decreases |a|
  {
    |a| == 0 || (|b| > 0 && (a[0] < b[0] || (a[0] == b[0] && StrLe(a[1..], b[1..]))))
  }

  lemma {:induction false} StrLeReflexive(a: string)
    ensures StrLe(a, a)
    decreases |a|
  {
    if |a| > 0 { StrLeReflexive(a[1..]); }
  }

  lemma {:induction false} StrLeTotal(a: string, b: string)
    ensures StrLe(a, b) || StrLe(b, a)
    decreases |a|
  {
    if |a| > 0 && |b| > 0 && a[0] == b[0] { StrLeTotal(a[1..], b[1..]); }
  }

  lemma {:induction false} StrLeTransitive(a: string, b: string, c: string)
    requires StrLe(a, b) && StrLe(b, c)
    ensures StrLe(a, c)
    decreases |a|
  {
    if |a| > 0 && a[0] == b[0] && b[0] == c[0] { StrLeTransitive(a[1..], b[1..], c[1..]); }
  }

  lemma {:induction false} StrLeAntisymmetric(a: string, b: string)
    requires StrLe(a, b) && StrLe(b, a)
    ensures a == b
    decreases |a|
  {
    if |a| > 0 {
      StrLeAntisymmetric(a[1..], b[1..]);
      assert a == [a[0]] + a[1..] && b == [b[0]] + b[1..];
    }
  }

  // ---------------------------------------------------------------------------
  // Stable sort by a string key (`Array.prototype.sort` with a
  // `localeCompare` comparator, which is stable).
  // ---------------------------------------------------------------------------

  ghost predicate SortedBy<T>(xs: seq<T>, key: T -> string)
  {
    forall i, j :: 0 <= i < j < |xs| ==> StrLe(key(xs[i]), key(xs[j]))
  }

  /** Places x before the first element whose key is not smaller than x's. */
  function Insert<T>(x: T, s: seq<T>, key: T -> string): (r: seq<T>)
    ensures |r| == |s| + 1
    ensures multiset(r) == multiset(s) + multiset{x}
  {
    if |s| == 0 then [x]
    else if StrLe(key(x), key(s[0])) then [x] + s
    else
      assert s == [s[0]] + s[1..];
      [s[0]] + Insert(x, s[1..], key)
  }

  /** Sorting loses no element... */
  lemma SortedFrom<T>(xs: seq<T>, key: T -> string, x: T)
    requires x in SortBy(xs, key)
    ensures exists i :: 0 <= i < |xs| && xs[i] == x
  {
    assert x in multiset(SortBy(xs, key));
    assert x in multiset(xs);
  }

  /** ...and adds none. */
  lemma SortedTo<T>(xs: seq<T>, key: T -> string, i: nat)
    requires i < |xs|
    ensures xs[i] in SortBy(xs, key)
  {
    assert xs[i] in multiset(xs);
    assert xs[i] in multiset(SortBy(xs, key));
  }

  lemma {:induction false} InsertSorted<T>(x: T, s: seq<T>, key: T -> string)
    requires SortedBy(s, key)
    ensures SortedBy(Insert(x, s, key), key)
  {
    if |s| > 0 && !StrLe(key(x), key(s[0])) {
      InsertSorted(x, s[1..], key);
      InsertBehind(x, s, key);
    } else if |s| > 0 {
      InsertInFront(x, s, key);
    }
  }

  /** x goes first: its key is at most the smallest. */
  lemma InsertInFront<T>(x: T, s: seq<T>, key: T -> string)
    requires |s| > 0 && SortedBy(s, key) && StrLe(key(x), key(s[0]))
    ensures SortedBy([x] + s, key)
  {
    var r := [x] + s;
    forall i, j | 0 <= i < j < |r| ensures StrLe(key(r[i]), key(r[j])) {
      if i == 0 {
        if j > 1 { StrLeTransitive(key(x), key(s[0]), key(s[j - 1])); }
      } else {
        assert r[i] == s[i - 1] && r[j] == s[j - 1];
      }
    }
  }

  /** x goes behind the head, which stays the smallest. */
  lemma InsertBehind<T>(x: T, s: seq<T>, key: T -> string)
    requires |s| > 0 && SortedBy(s, key) && !StrLe(key(x), key(s[0]))
    requires SortedBy(Insert(x, s[1..], key), key)
    ensures SortedBy(Insert(x, s, key), key)
  {
    StrLeTotal(key(x), key(s[0]));
    var t := Insert(x, s[1..], key);
    assert Insert(x, s, key) == [s[0]] + t;
    forall j | 0 <= j < |t| ensures StrLe(key(s[0]), key(t[j])) {
      assert t[j] in multiset(s[1..]) + multiset{x};
      if t[j] != x {
        var m :| 0 <= m < |s[1..]| && s[1..][m] == t[j];
        assert s[m + 1] == t[j];
      }
    }
    var r := [s[0]] + t;
    forall i, j | 0 <= i < j < |r| ensures StrLe(key(r[i]), key(r[j])) {
      if i > 0 {
        assert r[i] == t[i - 1] && r[j] == t[j - 1];
      }
    }
  }

  lemma ConsMultiset<T>(xs: seq<T>)
    requires |xs| > 0
    ensures multiset(xs) == multiset(xs[1..]) + multiset{xs[0]}
  {
    assert xs == [xs[0]] + xs[1..];
  }

  /** Insertion sort; the result is ordered by key and a permutation of xs. */
  function SortBy<T>(xs: seq<T>, key: T -> string): (r: seq<T>)
    ensures |r| == |xs| && multiset(r) == multiset(xs)
    ensures SortedBy(r, key)
  {
    if |xs| == 0 then []
    else
      var t := SortBy(xs[1..], key);
      InsertSorted(xs[0], t, key);
      ConsMultiset(xs);
      Insert(xs[0], t, key)
  }

  /** The elements of xs whose key is k, in their order in xs. */
  function WithKey<T>(xs: seq<T>, key: T -> string, k: string): seq<T>
  {
    if |xs| == 0 then []
    else (if key(xs[0]) == k then [xs[0]] else []) + WithKey(xs[1..], key, k)
  }

  lemma WithKeyCons<T>(a: T, t: seq<T>, key: T -> string, k: string)
    ensures WithKey([a] + t, key, k) == (if key(a) == k then [a] else []) + WithKey(t, key, k)
  {
    assert ([a] + t)[0] == a && ([a] + t)[1..] == t;
  }

  lemma {:induction false} InsertWithKey<T>(x: T, s: seq<T>, key: T -> string, k: string)
    requires SortedBy(s, key)
    ensures WithKey(Insert(x, s, key), key, k)
         == (if key(x) == k then [x] else []) + WithKey(s, key, k)
  {
    if |s| == 0 {
      WithKeyCons(x, s, key, k);
      assert [x] + s == [x];
    } else if StrLe(key(x), key(s[0])) {
      WithKeyCons(x, s, key, k);
    } else {
      var t := Insert(x, s[1..], key);
      assert Insert(x, s, key) == [s[0]] + t;
      assert SortedBy(s[1..], key) by {
        forall i, j | 0 <= i < j < |s[1..]| ensures StrLe(key(s[1..][i]), key(s[1..][j])) {
          assert s[1..][i] == s[i + 1] && s[1..][j] == s[j + 1];
        }
      }
      InsertWithKey(x, s[1..], key, k);
      WithKeyCons(s[0], t, key, k);
      WithKeyCons(s[0], s[1..], key, k);
      assert [s[0]] + s[1..] == s;
      StrLeReflexive(k);
    }
  }

  /** Sorting is stable: elements with equal keys keep their relative order. */
  lemma {:induction false} SortByStable<T>(xs: seq<T>, key: T -> string, k: string)
    ensures WithKey(SortBy(xs, key), key, k) == WithKey(xs, key, k)
  {
    if |xs| > 0 {
      SortByStable(xs[1..], key, k);
      InsertWithKey(xs[0], SortBy(xs[1..], key), key, k);
    }
  }

  // ---------------------------------------------------------------------------
  // Sums of a weight over a sequence, starting from 0.
  // ---------------------------------------------------------------------------

  function SumOf<T>(xs: seq<T>, w: T -> int): int
  {
    if |xs| == 0 then 0 else w(xs[0]) + SumOf(xs[1..], w)
  }

  function One<T>(x: T): int { 1 }

  lemma {:induction false} SumOfAppend<T>(a: seq<T>, b: seq<T>, w: T -> int)
    ensures SumOf(a + b, w) == SumOf(a, w) + SumOf(b, w)
  {
    if |a| == 0 {
      assert a + b == b;
    } else {
      SumOfAppend(a[1..], b, w);
      assert (a + b)[1..] == a[1..] + b;
    }
  }

  lemma {:induction false} SumOfOne<T>(xs: seq<T>)
    ensures SumOf(xs, One) == |xs|
  {
    if |xs| > 0 { SumOfOne(xs[1..]); }
  }

  lemma {:induction false} InsertSum<T>(x: T, s: seq<T>, key: T -> string, w: T -> int)
    ensures SumOf(Insert(x, s, key), w) == w(x) + SumOf(s, w)
  {
    if |s| > 0 && !StrLe(key(x), key(s[0])) {
      InsertSum(x, s[1..], key, w);
      assert ([s[0]] + Insert(x, s[1..], key))[1..] == Insert(x, s[1..], key);
    } else if |s| > 0 {
      assert ([x] + s)[1..] == s;
    }
  }

  /** Sorting does not change a sum. */
  lemma {:induction false} SortBySum<T>(xs: seq<T>, key: T -> string, w: T -> int)
    ensures SumOf(SortBy(xs, key), w) == SumOf(xs, w)
  {
    if |xs| > 0 {
      SortBySum(xs[1..], key, w);
      InsertSum(xs[0], SortBy(xs[1..], key), key, w);
    }
  }

  // ---------------------------------------------------------------------------
  // Subsequences (the order-preservation half of `Array.prototype.filter`).
  // ---------------------------------------------------------------------------

  predicate IsSubsequence<T(==)>(r: seq<T>, s: seq<T>)
    decreases |s|
  {
    |r| == 0 || (|s| > 0 && ((r[0] == s[0] && IsSubsequence(r[1..], s[1..])) || IsSubsequence(r, s[1..])))
  }

  lemma {:induction false} SubsequenceExtend<T>(c: seq<T>, b: seq<T>, d: seq<T>)
    requires IsSubsequence(c, d)
    ensures IsSubsequence(c, b + d)
    decreases |b|
  {
    if |b| > 0 {
      SubsequenceExtend(c, b[1..], d);
      assert (b + d)[1..] == b[1..] + d;
    } else {
      assert b + d == d;
    }
  }

  /** Subsequences concatenate. */
  lemma {:induction false} SubsequenceAppend<T>(a: seq<T>, b: seq<T>, c: seq<T>, d: seq<T>)
    requires IsSubsequence(a, b) && IsSubsequence(c, d)
    ensures IsSubsequence(a + c, b + d)
    decreases |b|
  {
    if |a| == 0 {
      assert a + c == c;
      SubsequenceExtend(c, b, d);
    } else {
      assert (b + d)[1..] == b[1..] + d;
      if a[0] == b[0] && IsSubsequence(a[1..], b[1..]) {
        SubsequenceAppend(a[1..], b[1..], c, d);
        assert (a + c)[1..] == a[1..] + c;
      } else {
        SubsequenceAppend(a, b[1..], c, d);
      }
    }
  }

  /** The elements of xs that satisfy p, in order. */
  function Filter<T>(xs: seq<T>, p: T -> bool): seq<T>
  {
    if |xs| == 0 then [] else (if p(xs[0]) then [xs[0]] else []) + Filter(xs[1..], p)
  }

  /** A filter keeps, in order, exactly the elements that pass. */
  lemma {:induction false} FilterSpec<T>(xs: seq<T>, p: T -> bool)
    ensures IsSubsequence(Filter(xs, p), xs)
    ensures forall x :: x in Filter(xs, p) <==> x in xs && p(x)
  {
    if |xs| > 0 {
      FilterSpec(xs[1..], p);
      var rest := Filter(xs[1..], p);
      if p(xs[0]) {
        assert ([xs[0]] + rest)[1..] == rest;
      } else {
        assert [] + rest == rest;
      }
      assert forall x :: x in xs <==> x == xs[0] || x in xs[1..];
    }
  }

  /** A filter keeps each passing element as often as it occurs. */
  lemma {:induction false} FilterCount<T>(xs: seq<T>, p: T -> bool)
    ensures forall x :: multiset(Filter(xs, p))[x] == if p(x) then multiset(xs)[x] else 0
  {
    if |xs| > 0 {
      FilterCount(xs[1..], p);
      assert xs == [xs[0]] + xs[1..];
    }
  }

  lemma {:induction false} FilterAppend<T>(a: seq<T>, b: seq<T>, p: T -> bool)
    ensures Filter(a + b, p) == Filter(a, p) + Filter(b, p)
  {
    if |a| > 0 {
      FilterAppend(a[1..], b, p);
      assert (a + b)[1..] == a[1..] + b;
    } else {
      assert a + b == b;
    }
  }

  lemma FilterSnoc<T>(xs: seq<T>, x: T, p: T -> bool)
    ensures Filter(xs + [x], p) == Filter(xs, p) + (if p(x) then [x] else [])
  {
    FilterAppend(xs, [x], p);
    assert [x][1..] == [];
  }

  lemma {:induction false} DistinctCount<T>(a: seq<T>, x: T)
    requires forall i, j :: 0 <= i < j < |a| ==> a[i] != a[j]
    ensures multiset(a)[x] <= 1
  {
    if |a| > 0 {
      assert a == [a[0]] + a[1..];
      DistinctCount(a[1..], x);
      if x == a[0] {
        assert x !in a[1..];
      }
    }
  }

  lemma TwoEqualCount<T>(b: seq<T>, i: nat, j: nat)
    requires i < j < |b| && b[i] == b[j]
    ensures multiset(b)[b[i]] >= 2
  {
    assert b == b[..j] + b[j..];
    assert b[i] in b[..j] && b[j] in b[j..];
  }

  lemma {:induction false} CountTwoIndices<T>(b: seq<T>, x: T)
    requires multiset(b)[x] >= 2
    ensures exists i, j :: 0 <= i < j < |b| && b[i] == x && b[j] == x
  {
    var p, last := b[..|b| - 1], b[|b| - 1];
    assert b == p + [last];
    if last == x {
      assert x in multiset(p);
      var i :| 0 <= i < |p| && p[i] == x;
      assert b[i] == x && b[|b| - 1] == x;
    } else {
      CountTwoIndices(p, x);
      var i, j :| 0 <= i < j < |p| && p[i] == x && p[j] == x;
      assert b[i] == x && b[j] == x;
    }
  }

  /** Two positions of a sequence stay two positions in any permutation of it. */
  lemma PermutedPair<T>(a: seq<T>, b: seq<T>, i: nat, j: nat)
    requires multiset(a) == multiset(b) && i < j < |a|
    ensures exists p, q :: 0 <= p < |b| && 0 <= q < |b| && p != q && b[p] == a[i] && b[q] == a[j]
  {
    if a[i] == a[j] {
      TwoEqualCount(a, i, j);
      CountTwoIndices(b, a[i]);
    } else {
      assert a[i] in multiset(b) && a[j] in multiset(b);
      var p :| 0 <= p < |b| && b[p] == a[i];
      var q :| 0 <= q < |b| && b[q] == a[j];
    }
  }

  /** A permutation of a sequence whose elements have distinct keys has
      distinct keys too. */
  lemma PermutationDistinctBy<T, K>(a: seq<T>, b: seq<T>, f: T -> K)
    requires multiset(a) == multiset(b)
    requires forall i, j :: 0 <= i < j < |a| ==> f(a[i]) != f(a[j])
    ensures forall i, j :: 0 <= i < j < |b| ==> f(b[i]) != f(b[j])
  {
    forall i, j | 0 <= i < j < |b| ensures f(b[i]) != f(b[j]) {
      if f(b[i]) == f(b[j]) {
        assert b[i] in multiset(a) && b[j] in multiset(a);
        var p :| 0 <= p < |a| && a[p] == b[i];
        var q :| 0 <= q < |a| && a[q] == b[j];
        if p == q {
          TwoEqualCount(b, i, j);
          DistinctCount(a, b[i]);
        }
      }
    }
  }

  function Flatten<T>(ss: seq<seq<T>>): seq<T>
  {
    if |ss| == 0 then [] else ss[0] + Flatten(ss[1..])
  }

  lemma {:induction false} FlattenAppend<T>(a: seq<seq<T>>, b: seq<seq<T>>)
    ensures Flatten(a + b) == Flatten(a) + Flatten(b)
  {
    if |a| > 0 {
      FlattenAppend(a[1..], b);
      assert (a + b)[1..] == a[1..] + b;
    } else {
      assert a + b == b;
    }
  }

  // ---------------------------------------------------------------------------
  // Consecutive slices of at most n elements (`xs.slice(i, i + n)` for
  // i = 0, n, 2n, ...).
  // ---------------------------------------------------------------------------

  function Chunks<T>(xs: seq<T>, n: nat): seq<seq<T>>
    requires n >= 1
    decreases |xs|
  {
    if |xs| == 0 then [] else [xs[..Min(n, |xs|)]] + Chunks(xs[Min(n, |xs|)..], n)
  }

  /** Every chunk is non-empty and at most n long, all but the last are
      exactly n long, and together they are xs. */
  lemma {:induction false} ChunksShape<T>(xs: seq<T>, n: nat)
    requires n >= 1
    ensures Flatten(Chunks(xs, n)) == xs
    ensures forall i :: 0 <= i < |Chunks(xs, n)| ==> 1 <= |Chunks(xs, n)[i]| <= n
    ensures forall i :: 0 <= i < |Chunks(xs, n)| - 1 ==> |Chunks(xs, n)[i]| == n
    decreases |xs|
  {
    if |xs| > 0 {
      var m := Min(n, |xs|);
      ChunksShape(xs[m..], n);
      var cs := Chunks(xs, n);
      assert cs[1..] == Chunks(xs[m..], n);
      assert xs == xs[..m] + xs[m..];
      if |xs| <= n {
        assert xs[m..] == [];
        assert Flatten(cs) == xs[..m] + Flatten([]);
      }
    }
  }

  lemma DropSlice<T>(xs: seq<T>, n: nat, a: nat, b: nat)
    requires n <= |xs| && a <= b <= |xs| - n
    ensures xs[n..][a..b] == xs[n + a..n + b]
  {
  }

  /** Each chunk is a slice of xs. */
  lemma {:induction false} ChunkIsSlice<T>(xs: seq<T>, n: nat, j: nat)
    requires n >= 1 && j < |Chunks(xs, n)|
    ensures exists lo, hi :: 0 <= lo <= hi <= |xs| && Chunks(xs, n)[j] == xs[lo..hi]
    decreases |xs|
  {
    var m := Min(n, |xs|);
    var cs := Chunks(xs, n);
    assert cs == [xs[..m]] + Chunks(xs[m..], n);
    if j == 0 {
      assert cs[0] == xs[0..m];
    } else {
      ChunkIsSlice(xs[m..], n, j - 1);
      var lo, hi :| 0 <= lo <= hi <= |xs[m..]| && Chunks(xs[m..], n)[j - 1] == xs[m..][lo..hi];
      assert cs[j] == Chunks(xs[m..], n)[j - 1];
      DropSlice(xs, m, lo, hi);
      assert cs[j] == xs[m + lo..m + hi];
    }
  }

  /** A slice of a sorted sequence is sorted. */
  lemma SliceSorted<T>(xs: seq<T>, lo: nat, hi: nat, key: T -> string)
    requires lo <= hi <= |xs| && SortedBy(xs, key)
    ensures SortedBy(xs[lo..hi], key)
  {
    var s := xs[lo..hi];
    forall a, b | 0 <= a < b < |s| ensures StrLe(key(s[a]), key(s[b])) {
      assert s[a] == xs[lo + a] && s[b] == xs[lo + b];
    }
  }

  lemma SliceSubMultiset<T>(xs: seq<T>, lo: nat, hi: nat)
    requires lo <= hi <= |xs|
    ensures multiset(xs[lo..hi]) <= multiset(xs)
  {
    assert xs == xs[..lo] + xs[lo..hi] + xs[hi..];
  }

  /** A chunk of a sorted sequence is sorted and drawn from it. */
  lemma ChunkSortedSubset<T>(xs: seq<T>, n: nat, j: nat, key: T -> string)
    requires n >= 1 && j < |Chunks(xs, n)| && SortedBy(xs, key)
    ensures SortedBy(Chunks(xs, n)[j], key)
    ensures multiset(Chunks(xs, n)[j]) <= multiset(xs)
  {
    ChunkIsSlice(xs, n, j);
    var lo, hi :| 0 <= lo <= hi <= |xs| && Chunks(xs, n)[j] == xs[lo..hi];
    SliceSorted(xs, lo, hi, key);
    SliceSubMultiset(xs, lo, hi);
  }

  // ---------------------------------------------------------------------------
  // Decimal rendering of numbers, as `${n}` does for integers.
  // ---------------------------------------------------------------------------

  function DigitChar(d: nat): char
    requires d < 10
  {
    (48 + d) as char
  }

  function NatToString(n: nat): (r: string)
    decreases n
  {
    if n < 10 then [DigitChar(n)] else NatToString(n / 10) + [DigitChar(n % 10)]
  }

  function IntToString(i: int): string
  {
    if i < 0 then "-" + NatToString(-i) else NatToString(i)
  }
}
