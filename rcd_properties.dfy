/** What `groupBySharedRcd` promises, proved about the model in RcdGrouping:
    group sizes, where every circuit ends up (exactly once when ids are
    distinct), pins winning over automatic buckets, key agreement inside an
    automatic group, the group ids, the shared requirement and the order of
    the result. */
module RcdGroupingProperties {
  import opened Common
  import opened Grouping
  import opened RcdGrouping

  /** All circuit ids of a list of groups, group after group. */
  function AllIds(gs: seq<RcdGroup>): seq<string>
  {
    if |gs| == 0 then [] else gs[0].circuitIds + AllIds(gs[1..])
  }

  lemma {:induction false} AllIdsAppend(a: seq<RcdGroup>, b: seq<RcdGroup>)
    ensures AllIds(a + b) == AllIds(a) + AllIds(b)
  {
    if |a| == 0 {
      assert a + b == b;
    } else {
      assert (a + b)[1..] == a[1..] + b;
      assert (a + b)[0] == a[0];
      AllIdsAppend(a[1..], b);
    }
  }

  // ---------------------------------------------------------------------------
  // One bucket.
  // ---------------------------------------------------------------------------

  /** Together the chunks hold every member once, in order. */
  lemma {:induction false} ChunkGroupsIds(key: string, xs: seq<Candidate>, n: nat, k: nat, hasManual: bool, resolve: Resolver)
    requires n >= 1
    ensures AllIds(ChunkGroups(key, xs, n, k, hasManual, resolve)) == IdsOf(xs)
    decreases |xs|
  {
    if |xs| > 0 {
      var m := Min(n, |xs|);
      var front, back := xs[..m], xs[m..];
      assert front + back == xs;
      ChunkGroupsHead(key, xs, n, k, hasManual, resolve);
      ChunkGroupsIds(key, back, n, k + 1, hasManual, resolve);
      IdsOfAppend(front, back);
    }
  }

  lemma ChunkGroupsHead(key: string, xs: seq<Candidate>, n: nat, k: nat, hasManual: bool, resolve: Resolver)
    requires n >= 1 && |xs| > 0
    ensures AllIds(ChunkGroups(key, xs, n, k, hasManual, resolve))
         == IdsOf(xs[..Min(n, |xs|)]) + AllIds(ChunkGroups(key, xs[Min(n, |xs|)..], n, k + 1, hasManual, resolve))
  {
    var m := Min(n, |xs|);
    var g0 := BuildGroup(ChunkId(key, k), xs[..m], hasManual, resolve);
    var rest := ChunkGroups(key, xs[m..], n, k + 1, hasManual, resolve);
    var gs := ChunkGroups(key, xs, n, k, hasManual, resolve);
    assert gs == [g0] + rest;
    assert gs[0] == g0 && gs[1..] == rest;
  }

  /** g is the group built from the members ms, at most n of them sorted by
      circuit id, under the id of some chunk of `key`. */
  ghost predicate GroupOf(g: RcdGroup, key: string, ms: seq<Candidate>, n: nat, hasManual: bool, resolve: Resolver)
  {
    && 1 <= |ms| <= n
    && SortedBy(ms, ByCircuitId)
    && exists j: nat :: g == BuildGroup(ChunkId(key, j), ms, hasManual, resolve)
  }

  /** A group of `key` whose members are all drawn from `pool`. */
  ghost predicate ChunkOf(g: RcdGroup, key: string, pool: seq<Candidate>, n: nat, hasManual: bool, resolve: Resolver)
  {
    exists ms :: GroupOf(g, key, ms, n, hasManual, resolve) && multiset(ms) <= multiset(pool)
  }

  /** Group j of a bucket: named `ChunkId(key, j)`, full unless it is the
      last, and made of members of the bucket sorted by circuit id. */
  lemma SplitGroupAt(key: string, members: seq<Candidate>, n: nat, hasManual: bool, resolve: Resolver, j: nat)
    requires n >= 1 && j < |SplitGroups(key, members, n, hasManual, resolve)|
    ensures SplitGroups(key, members, n, hasManual, resolve)[j].id == ChunkId(key, j)
    ensures j < |SplitGroups(key, members, n, hasManual, resolve)| - 1 ==>
              |SplitGroups(key, members, n, hasManual, resolve)[j].circuitIds| == n
    ensures ChunkOf(SplitGroups(key, members, n, hasManual, resolve)[j], key, members, n, hasManual, resolve)
  {
    var sorted := SortBy(members, ByCircuitId);
    var gs := SplitGroups(key, members, n, hasManual, resolve);
    ChunksShape(sorted, n);
    ChunkGroupsAt(key, sorted, n, 0, hasManual, resolve, j, j);
    var chunk := Chunks(sorted, n)[j];
    IdsOfIndex(chunk);
    ChunkSortedSubset(sorted, n, j, ByCircuitId);
    assert gs[j] == BuildGroup(ChunkId(key, j), chunk, hasManual, resolve);
    assert GroupOf(gs[j], key, chunk, n, hasManual, resolve);
  }

  /** A slice sequence that fits in one chunk gives one group, numbered 0. */
  lemma ChunkGroupsSingle(key: string, xs: seq<Candidate>, n: nat, hasManual: bool, resolve: Resolver)
    requires n >= 1 && 0 < |xs| <= n
    ensures ChunkGroups(key, xs, n, 0, hasManual, resolve) == [BuildGroup(ChunkId(key, 0), xs, hasManual, resolve)]
  {
    assert xs[..Min(n, |xs|)] == xs;
    assert xs[Min(n, |xs|)..] == [];
  }

  /** A bucket that fits is one group named `rcd-group-<key>`. */
  lemma SplitGroupsSingle(key: string, members: seq<Candidate>, n: nat, hasManual: bool, resolve: Resolver)
    requires n >= 1 && 0 < |members| <= n
    ensures SplitGroups(key, members, n, hasManual, resolve)
         == [BuildGroup("rcd-group-" + key, SortBy(members, ByCircuitId), hasManual, resolve)]
  {
    ChunkGroupsSingle(key, SortBy(members, ByCircuitId), n, hasManual, resolve);
  }

  /** The groups of one bucket (`splitIntoChunks`): one group named
      `rcd-group-<key>` when the bucket fits, chunk k named
      `rcd-group-<key>-<k>` otherwise; every chunk but the last is full; the
      circuit ids are the members' ids sorted. */
  lemma SplitGroupsShape(key: string, members: seq<Candidate>, n: nat, hasManual: bool, resolve: Resolver)
    requires n >= 1
    ensures var gs := SplitGroups(key, members, n, hasManual, resolve);
      && AllIds(gs) == IdsOf(SortBy(members, ByCircuitId))
      && (0 < |members| <= n ==> gs == [BuildGroup("rcd-group-" + key, SortBy(members, ByCircuitId), hasManual, resolve)])
      && (forall j :: 0 <= j < |gs| ==> gs[j].id == ChunkId(key, j))
      && (forall j :: 0 <= j < |gs| - 1 ==> |gs[j].circuitIds| == n)
      && (forall j :: 0 <= j < |gs| ==> ChunkOf(gs[j], key, members, n, hasManual, resolve))
  {
    ChunkGroupsIds(key, SortBy(members, ByCircuitId), n, 0, hasManual, resolve);
    if 0 < |members| <= n {
      SplitGroupsSingle(key, members, n, hasManual, resolve);
    }
    forall j | 0 <= j < |SplitGroups(key, members, n, hasManual, resolve)| {
      SplitGroupAt(key, members, n, hasManual, resolve, j);
    }
  }

  /** What `buildGroup` promises: the group carries the given id, the board of
      its first member, the members' ids in order and the manual flag; the
      shared requirement is the first member's with the rated current raised
      to the largest `ratedCurrent ?? 40` of the members; the shared device is
      the first device the resolver returns for it, or none exactly when the
      resolver returns nothing. */
  lemma BuildGroupFacts(id: string, ms: seq<Candidate>, hasManual: bool, resolve: Resolver)
    requires |ms| > 0
    ensures var g := BuildGroup(id, ms, hasManual, resolve);
      && g.id == id
      && g.verteilerId == ms[0].circuit.verteilerId
      && g.hasManualOverride == hasManual
      && |g.circuitIds| == |ms|
      && (forall t :: 0 <= t < |ms| ==> g.circuitIds[t] == ms[t].circuit.id)
      && g.sharedRcdRequirement.ratedCurrent.Some?
      && g.sharedRcdRequirement == ms[0].rcdReq.(ratedCurrent := g.sharedRcdRequirement.ratedCurrent)
      && (forall t :: 0 <= t < |ms| ==> RatedOf(ms[t]) <= g.sharedRcdRequirement.ratedCurrent.value)
      && (exists t :: 0 <= t < |ms| && RatedOf(ms[t]) == g.sharedRcdRequirement.ratedCurrent.value)
      && (g.sharedRcdDevice.None? <==> |resolve([g.sharedRcdRequirement])| == 0)
      && (g.sharedRcdDevice.Some? ==> g.sharedRcdDevice.value == resolve([g.sharedRcdRequirement])[0])
  {
    IdsOfIndex(ms);
    MaxRatedIsMaximum(ms);
  }

  // ---------------------------------------------------------------------------
  // A list of buckets.
  // ---------------------------------------------------------------------------

  /** g is a group of some key k whose members kvs all pairs with k. */
  ghost predicate DrawnFrom<K(!new)>(g: RcdGroup, kvs: seq<(K, Candidate)>, text: K -> string, n: nat, hasManual: bool, resolve: Resolver)
  {
    exists k: K, ms: seq<Candidate> :: GroupOf(g, text(k), ms, n, hasManual, resolve) && MembersIn(k, ms, kvs)
  }

  ghost predicate MembersIn<K>(k: K, ms: seq<Candidate>, kvs: seq<(K, Candidate)>)
  {
    forall t :: 0 <= t < |ms| ==> (k, ms[t]) in kvs
  }

  ghost predicate BucketsWithin<K>(b: seq<(K, seq<Candidate>)>, kvs: seq<(K, Candidate)>)
  {
    forall i :: 0 <= i < |b| ==> forall v :: v in b[i].1 ==> (b[i].0, v) in kvs
  }

  ghost predicate AllDrawn<K(!new)>(gs: seq<RcdGroup>, kvs: seq<(K, Candidate)>, text: K -> string, n: nat, hasManual: bool,
                                   resolve: Resolver)
  {
    forall i :: 0 <= i < |gs| ==> DrawnFrom(gs[i], kvs, text, n, hasManual, resolve)
  }

  lemma AllDrawnAppend<K(!new)>(a: seq<RcdGroup>, b: seq<RcdGroup>, kvs: seq<(K, Candidate)>, text: K -> string, n: nat,
                                hasManual: bool, resolve: Resolver)
    requires AllDrawn(a, kvs, text, n, hasManual, resolve) && AllDrawn(b, kvs, text, n, hasManual, resolve)
    ensures AllDrawn(a + b, kvs, text, n, hasManual, resolve)
  {
    forall i | 0 <= i < |a + b| ensures DrawnFrom((a + b)[i], kvs, text, n, hasManual, resolve) {
      if i < |a| {
        assert (a + b)[i] == a[i];
      } else {
        assert (a + b)[i] == b[i - |a|];
      }
    }
  }

  /** Every group of the buckets of kvs is built from values that kvs pairs
      with the group's key. */
  lemma SplitBucketsFrom<K(!new)>(kvs: seq<(K, Candidate)>, text: K -> string, n: nat, hasManual: bool, resolve: Resolver)
    requires n >= 1
    ensures AllDrawn(SplitBuckets(Buckets(kvs), text, n, hasManual, resolve), kvs, text, n, hasManual, resolve)
  {
    var b := Buckets(kvs);
    BucketsValues(kvs);
    forall i | 0 <= i < |b| ensures forall v :: v in b[i].1 ==> (b[i].0, v) in kvs {
      ValuesForMembers(kvs, b[i].0);
    }
    BucketListFrom(kvs, b, text, n, hasManual, resolve);
  }

  lemma {:induction false} BucketListFrom<K(!new)>(kvs: seq<(K, Candidate)>, b: seq<(K, seq<Candidate>)>, text: K -> string,
                                            n: nat, hasManual: bool, resolve: Resolver)
    requires n >= 1 && BucketsWithin(b, kvs)
    ensures AllDrawn(SplitBuckets(b, text, n, hasManual, resolve), kvs, text, n, hasManual, resolve)
  {
    if |b| > 0 {
      var front, last := b[..|b| - 1], b[|b| - 1];
      assert BucketsWithin(front, kvs) by {
        forall i | 0 <= i < |front| ensures front[i] == b[i] { }
      }
      assert forall v :: v in last.1 ==> (last.0, v) in kvs;
      BucketListFrom(kvs, front, text, n, hasManual, resolve);
      if |last.1| > 0 {
        var tail := SplitGroups(text(last.0), last.1, n, hasManual, resolve);
        forall j | 0 <= j < |tail| ensures DrawnFrom(tail[j], kvs, text, n, hasManual, resolve) {
          TailDrawn(kvs, last, text, n, hasManual, resolve, j);
        }
        AllDrawnAppend(SplitBuckets(front, text, n, hasManual, resolve), tail, kvs, text, n, hasManual, resolve);
      } else {
        AllDrawnAppend(SplitBuckets(front, text, n, hasManual, resolve), [], kvs, text, n, hasManual, resolve);
      }
    }
  }
  /** The key and the members of a group drawn from kvs. */
  lemma PickDrawn<K(!new)>(g: RcdGroup, kvs: seq<(K, Candidate)>, text: K -> string, n: nat, hasManual: bool, resolve: Resolver)
    returns (k: K, ms: seq<Candidate>)
    requires DrawnFrom(g, kvs, text, n, hasManual, resolve)
    ensures GroupOf(g, text(k), ms, n, hasManual, resolve)
    ensures forall t :: 0 <= t < |ms| ==> (k, ms[t]) in kvs
  {
    k, ms :| GroupOf(g, text(k), ms, n, hasManual, resolve) && MembersIn(k, ms, kvs);
  }

  lemma TailDrawn<K(!new)>(kvs: seq<(K, Candidate)>, last: (K, seq<Candidate>), text: K -> string,
                     n: nat, hasManual: bool, resolve: Resolver, j: nat)
    requires n >= 1 && |last.1| > 0 && j < |SplitGroups(text(last.0), last.1, n, hasManual, resolve)|
    requires forall v :: v in last.1 ==> (last.0, v) in kvs
    ensures DrawnFrom(SplitGroups(text(last.0), last.1, n, hasManual, resolve)[j], kvs, text, n, hasManual, resolve)
  {
    var g := SplitGroups(text(last.0), last.1, n, hasManual, resolve)[j];
    SplitGroupAt(text(last.0), last.1, n, hasManual, resolve, j);
    var ms :| GroupOf(g, text(last.0), ms, n, hasManual, resolve) && multiset(ms) <= multiset(last.1);
    forall t | 0 <= t < |ms| ensures (last.0, ms[t]) in kvs {
      assert ms[t] in multiset(ms);
    }
    assert MembersIn(last.0, ms, kvs);
  }

  // ---------------------------------------------------------------------------
  // Where the pairs come from.
  // ---------------------------------------------------------------------------

  ghost predicate DistinctIds(cs: seq<DerivedCircuit>)
  {
    forall i, j :: 0 <= i < j < |cs| ==> cs[i].id != cs[j].id
  }

  /** `circuitById` holds exactly the ids of the circuits, each mapped to a
      circuit of the list with that id; with distinct ids, to that circuit. */
  lemma {:induction false} IndexByIdSpec(cs: seq<DerivedCircuit>)
    ensures forall k :: k in IndexById(cs) <==> exists i :: 0 <= i < |cs| && cs[i].id == k
    ensures forall k :: k in IndexById(cs) ==> IndexById(cs)[k] in cs && IndexById(cs)[k].id == k
    ensures DistinctIds(cs) ==> forall i :: 0 <= i < |cs| ==> IndexById(cs)[cs[i].id] == cs[i]
  {
    IndexByIdKeys(cs);
    IndexByIdValues(cs);
    if DistinctIds(cs) {
      IndexByIdDistinct(cs);
    }
  }

  lemma {:induction false} IndexByIdKeys(cs: seq<DerivedCircuit>)
    ensures forall k :: k in IndexById(cs) <==> exists i :: 0 <= i < |cs| && cs[i].id == k
  {
    if |cs| > 0 {
      var front, c := cs[..|cs| - 1], cs[|cs| - 1];
      IndexByIdKeys(front);
      forall k ensures k in IndexById(cs) <==> exists i :: 0 <= i < |cs| && cs[i].id == k {
        if k in IndexById(front) {
          var i :| 0 <= i < |front| && front[i].id == k;
          assert cs[i] == front[i];
        }
        if exists i :: 0 <= i < |cs| && cs[i].id == k {
          var i :| 0 <= i < |cs| && cs[i].id == k;
          if i < |front| {
            assert front[i] == cs[i];
          }
        }
      }
    }
  }

  lemma {:induction false} IndexByIdValues(cs: seq<DerivedCircuit>)
    ensures forall k :: k in IndexById(cs) ==> IndexById(cs)[k] in cs && IndexById(cs)[k].id == k
  {
    if |cs| > 0 {
      var front, c := cs[..|cs| - 1], cs[|cs| - 1];
      IndexByIdValues(front);
      forall k | k in IndexById(cs) ensures IndexById(cs)[k] in cs && IndexById(cs)[k].id == k {
        if k != c.id {
          var i :| 0 <= i < |front| && front[i] == IndexById(front)[k];
          assert cs[i] == front[i];
        }
      }
    }
  }

  lemma {:induction false} IndexByIdDistinct(cs: seq<DerivedCircuit>)
    requires DistinctIds(cs)
    ensures forall i :: 0 <= i < |cs| ==> cs[i].id in IndexById(cs) && IndexById(cs)[cs[i].id] == cs[i]
  {
    if |cs| > 0 {
      var front, c := cs[..|cs| - 1], cs[|cs| - 1];
      assert forall i, j :: 0 <= i < j < |front| ==> front[i] == cs[i] && front[j] == cs[j];
      IndexByIdDistinct(front);
      IndexByIdKeys(front);
      forall i | 0 <= i < |cs| ensures cs[i].id in IndexById(cs) && IndexById(cs)[cs[i].id] == cs[i] {
        if i < |front| {
          assert front[i] == cs[i];
          assert cs[i].id != c.id;
        }
      }
    }
  }

  /** An automatic pair: an eligible circuit of the list that nobody pinned,
      with its first RCD requirement, under its own key. */
  ghost predicate AutoMember(m: Candidate, k: RcdKey, circuits: seq<DerivedCircuit>, pinned: set<string>,
                             strategy: Option<RcdGroupingStrategy>)
  {
    && m.circuit in circuits
    && IsCandidateOf(m, m.circuit)
    && m.circuit.id !in pinned
    && k == KeyOf(m.circuit, m.rcdReq, strategy)
  }

  lemma {:induction false} AutoPoolEntries(circuits: seq<DerivedCircuit>, pinned: set<string>, strategy: Option<RcdGroupingStrategy>)
    ensures forall e :: e in AutoPool(circuits, pinned, strategy) ==> AutoMember(e.1, e.0, circuits, pinned, strategy)
  {
    if |circuits| > 0 {
      var front, c := circuits[..|circuits| - 1], circuits[|circuits| - 1];
      AutoPoolEntries(front, pinned, strategy);
      forall e | e in AutoPool(circuits, pinned, strategy) ensures AutoMember(e.1, e.0, circuits, pinned, strategy) {
        if e in AutoPool(front, pinned, strategy) {
          assert e.1.circuit in front;
        }
      }
    }
  }

  /** A manual pair: the circuit that `circuitById` returns for an override's
      circuit id, eligible, under that override's group id. */
  ghost predicate PinMember(m: Candidate, gid: string, circuits: seq<DerivedCircuit>, ovs: seq<RcdGroupOverride>)
  {
    && m.circuit.id in IndexById(circuits)
    && IndexById(circuits)[m.circuit.id] == m.circuit
    && m.circuit in circuits
    && IsCandidateOf(m, m.circuit)
    && exists i :: 0 <= i < |ovs| && ovs[i].circuitId == m.circuit.id && ovs[i].rcdGroupId == Some(gid)
  }

  lemma {:induction false} PinsEntries(circuits: seq<DerivedCircuit>, ovs: seq<RcdGroupOverride>)
    ensures forall e :: e in Pins(IndexById(circuits), ovs) ==> PinMember(e.1, e.0, circuits, ovs)
  {
    IndexByIdSpec(circuits);
    if |ovs| > 0 {
      var byId := IndexById(circuits);
      var front, ov := ovs[..|ovs| - 1], ovs[|ovs| - 1];
      PinsEntries(circuits, front);
      forall e | e in Pins(byId, ovs) ensures PinMember(e.1, e.0, circuits, ovs) {
        if e in Pins(byId, front) {
          var i :| 0 <= i < |front| && front[i].circuitId == e.1.circuit.id && front[i].rcdGroupId == Some(e.0);
          assert ovs[i] == front[i];
        } else {
          assert e == PinOf(byId, ov).value;
          assert ovs[|ovs| - 1] == ov;
        }
      }
    }
  }

  // ---------------------------------------------------------------------------
  // The shape of every group of `groupBySharedRcd`.
  // ---------------------------------------------------------------------------

  function PinnedOf(circuits: seq<DerivedCircuit>, options: Option<RcdGroupingOptions>): set<string>
  {
    PinnedIds(IndexById(circuits), OverridesOf(options))
  }

  /** An automatic group: a chunk of the bucket of some key k, every member an
      unpinned eligible circuit whose key is k. */
  ghost predicate IsAutoGroup(g: RcdGroup, circuits: seq<DerivedCircuit>, options: Option<RcdGroupingOptions>, resolve: Resolver)
  {
    exists k: RcdKey, ms: seq<Candidate> ::
      GroupOf(g, KeyText(k), ms, MaxLss(options), false, resolve) && AutoMembers(k, ms, circuits, options)
  }

  ghost predicate AutoMembers(k: RcdKey, ms: seq<Candidate>, circuits: seq<DerivedCircuit>, options: Option<RcdGroupingOptions>)
  {
    forall t :: 0 <= t < |ms| ==> AutoMember(ms[t], k, circuits, PinnedOf(circuits, options), StrategyOf(options))
  }

  /** A manual group: a chunk of the pins to some group id, every member an
      eligible circuit pinned to that id. */
  ghost predicate IsManualGroup(g: RcdGroup, circuits: seq<DerivedCircuit>, options: Option<RcdGroupingOptions>, resolve: Resolver)
  {
    exists gid: string, ms: seq<Candidate> ::
      GroupOf(g, gid, ms, MaxLss(options), true, resolve) && PinMembers(gid, ms, circuits, options)
  }

  ghost predicate PinMembers(gid: string, ms: seq<Candidate>, circuits: seq<DerivedCircuit>, options: Option<RcdGroupingOptions>)
  {
    forall t :: 0 <= t < |ms| ==> PinMember(ms[t], gid, circuits, OverridesOf(options))
  }

  lemma AutoGroupsShape(circuits: seq<DerivedCircuit>, options: Option<RcdGroupingOptions>, resolve: Resolver)
    ensures forall i :: 0 <= i < |AutoGroups(circuits, options, resolve)| ==>
              IsAutoGroup(AutoGroups(circuits, options, resolve)[i], circuits, options, resolve)
  {
    var pinned := PinnedOf(circuits, options);
    var pool := AutoPool(circuits, pinned, StrategyOf(options));
    var gs := AutoGroups(circuits, options, resolve);
    SplitBucketsFrom(pool, KeyText, MaxLss(options), false, resolve);
    AutoPoolEntries(circuits, pinned, StrategyOf(options));
    forall i | 0 <= i < |gs| ensures IsAutoGroup(gs[i], circuits, options, resolve) {
      var k, ms := PickDrawn(gs[i], pool, KeyText, MaxLss(options), false, resolve);
      assert forall t :: 0 <= t < |ms| ==> AutoMember(ms[t], k, circuits, pinned, StrategyOf(options));
      assert AutoMembers(k, ms, circuits, options);
    }
  }

  lemma ManualGroupsShape(circuits: seq<DerivedCircuit>, options: Option<RcdGroupingOptions>, resolve: Resolver)
    ensures forall i :: 0 <= i < |ManualGroups(circuits, options, resolve)| ==>
              IsManualGroup(ManualGroups(circuits, options, resolve)[i], circuits, options, resolve)
  {
    var pool := Pins(IndexById(circuits), OverridesOf(options));
    var gs := ManualGroups(circuits, options, resolve);
    SplitBucketsFrom(pool, Verbatim, MaxLss(options), true, resolve);
    PinsEntries(circuits, OverridesOf(options));
    forall i | 0 <= i < |gs| ensures IsManualGroup(gs[i], circuits, options, resolve) {
      var k, ms := PickDrawn(gs[i], pool, Verbatim, MaxLss(options), true, resolve);
      assert forall t :: 0 <= t < |ms| ==> PinMember(ms[t], k, circuits, OverridesOf(options));
      assert PinMembers(k, ms, circuits, options);
    }
  }

  // ---------------------------------------------------------------------------
  // What every group of the result satisfies.
  // ---------------------------------------------------------------------------

  /** Some circuit with this id is eligible for a shared RCD. */
  ghost predicate EligibleId(circuits: seq<DerivedCircuit>, id: string)
  {
    exists j :: 0 <= j < |circuits| && circuits[j].id == id && Eligible(circuits[j])
  }

  lemma CandidateEligible(m: Candidate, c: DerivedCircuit)
    requires IsCandidateOf(m, c)
    ensures Eligible(c)
  {
    var reqs := c.mergedRequirements;
    var i :| 0 <= i < |reqs| && reqs[i] == m.rcdReq && m.rcdReq.role in RcdRoles
             && forall j :: 0 <= j < i ==> reqs[j].role !in RcdRoles;
  }

  /** Between 1 and n circuits, sorted by id, each the id of an eligible
      circuit, and the manual flag as given. */
  ghost predicate ProperGroup(g: RcdGroup, circuits: seq<DerivedCircuit>, n: nat, hasManual: bool)
  {
    && 1 <= |g.circuitIds| <= n
    && g.hasManualOverride == hasManual
    && (forall a, b :: 0 <= a < b < |g.circuitIds| ==> StrLe(g.circuitIds[a], g.circuitIds[b]))
    && (forall t :: 0 <= t < |g.circuitIds| ==> EligibleId(circuits, g.circuitIds[t]))
  }

  /** The ids of a group are its members' ids. */
  lemma GroupIds(g: RcdGroup, key: string, ms: seq<Candidate>, n: nat, hasManual: bool, resolve: Resolver)
    requires GroupOf(g, key, ms, n, hasManual, resolve)
    ensures 1 <= |g.circuitIds| == |ms| <= n
    ensures g.hasManualOverride == hasManual
    ensures g.verteilerId == ms[0].circuit.verteilerId
    ensures forall t :: 0 <= t < |ms| ==> g.circuitIds[t] == ms[t].circuit.id
    ensures forall a, b :: 0 <= a < b < |g.circuitIds| ==> StrLe(g.circuitIds[a], g.circuitIds[b])
  {
    var j: nat :| g == BuildGroup(ChunkId(key, j), ms, hasManual, resolve);
    BuildGroupFacts(ChunkId(key, j), ms, hasManual, resolve);
    forall a, b | 0 <= a < b < |g.circuitIds| ensures StrLe(g.circuitIds[a], g.circuitIds[b]) {
      assert StrLe(ByCircuitId(ms[a]), ByCircuitId(ms[b]));
    }
  }

  /** Every circuit id of the group names a circuit on the group's board. */
  ghost predicate OnOwnBoard(g: RcdGroup, circuits: seq<DerivedCircuit>)
  {
    forall t :: 0 <= t < |g.circuitIds| ==>
      exists j :: 0 <= j < |circuits| && circuits[j].id == g.circuitIds[t] && circuits[j].verteilerId == g.verteilerId
  }

  /** An automatic group is proper, and every member sits on the group's
      board. */
  lemma AutoGroupFacts(g: RcdGroup, circuits: seq<DerivedCircuit>, options: Option<RcdGroupingOptions>, resolve: Resolver)
    requires IsAutoGroup(g, circuits, options, resolve)
    ensures ProperGroup(g, circuits, MaxLss(options), false)
    ensures OnOwnBoard(g, circuits)
  {
    var k: RcdKey, ms: seq<Candidate> :| GroupOf(g, KeyText(k), ms, MaxLss(options), false, resolve) && AutoMembers(k, ms, circuits, options);
    GroupIds(g, KeyText(k), ms, MaxLss(options), false, resolve);
    forall t | 0 <= t < |g.circuitIds|
      ensures EligibleId(circuits, g.circuitIds[t])
      ensures exists j :: 0 <= j < |circuits| && circuits[j].id == g.circuitIds[t] && circuits[j].verteilerId == g.verteilerId
    {
      var c := ms[t].circuit;
      CandidateEligible(ms[t], c);
      var j :| 0 <= j < |circuits| && circuits[j] == c;
      assert AutoMember(ms[0], k, circuits, PinnedOf(circuits, options), StrategyOf(options));
      assert c.verteilerId == k.verteilerId == ms[0].circuit.verteilerId;
    }
  }

  /** A manual group is proper. */
  lemma ManualGroupFacts(g: RcdGroup, circuits: seq<DerivedCircuit>, options: Option<RcdGroupingOptions>, resolve: Resolver)
    requires IsManualGroup(g, circuits, options, resolve)
    ensures ProperGroup(g, circuits, MaxLss(options), true)
  {
    var gid: string, ms: seq<Candidate> :| GroupOf(g, gid, ms, MaxLss(options), true, resolve) && PinMembers(gid, ms, circuits, options);
    GroupIds(g, gid, ms, MaxLss(options), true, resolve);
    forall t | 0 <= t < |g.circuitIds| ensures EligibleId(circuits, g.circuitIds[t]) {
      var c := ms[t].circuit;
      CandidateEligible(ms[t], c);
      var j :| 0 <= j < |circuits| && circuits[j] == c;
    }
  }

  /** `groupBySharedRcd`: the automatic groups come first and carry no manual
      flag, the manual groups follow and carry it; every group holds between
      1 and `maxLss` circuit ids, sorted, each the id of a circuit that has an
      RCD requirement and no RCBO; inside an automatic group every circuit
      sits on the group's board. */
  lemma RcdGroupsSound(circuits: seq<DerivedCircuit>, options: Option<RcdGroupingOptions>, resolve: Resolver)
    ensures var R := RcdGroups(circuits, options, resolve);
            var na := |AutoGroups(circuits, options, resolve)|;
      && na <= |R|
      && (forall i :: 0 <= i < na ==> ProperGroup(R[i], circuits, MaxLss(options), false) && OnOwnBoard(R[i], circuits))
      && (forall i :: na <= i < |R| ==> ProperGroup(R[i], circuits, MaxLss(options), true))
  {
    var A, M := AutoGroups(circuits, options, resolve), ManualGroups(circuits, options, resolve);
    var R := RcdGroups(circuits, options, resolve);
    assert R == A + M;
    AutoGroupsProper(circuits, options, resolve);
    ManualGroupsProper(circuits, options, resolve);
    GroupsConcat(A, M, R, circuits, MaxLss(options));
  }

  lemma GroupsConcat(A: seq<RcdGroup>, M: seq<RcdGroup>, R: seq<RcdGroup>, circuits: seq<DerivedCircuit>, n: nat)
    requires R == A + M
    requires forall i :: 0 <= i < |A| ==> ProperGroup(A[i], circuits, n, false) && OnOwnBoard(A[i], circuits)
    requires forall i :: 0 <= i < |M| ==> ProperGroup(M[i], circuits, n, true)
    ensures |A| <= |R|
    ensures forall i :: 0 <= i < |A| ==> ProperGroup(R[i], circuits, n, false) && OnOwnBoard(R[i], circuits)
    ensures forall i :: |A| <= i < |R| ==> ProperGroup(R[i], circuits, n, true)
  {
    forall i | 0 <= i < |A| ensures ProperGroup(R[i], circuits, n, false) && OnOwnBoard(R[i], circuits) {
      assert R[i] == A[i];
    }
    forall i | |A| <= i < |R| ensures ProperGroup(R[i], circuits, n, true) {
      assert R[i] == M[i - |A|];
    }
  }

  lemma AutoGroupsProper(circuits: seq<DerivedCircuit>, options: Option<RcdGroupingOptions>, resolve: Resolver)
    ensures var A := AutoGroups(circuits, options, resolve);
      forall i :: 0 <= i < |A| ==> ProperGroup(A[i], circuits, MaxLss(options), false) && OnOwnBoard(A[i], circuits)
  {
    var A := AutoGroups(circuits, options, resolve);
    AutoGroupsShape(circuits, options, resolve);
    forall i | 0 <= i < |A|
      ensures ProperGroup(A[i], circuits, MaxLss(options), false) && OnOwnBoard(A[i], circuits)
    {
      AutoGroupFacts(A[i], circuits, options, resolve);
    }
  }

  lemma ManualGroupsProper(circuits: seq<DerivedCircuit>, options: Option<RcdGroupingOptions>, resolve: Resolver)
    ensures var M := ManualGroups(circuits, options, resolve);
      forall i :: 0 <= i < |M| ==> ProperGroup(M[i], circuits, MaxLss(options), true)
  {
    var M := ManualGroups(circuits, options, resolve);
    ManualGroupsShape(circuits, options, resolve);
    forall i | 0 <= i < |M| ensures ProperGroup(M[i], circuits, MaxLss(options), true) {
      ManualGroupFacts(M[i], circuits, options, resolve);
    }
  }

  // ---------------------------------------------------------------------------
  // Every eligible circuit lands in exactly one group.
  // ---------------------------------------------------------------------------

  /** Counts the members with the given circuit id. */
  function Hits(id: string): Candidate -> int
  {
    (m: Candidate) => if m.circuit.id == id then 1 else 0
  }

  lemma {:induction false} IdsCount(xs: seq<Candidate>, id: string)
    ensures multiset(IdsOf(xs))[id] == SumOf(xs, Hits(id))
  {
    if |xs| > 0 {
      IdsCount(xs[1..], id);
      assert IdsOf(xs) == [xs[0].circuit.id] + IdsOf(xs[1..]);
    }
  }

  lemma {:induction false} SplitBucketsCount<K>(b: seq<(K, seq<Candidate>)>, text: K -> string, n: nat, hasManual: bool,
                                                resolve: Resolver, id: string)
    requires n >= 1
    ensures multiset(AllIds(SplitBuckets(b, text, n, hasManual, resolve)))[id] == BucketTotal(b, Hits(id))
  {
    if |b| > 0 {
      var front, last := b[..|b| - 1], b[|b| - 1];
      assert b == front + [last];
      SplitBucketsCount(front, text, n, hasManual, resolve, id);
      SplitBucketsLast(b, text, n, hasManual, resolve, id);
      BucketTotalAppend(front, last, Hits(id));
    }
  }

  lemma SplitBucketsLast<K>(b: seq<(K, seq<Candidate>)>, text: K -> string, n: nat, hasManual: bool,
                            resolve: Resolver, id: string)
    requires n >= 1 && |b| > 0
    ensures multiset(AllIds(SplitBuckets(b, text, n, hasManual, resolve)))[id]
         == multiset(AllIds(SplitBuckets(b[..|b| - 1], text, n, hasManual, resolve)))[id] + SumOf(b[|b| - 1].1, Hits(id))
  {
    var front, last := b[..|b| - 1], b[|b| - 1];
    var tail := if |last.1| == 0 then [] else SplitGroups(text(last.0), last.1, n, hasManual, resolve);
    AllIdsAppend(SplitBuckets(front, text, n, hasManual, resolve), tail);
    if |last.1| > 0 {
      SplitGroupsCount(text(last.0), last.1, n, hasManual, resolve, id);
    }
  }

  /** The groups of one bucket hold an id as often as the bucket has members with it. */
  lemma SplitGroupsCount(key: string, members: seq<Candidate>, n: nat, hasManual: bool, resolve: Resolver, id: string)
    requires n >= 1
    ensures multiset(AllIds(SplitGroups(key, members, n, hasManual, resolve)))[id] == SumOf(members, Hits(id))
  {
    ChunkGroupsIds(key, SortBy(members, ByCircuitId), n, 0, hasManual, resolve);
    IdsCount(SortBy(members, ByCircuitId), id);
    SortBySum(members, ByCircuitId, Hits(id));
  }

  /** The groups of the buckets of kvs hold an id as often as kvs has values with it. */
  lemma PoolCount<K>(kvs: seq<(K, Candidate)>, text: K -> string, n: nat, hasManual: bool, resolve: Resolver, id: string)
    requires n >= 1
    ensures multiset(AllIds(SplitBuckets(Buckets(kvs), text, n, hasManual, resolve)))[id] == SumOf(Values(kvs), Hits(id))
  {
    SplitBucketsCount(Buckets(kvs), text, n, hasManual, resolve, id);
    BucketsConserve(kvs, Hits(id));
  }

  /** One more pair adds its own hit to the count. */
  lemma SnocCount<K>(p: seq<(K, Candidate)>, extra: seq<(K, Candidate)>, id: string)
    requires |extra| <= 1
    ensures SumOf(Values(p + extra), Hits(id)) == SumOf(Values(p), Hits(id)) + (if |extra| == 1 then Hits(id)(extra[0].1) else 0)
  {
    if |extra| == 1 {
      assert extra == [extra[0]];
      ValuesAppend(p, extra[0]);
      SumOfAppend(Values(p), [extra[0].1], Hits(id));
      assert SumOf([extra[0].1], Hits(id)) == Hits(id)(extra[0].1) + SumOf([], Hits(id));
    } else {
      assert p + extra == p;
    }
  }

  lemma {:induction false} AutoPoolCount(circuits: seq<DerivedCircuit>, pinned: set<string>, strategy: Option<RcdGroupingStrategy>,
                                         id: string)
    requires DistinctIds(circuits)
    ensures SumOf(Values(AutoPool(circuits, pinned, strategy)), Hits(id))
         == if EligibleId(circuits, id) && id !in pinned then 1 else 0
  {
    if |circuits| > 0 {
      var front, c := circuits[..|circuits| - 1], circuits[|circuits| - 1];
      EligibleIdSnoc(circuits, id);
      AutoPoolCount(front, pinned, strategy, id);
      var cand := CandidateOf(c);
      var extra := if c.id !in pinned && cand.Some? then [(KeyOf(c, cand.value.rcdReq, strategy), cand.value)] else [];
      SnocCount(AutoPool(front, pinned, strategy), extra, id);
    }
  }

  /** Dropping the last circuit of a list with distinct ids. */
  lemma EligibleIdSnoc(circuits: seq<DerivedCircuit>, id: string)
    requires DistinctIds(circuits) && |circuits| > 0
    ensures var front, c := circuits[..|circuits| - 1], circuits[|circuits| - 1];
      && DistinctIds(front)
      && (c.id == id ==> !EligibleId(front, id))
      && (EligibleId(circuits, id) <==> EligibleId(front, id) || (c.id == id && Eligible(c)))
  {
    var front, c := circuits[..|circuits| - 1], circuits[|circuits| - 1];
    assert forall i :: 0 <= i < |front| ==> front[i] == circuits[i];
    forall j | 0 <= j < |front| ensures front[j].id != c.id {
      assert circuits[j].id != circuits[|circuits| - 1].id;
    }
  }

  ghost predicate DistinctOverrides(ovs: seq<RcdGroupOverride>)
  {
    forall i, j :: 0 <= i < j < |ovs| ==> ovs[i].circuitId != ovs[j].circuitId
  }

  /** Some override with this circuit id took effect. */
  ghost predicate PinHit(byId: map<string, DerivedCircuit>, ovs: seq<RcdGroupOverride>, id: string)
  {
    exists i :: 0 <= i < |ovs| && ovs[i].circuitId == id && PinOf(byId, ovs[i]).Some?
  }

  lemma {:induction false} PinsCount(circuits: seq<DerivedCircuit>, ovs: seq<RcdGroupOverride>, id: string)
    requires DistinctOverrides(ovs)
    ensures SumOf(Values(Pins(IndexById(circuits), ovs)), Hits(id)) == if PinHit(IndexById(circuits), ovs, id) then 1 else 0
  {
    var byId := IndexById(circuits);
    if |ovs| > 0 {
      var front, ov := ovs[..|ovs| - 1], ovs[|ovs| - 1];
      assert forall i :: 0 <= i < |front| ==> front[i] == ovs[i];
      assert DistinctOverrides(front);
      PinsCount(circuits, front, id);
      var pin := PinOf(byId, ov);
      SnocCount(Pins(byId, front), if pin.Some? then [pin.value] else [], id);
      PinHitSnoc(byId, ovs, id);
      IndexByIdSpec(circuits);
    }
  }

  lemma PinHitSnoc(byId: map<string, DerivedCircuit>, ovs: seq<RcdGroupOverride>, id: string)
    requires DistinctOverrides(ovs) && |ovs| > 0
    ensures var front, ov := ovs[..|ovs| - 1], ovs[|ovs| - 1];
      && (ov.circuitId == id ==> !PinHit(byId, front, id))
      && (PinHit(byId, ovs, id) <==> PinHit(byId, front, id) || (ov.circuitId == id && PinOf(byId, ov).Some?))
  {
    var front, ov := ovs[..|ovs| - 1], ovs[|ovs| - 1];
    assert forall i :: 0 <= i < |front| ==> front[i] == ovs[i];
  }

  /** `manualCircuitIds`: a circuit is pinned exactly when it exists, is
      eligible and some override gives it a group id. */
  lemma PinnedOfSpec(circuits: seq<DerivedCircuit>, options: Option<RcdGroupingOptions>, id: string)
    requires DistinctIds(circuits)
    ensures id in PinnedOf(circuits, options) <==> PinHit(IndexById(circuits), OverridesOf(options), id)
    ensures id in PinnedOf(circuits, options) <==>
              EligibleId(circuits, id)
              && exists i :: 0 <= i < |OverridesOf(options)| && OverridesOf(options)[i].circuitId == id
                             && OverridesOf(options)[i].rcdGroupId.Some?
  {
    var byId, ovs := IndexById(circuits), OverridesOf(options);
    if id in PinnedOf(circuits, options) {
      var i :| 0 <= i < |ovs| && PinOf(byId, ovs[i]).Some? && ovs[i].circuitId == id;
      PinOfEligible(circuits, ovs[i]);
    }
    if EligibleId(circuits, id) && exists i :: 0 <= i < |ovs| && ovs[i].circuitId == id && ovs[i].rcdGroupId.Some? {
      var i :| 0 <= i < |ovs| && ovs[i].circuitId == id && ovs[i].rcdGroupId.Some?;
      PinOfEligible(circuits, ovs[i]);
      assert ovs[i].circuitId in PinnedIds(byId, ovs);
    }
  }

  /** One override takes effect exactly when it names a group and an eligible
      circuit. */
  lemma PinOfEligible(circuits: seq<DerivedCircuit>, ov: RcdGroupOverride)
    requires DistinctIds(circuits)
    ensures PinOf(IndexById(circuits), ov).Some? <==> ov.rcdGroupId.Some? && EligibleId(circuits, ov.circuitId)
  {
    var byId := IndexById(circuits);
    IndexByIdSpec(circuits);
    if PinOf(byId, ov).Some? {
      var j :| 0 <= j < |circuits| && circuits[j].id == ov.circuitId;
      assert byId[ov.circuitId] == circuits[j];
    }
    if ov.rcdGroupId.Some? && EligibleId(circuits, ov.circuitId) {
      var j :| 0 <= j < |circuits| && circuits[j].id == ov.circuitId && Eligible(circuits[j]);
      assert byId[ov.circuitId] == circuits[j];
    }
  }

  /** With distinct circuit ids and one override per circuit: a pinned circuit
      is in exactly one manual group and no automatic one, every other
      eligible circuit is in exactly one automatic group, and nothing else
      is grouped. */
  lemma RcdGroupsExactlyOnce(circuits: seq<DerivedCircuit>, options: Option<RcdGroupingOptions>, resolve: Resolver, id: string)
    requires DistinctIds(circuits) && DistinctOverrides(OverridesOf(options))
    ensures multiset(AllIds(ManualGroups(circuits, options, resolve)))[id] == if id in PinnedOf(circuits, options) then 1 else 0
    ensures multiset(AllIds(AutoGroups(circuits, options, resolve)))[id]
         == if EligibleId(circuits, id) && id !in PinnedOf(circuits, options) then 1 else 0
    ensures multiset(AllIds(RcdGroups(circuits, options, resolve)))[id] == if EligibleId(circuits, id) then 1 else 0
  {
    var byId, ovs := IndexById(circuits), OverridesOf(options);
    var pinned := PinnedOf(circuits, options);
    PinnedOfSpec(circuits, options, id);
    PoolCount(Pins(byId, ovs), Verbatim, MaxLss(options), true, resolve, id);
    PinsCount(circuits, ovs, id);
    PoolCount(AutoPool(circuits, pinned, StrategyOf(options)), KeyText, MaxLss(options), false, resolve, id);
    AutoPoolCount(circuits, pinned, StrategyOf(options), id);
    AllIdsAppend(AutoGroups(circuits, options, resolve), ManualGroups(circuits, options, resolve));
  }

  /** An id in the concatenated ids lies in one of the groups. */
  lemma {:induction false} AllIdsMember(gs: seq<RcdGroup>, id: string)
    requires id in AllIds(gs)
    ensures exists k :: 0 <= k < |gs| && id in gs[k].circuitIds
  {
    if id !in gs[0].circuitIds {
      AllIdsMember(gs[1..], id);
      var k :| 0 <= k < |gs[1..]| && id in gs[1..][k].circuitIds;
      assert gs[k + 1] == gs[1..][k];
    }
  }

  /** Manual override precedence: a circuit that an override pins to group id
      G lands in a manual group named after G (`rcd-group-G`, or a later chunk
      `rcd-group-G-k`) and in no automatic group, whatever its key. */
  lemma PinnedInManualGroup(circuits: seq<DerivedCircuit>, options: Option<RcdGroupingOptions>, resolve: Resolver, i: nat)
    requires DistinctIds(circuits) && DistinctOverrides(OverridesOf(options))
    requires i < |OverridesOf(options)|
    requires OverridesOf(options)[i].rcdGroupId.Some? && EligibleId(circuits, OverridesOf(options)[i].circuitId)
    ensures var ov := OverridesOf(options)[i];
      exists k, j: nat :: 0 <= k < |ManualGroups(circuits, options, resolve)|
        && ov.circuitId in ManualGroups(circuits, options, resolve)[k].circuitIds
        && ManualGroups(circuits, options, resolve)[k].id == ChunkId(ov.rcdGroupId.value, j)
    ensures OverridesOf(options)[i].circuitId !in AllIds(AutoGroups(circuits, options, resolve))
  {
    var ovs := OverridesOf(options);
    var id := ovs[i].circuitId;
    var M := ManualGroups(circuits, options, resolve);
    PinnedOfSpec(circuits, options, id);
    RcdGroupsExactlyOnce(circuits, options, resolve, id);
    assert id in multiset(AllIds(M));
    AllIdsMember(M, id);
    var k :| 0 <= k < |M| && id in M[k].circuitIds;
    ManualGroupsShape(circuits, options, resolve);
    ManualGroupNamed(M[k], circuits, options, resolve, i);
  }

  /** A manual group that holds the circuit of override i is a chunk of that
      override's group id. */
  lemma ManualGroupNamed(g: RcdGroup, circuits: seq<DerivedCircuit>, options: Option<RcdGroupingOptions>, resolve: Resolver, i: nat)
    requires DistinctOverrides(OverridesOf(options))
    requires i < |OverridesOf(options)| && OverridesOf(options)[i].rcdGroupId.Some?
    requires IsManualGroup(g, circuits, options, resolve) && OverridesOf(options)[i].circuitId in g.circuitIds
    ensures exists j: nat :: g.id == ChunkId(OverridesOf(options)[i].rcdGroupId.value, j)
  {
    var ovs := OverridesOf(options);
    var gid: string, ms: seq<Candidate> :| GroupOf(g, gid, ms, MaxLss(options), true, resolve) && PinMembers(gid, ms, circuits, options);
    GroupIds(g, gid, ms, MaxLss(options), true, resolve);
    var t :| 0 <= t < |g.circuitIds| && g.circuitIds[t] == ovs[i].circuitId;
    assert PinMember(ms[t], gid, circuits, ovs);
    var i' :| 0 <= i' < |ovs| && ovs[i'].circuitId == ms[t].circuit.id && ovs[i'].rcdGroupId == Some(gid);
    assert i' == i;
    var j: nat :| g == BuildGroup(ChunkId(gid, j), ms, true, resolve);
    BuildGroupFacts(ChunkId(gid, j), ms, true, resolve);
  }

  // ---------------------------------------------------------------------------
  // Manual groups are not board-checked.
  // ---------------------------------------------------------------------------

  /** A plain RCD requirement and a circuit that has only that, on the given board. */
  const PlainRcd := ProtectionRequirement(Rcd, None, None, None, None, None)

  function RcdOnlyCircuit(id: string, board: string): DerivedCircuit
  {
    DerivedCircuit(id, id, board, "raum", Socket, [], [PlainRcd], [], [])
  }

  /** Circuit a on board V1 and circuit b on board V2, both pinned to group G. */
  function TwoBoards(): seq<DerivedCircuit> { [RcdOnlyCircuit("a", "V1"), RcdOnlyCircuit("b", "V2")] }

  function PinBothToG(): Option<RcdGroupingOptions>
  {
    Some(RcdGroupingOptions(None, Some([RcdGroupOverride("a", Some("G")), RcdGroupOverride("b", Some("G"))]), None))
  }

  lemma TwoBoardsIndex()
    ensures IndexById(TwoBoards()) == map["a" := TwoBoards()[0], "b" := TwoBoards()[1]]
  {
    var circuits := TwoBoards();
    assert circuits[..1] == [circuits[0]] && [circuits[0]][..0] == [];
  }

  lemma TwoBoardsCandidates()
    ensures CandidateOf(TwoBoards()[0]) == Some(Candidate(TwoBoards()[0], PlainRcd))
    ensures CandidateOf(TwoBoards()[1]) == Some(Candidate(TwoBoards()[1], PlainRcd))
  {
    assert !HasRcbo(TwoBoards()[0]) && !HasRcbo(TwoBoards()[1]);
  }

  lemma TwoBoardsPins()
    ensures Pins(IndexById(TwoBoards()), OverridesOf(PinBothToG()))
         == [("G", Candidate(TwoBoards()[0], PlainRcd)), ("G", Candidate(TwoBoards()[1], PlainRcd))]
    ensures PinnedOf(TwoBoards(), PinBothToG()) == {"a", "b"}
  {
    var circuits := TwoBoards();
    var ovs := OverridesOf(PinBothToG());
    var byId := IndexById(circuits);
    TwoBoardsIndex();
    TwoBoardsCandidates();
    assert PinOf(byId, ovs[0]) == Some(("G", Candidate(circuits[0], PlainRcd)));
    assert PinOf(byId, ovs[1]) == Some(("G", Candidate(circuits[1], PlainRcd)));
    assert ovs[..1] == [ovs[0]] && [ovs[0]][..0] == [];
  }

  lemma TwoBucketsOfG(xa: Candidate, xb: Candidate)
    ensures Buckets([("G", xa), ("G", xb)]) == [("G", [xa, xb])]
  {
    var pins := [("G", xa), ("G", xb)];
    assert pins[..1] == [("G", xa)] && [("G", xa)][..0] == [];
    assert Buckets([("G", xa)]) == [("G", [xa])];
    assert KeyIndex([("G", [xa])], "G") == 0;
    assert [xa] + [xb] == [xa, xb];
  }

  lemma TwoBoardsNoAuto()
    ensures AutoPool(TwoBoards(), {"a", "b"}, None) == []
  {
    var circuits := TwoBoards();
    assert circuits[..1] == [circuits[0]] && [circuits[0]][..0] == [];
  }

  /** Two candidates already in id order stay in place. */
  lemma SortTwo(xa: Candidate, xb: Candidate)
    requires xa.circuit.id == "a" && xb.circuit.id == "b"
    ensures SortBy([xa, xb], ByCircuitId) == [xa, xb]
  {
    assert [xa, xb][1..] == [xb] && [xb][1..] == [];
    assert SortBy([xb], ByCircuitId) == [xb];
    assert StrLe("a", "b");
  }

  /** One bucket of two candidates with room for six gives one group. */
  lemma OneBucketOneGroup(xa: Candidate, xb: Candidate, resolve: Resolver)
    requires SortBy([xa, xb], ByCircuitId) == [xa, xb]
    ensures SplitBuckets([("G", [xa, xb])], Verbatim, 6, true, resolve) == [BuildGroup(ChunkId("G", 0), [xa, xb], true, resolve)]
  {
    var sorted := [xa, xb];
    var g := BuildGroup(ChunkId("G", 0), sorted, true, resolve);
    assert sorted[Min(6, 2)..] == [] && sorted[..Min(6, 2)] == sorted;
    assert ChunkGroups("G", [], 6, 1, true, resolve) == [];
    assert ChunkGroups("G", sorted, 6, 0, true, resolve) == [g];
    var b := [("G", [xa, xb])];
    assert b[..0] == [];
  }

  /** The group of a and b has board V1, which b is not on. */
  lemma TwoBoardsGroup(resolve: Resolver)
    ensures var circuits := TwoBoards();
            var g := BuildGroup(ChunkId("G", 0), [Candidate(circuits[0], PlainRcd), Candidate(circuits[1], PlainRcd)], true, resolve);
      && g.id == "rcd-group-G" && g.hasManualOverride
      && g.circuitIds == ["a", "b"] && g.verteilerId == "V1"
      && !OnOwnBoard(g, circuits)
  {
    var circuits := TwoBoards();
    var ms := [Candidate(circuits[0], PlainRcd), Candidate(circuits[1], PlainRcd)];
    var g := BuildGroup(ChunkId("G", 0), ms, true, resolve);
    IdsOfIndex(ms);
    assert g.circuitIds == ["a", "b"];
    assert forall j :: 0 <= j < |circuits| && circuits[j].id == "b" ==> circuits[j].verteilerId == "V2";
  }

  /** Pins on two boards to one group id make one manual group across both
      boards: the manual loop never compares boards, and the group takes the
      board of its first member. */
  lemma ManualGroupSpansBoards(resolve: Resolver)
    ensures var R := RcdGroups(TwoBoards(), PinBothToG(), resolve);
      && |R| == 1
      && R[0].id == "rcd-group-G" && R[0].hasManualOverride
      && R[0].circuitIds == ["a", "b"] && R[0].verteilerId == "V1"
      && !OnOwnBoard(R[0], TwoBoards())
  {
    var circuits, options := TwoBoards(), PinBothToG();
    var xa, xb := Candidate(circuits[0], PlainRcd), Candidate(circuits[1], PlainRcd);
    TwoBoardsPins();
    TwoBucketsOfG(xa, xb);
    TwoBoardsNoAuto();
    SortTwo(xa, xb);
    OneBucketOneGroup(xa, xb, resolve);
    TwoBoardsGroup(resolve);
    assert AutoGroups(circuits, options, resolve) == [];
    assert ManualGroups(circuits, options, resolve) == [BuildGroup(ChunkId("G", 0), [xa, xb], true, resolve)];
  }
}
