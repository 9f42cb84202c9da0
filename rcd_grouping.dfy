/** The RCD sharing engine of src/logic/rcdGrouping.ts: circuits that need a
    standalone residual-current device (and no RCBO) are gathered into groups
    that share one RCD. Manual pins to a group id win over the automatic
    buckets; automatic buckets are keyed by board, fault current, RCD type,
    poles and the dimensions the strategy switches on; every bucket is sorted
    by circuit id and cut into chunks of at most `maxLss` circuits. */
module RcdGrouping {
  import opened Common
  import opened Grouping

  // ---------------------------------------------------------------------------
  // Entities (reconstructed from the fields the engine reads).
  // ---------------------------------------------------------------------------

  datatype Role = Mcb | Rcd | Rcbo | Afdd | RcdTypeB

  datatype ProtectionRequirement = ProtectionRequirement(
    role: Role,
    ratedCurrent: Option<int>,
    characteristic: Option<string>,
    faultCurrent: Option<int>,
    rcdType: Option<string>,
    poles: Option<int>)

  datatype StromkreisDevice = StromkreisDevice(role: Role, deviceId: string)

  datatype GroupingHint = Socket | Light | Dedicated | Special

  datatype DerivedCircuit = DerivedCircuit(
    id: string,
    name: string,
    verteilerId: string,
    raumId: string,
    groupingHint: GroupingHint,
    symbolIds: seq<string>,
    mergedRequirements: seq<ProtectionRequirement>,
    resolvedDevices: seq<StromkreisDevice>,
    cableIds: seq<string>)

  /** Pins a circuit to a group id; `None` sends it back to automatic grouping. */
  datatype RcdGroupOverride = RcdGroupOverride(circuitId: string, rcdGroupId: Option<string>)

  datatype RcdGroupingStrategy = RcdGroupingStrategy(
    separateByRoom: bool,
    separateByRatedCurrent: bool,
    separateByType: bool)

  datatype RcdGroupingOptions = RcdGroupingOptions(
    maxLssPerRcd: Option<int>,
    manualOverrides: Option<seq<RcdGroupOverride>>,
    strategy: Option<RcdGroupingStrategy>)

  /** `hasManualOverride` is `true` or absent in the source; absent is false here. */
  datatype RcdGroup = RcdGroup(
    id: string,
    verteilerId: string,
    sharedRcdRequirement: ProtectionRequirement,
    sharedRcdDevice: Option<StromkreisDevice>,
    circuitIds: seq<string>,
    hasManualOverride: bool)

  datatype Candidate = Candidate(circuit: DerivedCircuit, rcdReq: ProtectionRequirement)

  /** `resolveDevices` of the device resolver, which is not part of this model. */
  type Resolver = seq<ProtectionRequirement> -> seq<StromkreisDevice>

  // ---------------------------------------------------------------------------
  // Eligibility.
  // ---------------------------------------------------------------------------

  const RcdRoles: set<Role> := {Rcd, RcdTypeB}

  predicate HasRcbo(c: DerivedCircuit)
  {
    exists i :: 0 <= i < |c.mergedRequirements| && c.mergedRequirements[i].role == Rcbo
  }

  /** The first requirement whose role is one of `roles` (`reqs.find`). */
  function FindRequirement(reqs: seq<ProtectionRequirement>, roles: set<Role>): (r: Option<ProtectionRequirement>)
    ensures r.None? <==> forall i :: 0 <= i < |reqs| ==> reqs[i].role !in roles
    ensures r.Some? ==> exists i :: 0 <= i < |reqs| && reqs[i] == r.value && r.value.role in roles
                                    && forall j :: 0 <= j < i ==> reqs[j].role !in roles
  {
    if |reqs| == 0 then None
    else if reqs[0].role in roles then Some(reqs[0])
    else
      var r := FindRequirement(reqs[1..], roles);
      assert forall i :: 0 < i < |reqs| ==> reqs[i] == reqs[1..][i - 1];
      assert r.Some? ==> exists i :: 0 <= i < |reqs[1..]| && reqs[1..][i] == r.value
                                     && forall j :: 0 <= j < i ==> reqs[1..][j].role !in roles;
      r
  }

  /** Eligible for sharing: some standalone RCD requirement and no RCBO. */
  predicate Eligible(c: DerivedCircuit)
  {
    !HasRcbo(c) && exists i :: 0 <= i < |c.mergedRequirements| && c.mergedRequirements[i].role in RcdRoles
  }

  /** A candidate is an eligible circuit paired with its first RCD requirement. */
  predicate IsCandidateOf(cand: Candidate, c: DerivedCircuit)
  {
    cand.circuit == c && !HasRcbo(c) && FindRequirement(c.mergedRequirements, RcdRoles) == Some(cand.rcdReq)
  }

  function CandidateOf(c: DerivedCircuit): (r: Option<Candidate>)
    ensures r.Some? <==> Eligible(c)
    ensures r.Some? ==> IsCandidateOf(r.value, c)
  {
    if HasRcbo(c) then None
    else match FindRequirement(c.mergedRequirements, RcdRoles)
      case None => None
      case Some(req) => Some(Candidate(c, req))
  }

  // ---------------------------------------------------------------------------
  // The automatic grouping key (`rcdKey`). The source joins the parts with
  // '::' into one string; the model buckets by the parts themselves and
  // renders the string (KeyText) for the group ids.
  // ---------------------------------------------------------------------------

  datatype RcdKey = RcdKey(
    verteilerId: string,
    faultCurrent: int,
    rcdType: string,
    poles: int,
    room: Option<string>,
    ratedCurrent: Option<int>,
    hint: Option<GroupingHint>)

  function StrategyOrNone(strategy: Option<RcdGroupingStrategy>): RcdGroupingStrategy
  {
    strategy.GetOr(RcdGroupingStrategy(false, false, false))
  }

  /** The MCB rated current of a circuit, `mcb?.ratedCurrent ?? 0`. */
  function McbRated(c: DerivedCircuit): int
  {
    match FindRequirement(c.mergedRequirements, {Mcb})
    case Some(mcb) => mcb.ratedCurrent.GetOr(0)
    case None => 0
  }

  function KeyOf(c: DerivedCircuit, req: ProtectionRequirement, strategy: Option<RcdGroupingStrategy>): RcdKey
  {
    var s := StrategyOrNone(strategy);
    RcdKey(
      c.verteilerId,
      req.faultCurrent.GetOr(30),
      req.rcdType.GetOr("A"),
      req.poles.GetOr(2),
      if s.separateByRoom then Some(c.raumId) else None,
      if s.separateByRatedCurrent then Some(McbRated(c)) else None,
      if s.separateByType then Some(c.groupingHint) else None)
  }

  function HintText(h: GroupingHint): string
  {
    match h
    case Socket => "socket"
    case Light => "light"
    case Dedicated => "dedicated"
    case Special => "special"
  }

  /** The key's parts joined with `::`, the text used in automatic group ids. */
  function KeyText(k: RcdKey): string
  {
    k.verteilerId + "::" + IntToString(k.faultCurrent) + "::" + k.rcdType + "::" + IntToString(k.poles)
    + (if k.room.Some? then "::" + k.room.value else "")
    + (if k.ratedCurrent.Some? then "::" + IntToString(k.ratedCurrent.value) else "")
    + (if k.hint.Some? then "::" + HintText(k.hint.value) else "")
  }

  /** Two circuits fall into one automatic bucket exactly when every enabled
      key dimension agrees. */
  lemma KeyOfAgreement(a: Candidate, b: Candidate, strategy: Option<RcdGroupingStrategy>)
    ensures KeyOf(a.circuit, a.rcdReq, strategy) == KeyOf(b.circuit, b.rcdReq, strategy) <==>
      && a.circuit.verteilerId == b.circuit.verteilerId
      && a.rcdReq.faultCurrent.GetOr(30) == b.rcdReq.faultCurrent.GetOr(30)
      && a.rcdReq.rcdType.GetOr("A") == b.rcdReq.rcdType.GetOr("A")
      && a.rcdReq.poles.GetOr(2) == b.rcdReq.poles.GetOr(2)
      && (StrategyOrNone(strategy).separateByRoom ==> a.circuit.raumId == b.circuit.raumId)
      && (StrategyOrNone(strategy).separateByRatedCurrent ==> McbRated(a.circuit) == McbRated(b.circuit))
      && (StrategyOrNone(strategy).separateByType ==> a.circuit.groupingHint == b.circuit.groupingHint)
  {
  }

  // ---------------------------------------------------------------------------
  // Building one group (`buildGroup`).
  // ---------------------------------------------------------------------------

  function RatedOf(m: Candidate): int { m.rcdReq.ratedCurrent.GetOr(40) }

  /** The largest rated current among the members' RCD requirements, where a
      requirement without one counts as 40 A. */
  function MaxRated(members: seq<Candidate>): int
    requires |members| > 0
  {
    if |members| == 1 then RatedOf(members[0])
    else
      var rest := MaxRated(members[1..]);
      if RatedOf(members[0]) >= rest then RatedOf(members[0]) else rest
  }

  /** MaxRated is the largest `ratedCurrent ?? 40` among the members. */
  lemma {:induction false} MaxRatedIsMaximum(members: seq<Candidate>)
    requires |members| > 0
    ensures forall i :: 0 <= i < |members| ==> RatedOf(members[i]) <= MaxRated(members)
    ensures exists i :: 0 <= i < |members| && RatedOf(members[i]) == MaxRated(members)
  {
    if |members| == 1 {
      assert RatedOf(members[0]) == MaxRated(members);
    } else {
      var rest := members[1..];
      MaxRatedIsMaximum(rest);
      assert forall i :: 0 < i < |members| ==> members[i] == rest[i - 1];
      var j :| 0 <= j < |rest| && RatedOf(rest[j]) == MaxRated(rest);
      if RatedOf(members[0]) < MaxRated(rest) {
        assert members[j + 1] == rest[j];
        assert RatedOf(members[j + 1]) == MaxRated(members);
      } else {
        assert RatedOf(members[0]) == MaxRated(members);
      }
    }
  }

  /** The members' circuit ids, in member order. */
  function IdsOf(members: seq<Candidate>): seq<string>
  {
    if |members| == 0 then [] else [members[0].circuit.id] + IdsOf(members[1..])
  }

  lemma {:induction false} IdsOfIndex(members: seq<Candidate>)
    ensures |IdsOf(members)| == |members|
    ensures forall i :: 0 <= i < |members| ==> IdsOf(members)[i] == members[i].circuit.id
  {
    if |members| > 0 {
      IdsOfIndex(members[1..]);
    }
  }

  lemma {:induction false} IdsOfAppend(a: seq<Candidate>, b: seq<Candidate>)
    ensures IdsOf(a + b) == IdsOf(a) + IdsOf(b)
  {
    if |a| == 0 {
      assert a + b == b;
    } else {
      IdsOfAppend(a[1..], b);
      assert (a + b)[1..] == a[1..] + b;
    }
  }

  function BuildGroup(id: string, members: seq<Candidate>, hasManual: bool, resolve: Resolver): RcdGroup
    requires |members| > 0
  {
    var sharedReq := members[0].rcdReq.(ratedCurrent := Some(MaxRated(members)));
    var resolved := resolve([sharedReq]);
    RcdGroup(
      id,
      members[0].circuit.verteilerId,
      sharedReq,
      if |resolved| > 0 then Some(resolved[0]) else None,
      IdsOf(members),
      hasManual)
  }

  // ---------------------------------------------------------------------------
  // Splitting a bucket (`splitIntoChunks`).
  // ---------------------------------------------------------------------------

  function ChunkId(key: string, k: nat): string
  {
    if k == 0 then "rcd-group-" + key else "rcd-group-" + key + "-" + NatToString(k)
  }

  function ByCircuitId(m: Candidate): string { m.circuit.id }

  /** The groups built from consecutive slices `xs[i..i + n]` of xs, the
      first numbered k. */
  function ChunkGroups(key: string, xs: seq<Candidate>, n: nat, k: nat, hasManual: bool, resolve: Resolver): (gs: seq<RcdGroup>)
    requires n >= 1
    decreases |xs|
  {
    if |xs| == 0 then []
    else [BuildGroup(ChunkId(key, k), xs[..Min(n, |xs|)], hasManual, resolve)]
         + ChunkGroups(key, xs[Min(n, |xs|)..], n, k + 1, hasManual, resolve)
  }

  /** The groups of one bucket: sorted by circuit id and cut into slices of
      at most n. */
  function SplitGroups(key: string, members: seq<Candidate>, n: nat, hasManual: bool, resolve: Resolver): seq<RcdGroup>
    requires n >= 1
  {
    ChunkGroups(key, SortBy(members, ByCircuitId), n, 0, hasManual, resolve)
  }

  lemma {:induction false} MulAtLeast(m: int, n: int)
    requires m >= 1 && n >= 1
    ensures m * n >= n
    decreases m
  {
    if m > 1 {
      MulAtLeast(m - 1, n);
      assert m * n == (m - 1) * n + n;
    }
  }

  /** The chunk index `i / maxLss` of the k-th chunk start is k. */
  lemma MulDiv(k: nat, n: nat)
    requires n >= 1
    ensures (k * n) / n == k
  {
    var q := (k * n) / n;
    var r := (k * n) % n;
    assert k * n == q * n + r && 0 <= r < n;
    assert (k - q) * n == r;
    if k - q >= 1 {
      MulAtLeast(k - q, n);
    } else if q - k >= 1 {
      MulAtLeast(q - k, n);
    }
  }

  /** `i` is the start of chunk k, that is, i == k * n, stated without
      multiplication so that the loop's proof stays linear. */
  predicate IsChunkStart(i: int, k: nat, n: nat)
    decreases k
  {
    if k == 0 then i == 0 else IsChunkStart(i - n, k - 1, n)
  }

  lemma {:induction false} ChunkStartProduct(i: int, k: nat, n: nat)
    requires n >= 1 && IsChunkStart(i, k, n)
    ensures i == k * n
    decreases k
  {
    if k > 0 {
      ChunkStartProduct(i - n, k - 1, n);
    }
  }

  lemma ChunkStartIndex(i: int, k: nat, n: nat)
    requires n >= 1 && IsChunkStart(i, k, n)
    ensures i / n == k
  {
    ChunkStartProduct(i, k, n);
    MulDiv(k, n);
  }

  lemma {:induction false} ChunkStartNonNegative(i: int, k: nat, n: nat)
    requires IsChunkStart(i, k, n)
    ensures i >= 0
    decreases k
  {
    if k > 0 {
      ChunkStartNonNegative(i - n, k - 1, n);
    }
  }

  /** The slice the loop takes at the start of chunk k is chunk k. */
  lemma {:induction false} ChunkAtStart(xs: seq<Candidate>, n: nat, i: int, k: nat)
    requires n >= 1 && 0 <= i < |xs| && IsChunkStart(i, k, n)
    ensures k < |Chunks(xs, n)| && Chunks(xs, n)[k] == xs[i..Min(i + n, |xs|)]
    decreases k
  {
    if k > 0 {
      ChunkStartNonNegative(i - n, k - 1, n);
      var rest := xs[n..];
      assert xs[..Min(n, |xs|)] == xs[..n];
      ChunkAtStart(rest, n, i - n, k - 1);
      assert Chunks(xs, n) == [xs[..n]] + Chunks(rest, n);
      var hi := Min(i - n + n, |rest|);
      assert hi + n == Min(i + n, |xs|);
      DropSlice(xs, n, i - n, hi);
    }
  }

  /** Once the loop's index has passed the end, all chunks have been taken. */
  lemma {:induction false} ChunksTaken(xs: seq<Candidate>, n: nat, i: int, k: nat)
    requires n >= 1 && i >= |xs| && IsChunkStart(i, k, n)
    ensures |Chunks(xs, n)| <= k
    decreases k
  {
    if |xs| > 0 && k > 0 {
      var m := Min(n, |xs|);
      ChunkStartNonNegative(i - n, k - 1, n);
      ChunksTaken(xs[m..], n, i - n, k - 1);
    }
  }

  lemma {:induction false} ChunkGroupsCount(key: string, xs: seq<Candidate>, n: nat, k: nat, hasManual: bool, resolve: Resolver)
    requires n >= 1
    ensures |ChunkGroups(key, xs, n, k, hasManual, resolve)| == |Chunks(xs, n)|
    decreases |xs|
  {
    if |xs| > 0 {
      ChunkGroupsCount(key, xs[Min(n, |xs|)..], n, k + 1, hasManual, resolve);
    }
  }

  /** Group j of the groups numbered from k is chunk j built under number k + j. */
  lemma {:induction false} ChunkGroupsAt(key: string, xs: seq<Candidate>, n: nat, k: nat, hasManual: bool,
                                         resolve: Resolver, j: nat, t: nat)
    requires n >= 1 && t == k + j
    requires j < |ChunkGroups(key, xs, n, k, hasManual, resolve)|
    ensures |ChunkGroups(key, xs, n, k, hasManual, resolve)| == |Chunks(xs, n)|
    ensures 1 <= |Chunks(xs, n)[j]| <= n
    ensures ChunkGroups(key, xs, n, k, hasManual, resolve)[j] == BuildGroup(ChunkId(key, t), Chunks(xs, n)[j], hasManual, resolve)
    decreases |xs|
  {
    var m := Min(n, |xs|);
    var rest := ChunkGroups(key, xs[m..], n, k + 1, hasManual, resolve);
    ChunksShape(xs, n);
    assert Chunks(xs, n)[1..] == Chunks(xs[m..], n);
    if j > 0 {
      ChunkGroupsAt(key, xs[m..], n, k + 1, hasManual, resolve, j - 1, t);
    } else if |rest| > 0 {
      ChunkGroupsAt(key, xs[m..], n, k + 1, hasManual, resolve, 0, k + 1);
    } else {
      ChunkGroupsCount(key, xs[m..], n, k + 1, hasManual, resolve);
    }
  }

  /** Groups that are, one by one, the chunks built under their numbers are
      the groups of the bucket. */
  lemma ChunkGroupsByIndex(key: string, xs: seq<Candidate>, n: nat, hasManual: bool, resolve: Resolver, gs: seq<RcdGroup>)
    requires n >= 1 && |gs| == |Chunks(xs, n)|
    requires forall j :: 0 <= j < |gs| ==>
               |Chunks(xs, n)[j]| > 0 && gs[j] == BuildGroup(ChunkId(key, j), Chunks(xs, n)[j], hasManual, resolve)
    ensures gs == ChunkGroups(key, xs, n, 0, hasManual, resolve)
  {
    var all := ChunkGroups(key, xs, n, 0, hasManual, resolve);
    ChunkGroupsCount(key, xs, n, 0, hasManual, resolve);
    forall j | 0 <= j < |gs| ensures gs[j] == all[j] {
      ChunkGroupsAt(key, xs, n, 0, hasManual, resolve, j, j);
    }
  }

  lemma AppendEmpty<T>(a: seq<T>)
    ensures [] + a == a && a + [] == a
  {
  }

  method SplitIntoChunks(key: string, members: seq<Candidate>, maxLss: nat, hasManual: bool, resolve: Resolver)
    returns (result: seq<RcdGroup>)
    requires |members| > 0 && maxLss >= 1
    ensures result == SplitGroups(key, members, maxLss, hasManual, resolve)
  {
    var sorted := SortBy(members, ByCircuitId);
    if |sorted| <= maxLss {
      assert sorted[..Min(maxLss, |sorted|)] == sorted;
      assert sorted[Min(maxLss, |sorted|)..] == [];
      assert ChunkGroups(key, sorted, maxLss, 0, hasManual, resolve)
          == [BuildGroup(ChunkId(key, 0), sorted, hasManual, resolve)] + ChunkGroups(key, [], maxLss, 1, hasManual, resolve);
      AppendEmpty([BuildGroup(ChunkId(key, 0), sorted, hasManual, resolve)]);
      return [BuildGroup("rcd-group-" + key, sorted, hasManual, resolve)];
    }
    result := BuildChunks(key, sorted, maxLss, hasManual, resolve);
  }

  /** The slicing loop of `splitIntoChunks`, over the already sorted members. */
  method BuildChunks(key: string, sorted: seq<Candidate>, maxLss: nat, hasManual: bool, resolve: Resolver)
    returns (result: seq<RcdGroup>)
    requires maxLss >= 1
    ensures result == ChunkGroups(key, sorted, maxLss, 0, hasManual, resolve)
  {
    result := [];
    var i: nat := 0;
    ghost var k: nat := 0;
    while i < |sorted|
      invariant IsChunkStart(i, k, maxLss)
      invariant |result| == k <= |Chunks(sorted, maxLss)|
      invariant forall j :: 0 <= j < k ==>
                  |Chunks(sorted, maxLss)[j]| > 0
                  && result[j] == BuildGroup(ChunkId(key, j), Chunks(sorted, maxLss)[j], hasManual, resolve)
      decreases |sorted| - i
    {
      ChunkStartIndex(i, k, maxLss);
      ChunkAtStart(sorted, maxLss, i, k);
      var chunk := sorted[i..Min(i + maxLss, |sorted|)];
      var chunkIdx := i / maxLss;
      var id := ChunkId(key, chunkIdx);
      result := result + [BuildGroup(id, chunk, hasManual, resolve)];
      i := i + maxLss;
      k := k + 1;
    }
    ChunksTaken(sorted, maxLss, i, k);
    ChunkGroupsByIndex(key, sorted, maxLss, hasManual, resolve, result);
  }

  // ---------------------------------------------------------------------------
  // The whole grouping (`groupBySharedRcd`).
  // ---------------------------------------------------------------------------

  /** The chunk size: the requested `maxLssPerRcd`, 6 when absent, and never
      below 1. */
  function MaxLss(options: Option<RcdGroupingOptions>): (n: nat)
    ensures n >= 1
  {
    var requested := if options.Some? then options.value.maxLssPerRcd.GetOr(6) else 6;
    if requested >= 1 then requested else 1
  }

  /** The manual overrides of the options; none when the options or the list
      are absent. */
  function OverridesOf(options: Option<RcdGroupingOptions>): seq<RcdGroupOverride>
  {
    if options.Some? then options.value.manualOverrides.GetOr([]) else []
  }

  function StrategyOf(options: Option<RcdGroupingOptions>): Option<RcdGroupingStrategy>
  {
    if options.Some? then options.value.strategy else None
  }

  /** `new Map(circuits.map((c) => [c.id, c]))`: a later circuit with the same
      id replaces an earlier one. */
  function IndexById(circuits: seq<DerivedCircuit>): map<string, DerivedCircuit>
  {
    if |circuits| == 0 then map[]
    else IndexById(circuits[..|circuits| - 1])[circuits[|circuits| - 1].id := circuits[|circuits| - 1]]
  }

  /** An override's contribution to the manual groups: its group id and the
      candidate built from the circuit it names, or nothing when it has no
      group id, names no circuit (a stale override) or the circuit is not
      eligible. */
  function PinOf(byId: map<string, DerivedCircuit>, ov: RcdGroupOverride): Option<(string, Candidate)>
  {
    if ov.rcdGroupId.None? || ov.circuitId !in byId then None
    else match CandidateOf(byId[ov.circuitId])
      case None => None
      case Some(cand) => Some((ov.rcdGroupId.value, cand))
  }

  /** The (group id, candidate) pairs of the manual loop, in override order. */
  function Pins(byId: map<string, DerivedCircuit>, ovs: seq<RcdGroupOverride>): seq<(string, Candidate)>
  {
    if |ovs| == 0 then []
    else
      var last := PinOf(byId, ovs[|ovs| - 1]);
      Pins(byId, ovs[..|ovs| - 1]) + (if last.Some? then [last.value] else [])
  }

  /** `manualCircuitIds`: the circuit ids of the overrides that took effect. */
  function PinnedIds(byId: map<string, DerivedCircuit>, ovs: seq<RcdGroupOverride>): set<string>
  {
    set i | 0 <= i < |ovs| && PinOf(byId, ovs[i]).Some? :: ovs[i].circuitId
  }

  /** The (key, candidate) pairs of the automatic loop, in circuit order. */
  function AutoPool(circuits: seq<DerivedCircuit>, pinned: set<string>, strategy: Option<RcdGroupingStrategy>)
    : seq<(RcdKey, Candidate)>
  {
    if |circuits| == 0 then []
    else
      var c := circuits[|circuits| - 1];
      var cand := CandidateOf(c);
      AutoPool(circuits[..|circuits| - 1], pinned, strategy)
      + (if c.id !in pinned && cand.Some? then [(KeyOf(c, cand.value.rcdReq, strategy), cand.value)] else [])
  }

  /** The groups of a list of buckets, bucket by bucket, skipping empty ones;
      `text` renders a bucket key for the group ids. */
  function SplitBuckets<K>(b: seq<(K, seq<Candidate>)>, text: K -> string, n: nat, hasManual: bool, resolve: Resolver)
    : seq<RcdGroup>
    requires n >= 1
  {
    if |b| == 0 then []
    else
      var last := b[|b| - 1];
      SplitBuckets(b[..|b| - 1], text, n, hasManual, resolve)
      + (if |last.1| == 0 then [] else SplitGroups(text(last.0), last.1, n, hasManual, resolve))
  }

  /** A manual group id is used as it is. */
  function Verbatim(s: string): string { s }

  /** The chunks of the automatic buckets. */
  function AutoGroups(circuits: seq<DerivedCircuit>, options: Option<RcdGroupingOptions>, resolve: Resolver): seq<RcdGroup>
  {
    var pinned := PinnedIds(IndexById(circuits), OverridesOf(options));
    SplitBuckets(Buckets(AutoPool(circuits, pinned, StrategyOf(options))), KeyText, MaxLss(options), false, resolve)
  }

  /** The chunks of the manual buckets. */
  function ManualGroups(circuits: seq<DerivedCircuit>, options: Option<RcdGroupingOptions>, resolve: Resolver): seq<RcdGroup>
  {
    SplitBuckets(Buckets(Pins(IndexById(circuits), OverridesOf(options))), Verbatim, MaxLss(options), true, resolve)
  }

  /** The result of `groupBySharedRcd`: the automatic groups, then the manual ones. */
  function RcdGroups(circuits: seq<DerivedCircuit>, options: Option<RcdGroupingOptions>, resolve: Resolver): seq<RcdGroup>
  {
    AutoGroups(circuits, options, resolve) + ManualGroups(circuits, options, resolve)
  }

  method GroupBySharedRcd(circuits: seq<DerivedCircuit>, options: Option<RcdGroupingOptions>, resolve: Resolver)
    returns (result: seq<RcdGroup>)
    ensures result == RcdGroups(circuits, options, resolve)
  {
    var maxLss := if options.Some? then options.value.maxLssPerRcd.GetOr(6) else 6;
    if maxLss < 1 {
      maxLss := 1;
    }
    var overrides := if options.Some? then options.value.manualOverrides.GetOr([]) else [];
    var strategy := if options.Some? then options.value.strategy else None;
    var circuitById := IndexCircuits(circuits);
    var manualCircuitIds, manualGroups := CollectManual(circuitById, overrides);
    var autoGroups := CollectAuto(circuits, manualCircuitIds, strategy);
    result := [];
    result := AppendSplits(result, autoGroups, KeyText, maxLss, false, resolve);
    result := AppendSplits(result, manualGroups, Verbatim, maxLss, true, resolve);
    AppendEmpty(SplitBuckets(autoGroups, KeyText, maxLss, false, resolve));
  }

  /** Builds the index of circuits by id in one pass, a later circuit with the
      same id replacing an earlier one. */
  method IndexCircuits(circuits: seq<DerivedCircuit>) returns (circuitById: map<string, DerivedCircuit>)
    ensures circuitById == IndexById(circuits)
  {
    circuitById := map[];
    var i := 0;
    while i < |circuits|
      invariant 0 <= i <= |circuits|
      invariant circuitById == IndexById(circuits[..i])
    {
      assert circuits[..i + 1][..i] == circuits[..i];
      circuitById := circuitById[circuits[i].id := circuits[i]];
      i := i + 1;
    }
    assert circuits[..i] == circuits;
  }

  /** The override loop: which circuits are pinned, and the manual buckets. */
  method CollectManual(circuitById: map<string, DerivedCircuit>, overrides: seq<RcdGroupOverride>)
    returns (manualCircuitIds: set<string>, manualGroups: seq<(string, seq<Candidate>)>)
    ensures manualCircuitIds == PinnedIds(circuitById, overrides)
    ensures manualGroups == Buckets(Pins(circuitById, overrides))
  {
    manualCircuitIds := {};
    manualGroups := [];
    var i := 0;
    while i < |overrides|
      invariant 0 <= i <= |overrides|
      invariant manualCircuitIds == PinnedIds(circuitById, overrides[..i])
      invariant manualGroups == Buckets(Pins(circuitById, overrides[..i]))
    {
      var ov := overrides[i];
      PinsStep(circuitById, overrides, i);
      if ov.rcdGroupId.Some? && ov.circuitId in circuitById {
        var circuit := circuitById[ov.circuitId];
        var rcdReq := FindRequirement(circuit.mergedRequirements, RcdRoles);
        if !HasRcbo(circuit) && rcdReq.Some? {
          manualCircuitIds := manualCircuitIds + {ov.circuitId};
          manualGroups := AddTo(manualGroups, ov.rcdGroupId.value, Candidate(circuit, rcdReq.value));
        }
      }
      i := i + 1;
    }
    assert overrides[..i] == overrides;
  }

  /** The circuit loop: the automatic buckets of the circuits nobody pinned. */
  method CollectAuto(circuits: seq<DerivedCircuit>, manualCircuitIds: set<string>, strategy: Option<RcdGroupingStrategy>)
    returns (autoGroups: seq<(RcdKey, seq<Candidate>)>)
    ensures autoGroups == Buckets(AutoPool(circuits, manualCircuitIds, strategy))
  {
    autoGroups := [];
    var i := 0;
    while i < |circuits|
      invariant 0 <= i <= |circuits|
      invariant autoGroups == Buckets(AutoPool(circuits[..i], manualCircuitIds, strategy))
    {
      var circuit := circuits[i];
      AutoPoolStep(circuits, manualCircuitIds, strategy, i);
      if circuit.id !in manualCircuitIds && !HasRcbo(circuit) {
        var rcdReq := FindRequirement(circuit.mergedRequirements, RcdRoles);
        if rcdReq.Some? {
          var key := KeyOf(circuit, rcdReq.value, strategy);
          autoGroups := AddTo(autoGroups, key, Candidate(circuit, rcdReq.value));
        }
      }
      i := i + 1;
    }
    assert circuits[..i] == circuits;
  }

  /** The result loops: the chunks of every non-empty bucket, in bucket order. */
  method AppendSplits<K>(prefix: seq<RcdGroup>, buckets: seq<(K, seq<Candidate>)>, text: K -> string, maxLss: nat,
                         hasManual: bool, resolve: Resolver)
    returns (result: seq<RcdGroup>)
    requires maxLss >= 1
    ensures result == prefix + SplitBuckets(buckets, text, maxLss, hasManual, resolve)
  {
    result := prefix;
    var i := 0;
    AppendEmpty(prefix);
    while i < |buckets|
      invariant 0 <= i <= |buckets|
      invariant result == prefix + SplitBuckets(buckets[..i], text, maxLss, hasManual, resolve)
    {
      var (key, members) := buckets[i];
      SplitBucketsStep(buckets, text, maxLss, hasManual, resolve, i);
      if |members| > 0 {
        var chunks := SplitIntoChunks(text(key), members, maxLss, hasManual, resolve);
        AppendAssoc(prefix, SplitBuckets(buckets[..i], text, maxLss, hasManual, resolve), chunks);
        result := result + chunks;
      } else {
        AppendEmpty(SplitBuckets(buckets[..i], text, maxLss, hasManual, resolve));
      }
      i := i + 1;
    }
    assert buckets[..i] == buckets;
  }

  lemma AppendAssoc<T>(a: seq<T>, b: seq<T>, c: seq<T>)
    ensures (a + b) + c == a + (b + c)
  {
  }

  lemma SplitBucketsStep<K>(b: seq<(K, seq<Candidate>)>, text: K -> string, n: nat, hasManual: bool, resolve: Resolver, i: nat)
    requires n >= 1 && i < |b|
    ensures SplitBuckets(b[..i + 1], text, n, hasManual, resolve)
         == SplitBuckets(b[..i], text, n, hasManual, resolve)
            + (if |b[i].1| == 0 then [] else SplitGroups(text(b[i].0), b[i].1, n, hasManual, resolve))
  {
    assert b[..i + 1][..i] == b[..i];
  }

  lemma AutoPoolStep(circuits: seq<DerivedCircuit>, pinned: set<string>, strategy: Option<RcdGroupingStrategy>, i: nat)
    requires i < |circuits|
    ensures Buckets(AutoPool(circuits[..i + 1], pinned, strategy))
         == (var c := circuits[i];
             var cand := CandidateOf(c);
             if c.id !in pinned && cand.Some?
             then AddTo(Buckets(AutoPool(circuits[..i], pinned, strategy)), KeyOf(c, cand.value.rcdReq, strategy), cand.value)
             else Buckets(AutoPool(circuits[..i], pinned, strategy)))
  {
    assert circuits[..i + 1][..i] == circuits[..i];
    var p := AutoPool(circuits[..i], pinned, strategy);
    var c := circuits[i];
    var cand := CandidateOf(c);
    if c.id !in pinned && cand.Some? {
      BucketsSnoc(p, (KeyOf(c, cand.value.rcdReq, strategy), cand.value));
    } else {
      AppendEmpty(p);
    }
  }

  lemma PinsStep(byId: map<string, DerivedCircuit>, ovs: seq<RcdGroupOverride>, i: nat)
    requires i < |ovs|
    ensures PinnedIds(byId, ovs[..i + 1])
         == PinnedIds(byId, ovs[..i]) + (if PinOf(byId, ovs[i]).Some? then {ovs[i].circuitId} else {})
    ensures Buckets(Pins(byId, ovs[..i + 1]))
         == (var pin := PinOf(byId, ovs[i]);
             if pin.Some? then AddTo(Buckets(Pins(byId, ovs[..i])), pin.value.0, pin.value.1)
             else Buckets(Pins(byId, ovs[..i])))
  {
    PinnedIdsStep(byId, ovs, i);
    PinsBucketsStep(byId, ovs, i);
  }

  lemma PinnedIdsStep(byId: map<string, DerivedCircuit>, ovs: seq<RcdGroupOverride>, i: nat)
    requires i < |ovs|
    ensures PinnedIds(byId, ovs[..i + 1])
         == PinnedIds(byId, ovs[..i]) + (if PinOf(byId, ovs[i]).Some? then {ovs[i].circuitId} else {})
  {
    var a, b := ovs[..i], ovs[..i + 1];
    assert forall j :: 0 <= j < i ==> b[j] == a[j];
    assert b[i] == ovs[i];
  }

  lemma PinsBucketsStep(byId: map<string, DerivedCircuit>, ovs: seq<RcdGroupOverride>, i: nat)
    requires i < |ovs|
    ensures Buckets(Pins(byId, ovs[..i + 1]))
         == (var pin := PinOf(byId, ovs[i]);
             if pin.Some? then AddTo(Buckets(Pins(byId, ovs[..i])), pin.value.0, pin.value.1)
             else Buckets(Pins(byId, ovs[..i])))
  {
    var a, b := ovs[..i], ovs[..i + 1];
    assert b[..i] == a;
    assert b[i] == ovs[i];
    var p := Pins(byId, a);
    assert Pins(byId, b) == p + (if PinOf(byId, ovs[i]).Some? then [PinOf(byId, ovs[i]).value] else []);
    var pin := PinOf(byId, ovs[i]);
    if pin.Some? {
      BucketsSnoc(p, pin.value);
    } else {
      AppendEmpty(p);
    }
  }

  // ---------------------------------------------------------------------------
  // `circuitDevicesWithoutRcd`
  // ---------------------------------------------------------------------------

  predicate NotRcd(d: StromkreisDevice) { d.role !in RcdRoles }

  /** A circuit's own devices without the RCD, which the group shares: exactly
      the devices whose role is neither RCD role, in their original order and
      multiplicity. */
  function CircuitDevicesWithoutRcd(c: DerivedCircuit): (r: seq<StromkreisDevice>)
    ensures IsSubsequence(r, c.resolvedDevices)
    ensures forall d :: d in r <==> d in c.resolvedDevices && d.role != Rcd && d.role != RcdTypeB
    ensures forall d :: multiset(r)[d] == if d.role != Rcd && d.role != RcdTypeB then multiset(c.resolvedDevices)[d] else 0
  {
    FilterSpec(c.resolvedDevices, NotRcd);
    FilterCount(c.resolvedDevices, NotRcd);
    Filter(c.resolvedDevices, NotRcd)
  }
}
