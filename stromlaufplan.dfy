/** The circuit diagram of src/components/views/Stromlaufplan.tsx: one
    circuit per raw (board, circuit breaker, RCD) triple, listing the placed
    symbols on it in placement order with their labels and room names. */
module StromlaufplanView {
  import opened Common
  import opened Grouping
  import opened Types

  datatype CircuitSymbol = CircuitSymbol(key: string, labelText: string, raum: string)

  datatype Circuit = Circuit(verteiler: string, lss: string, rcd: string, symbols: seq<CircuitSymbol>)

  /** The map key `${verteiler}|${lss}|${rcd}` on the RAW board name, as a triple. */
  type CircuitKey = (string, string, string)

  function RawKey(s: PlacedSymbol): CircuitKey
  {
    (s.attribute.verteiler, s.elektrisch.leitungsschutzschalter, s.elektrisch.rcd)
  }

  function CircuitBoard(c: Circuit): string { c.verteiler }

  function MemberCount(c: Circuit): int { |c.symbols| }

  /** `getRaumName`: the room's name on the first floor that has it, else the id. */
  function RaumName(floors: seq<Stockwerk>, raumId: string): (name: string)
    ensures (forall i :: 0 <= i < |floors| ==> !HasRaum(floors[i], raumId)) ==> name == raumId
    ensures (exists i :: 0 <= i < |floors| && HasRaum(floors[i], raumId)) ==>
      exists i :: 0 <= i < |floors| && (forall j :: 0 <= j < i ==> !HasRaum(floors[j], raumId))
                  && FindRaumIn(floors[i].raeume, raumId).Some?
                  && name == FindRaumIn(floors[i].raeume, raumId).value.name
  {
    match RoomOf(floors, raumId)
    case Some(found) => found.1.name
    case None => raumId
  }

  /** The loop of `getRaumName`. */
  method GetRaumName(floors: seq<Stockwerk>, raumId: string) returns (name: string)
    ensures name == RaumName(floors, raumId)
  {
    var k := 0;
    while k < |floors|
      invariant 0 <= k <= |floors|
      invariant forall j :: 0 <= j < k ==> !HasRaum(floors[j], raumId)
    {
      var r := FindRaumIn(floors[k].raeume, raumId);
      if r.Some? {
        FirstFloorAt(floors, raumId, k);
        return r.value.name;
      }
      k := k + 1;
    }
    FirstFloorAt(floors, raumId, k);
    return raumId;
  }

  /** The entry a symbol adds to its circuit. */
  function Member(catalog: seq<SymbolDefinition>, floors: seq<Stockwerk>, s: PlacedSymbol): CircuitSymbol
  {
    CircuitSymbol(s.symbolKey, SymbolLabel(catalog, s), RaumName(floors, s.raumId))
  }

  function MemberOf(catalog: seq<SymbolDefinition>, floors: seq<Stockwerk>): PlacedSymbol -> CircuitSymbol
  {
    (s: PlacedSymbol) => Member(catalog, floors, s)
  }

  /** The entries of a sequence of symbols, in order. */
  function Members(member: PlacedSymbol -> CircuitSymbol, vs: seq<PlacedSymbol>): seq<CircuitSymbol>
  {
    if |vs| == 0 then [] else Members(member, vs[..|vs| - 1]) + [member(vs[|vs| - 1])]
  }

  /** A new circuit, shown on `verteiler || 'Unbekannt'`, with its first member. */
  function Open(member: PlacedSymbol -> CircuitSymbol): PlacedSymbol -> Circuit
  {
    (s: PlacedSymbol) => Circuit(BoardName(s), s.elektrisch.leitungsschutzschalter, s.elektrisch.rcd, [] + [member(s)])
  }

  /** `symbols.push(...)` on an existing circuit. */
  function Join(member: PlacedSymbol -> CircuitSymbol): (Circuit, PlacedSymbol) -> Circuit
  {
    (c: Circuit, s: PlacedSymbol) => c.(symbols := c.symbols + [member(s)])
  }

  function CircuitMap(member: PlacedSymbol -> CircuitSymbol, syms: seq<PlacedSymbol>)
    : seq<(CircuitKey, Circuit)>
  {
    Accumulate(Keyed(Filter(syms, HasBreaker), RawKey), Open(member), Join(member))
  }

  /** Reference definition of the circuits. */
  function CircuitList(member: PlacedSymbol -> CircuitSymbol, syms: seq<PlacedSymbol>): seq<Circuit>
  {
    SortBy(Values(CircuitMap(member, syms)), CircuitBoard)
  }

  lemma CircuitMapNext(member: PlacedSymbol -> CircuitSymbol, syms: seq<PlacedSymbol>, s: nat)
    requires s < |syms|
    ensures CircuitMap(member, syms[..s + 1])
         == if HasBreaker(syms[s])
            then AddAcc(CircuitMap(member, syms[..s]), RawKey(syms[s]), syms[s], Open(member), Join(member))
            else CircuitMap(member, syms[..s])
  {
    AccumulatePrefixNext(syms, s, HasBreaker, RawKey, Open(member), Join(member));
  }

  /** One qualifying symbol: its circuit is created empty when new, then the
      symbol's entry is pushed onto it. */
  method AddToCircuit(catalog: seq<SymbolDefinition>, floors: seq<Stockwerk>,
                      byKey0: seq<(CircuitKey, Circuit)>, sym: PlacedSymbol)
    returns (byKey: seq<(CircuitKey, Circuit)>)
    ensures byKey == AddAcc(byKey0, RawKey(sym), sym, Open(MemberOf(catalog, floors)), Join(MemberOf(catalog, floors)))
  {
    byKey := byKey0;
    var key := (sym.attribute.verteiler, sym.elektrisch.leitungsschutzschalter, sym.elektrisch.rcd);
    var i := KeyIndex(byKey, key);
    if i == |byKey| {
      var v := if sym.attribute.verteiler == "" then "Unbekannt" else sym.attribute.verteiler;
      byKey := byKey + [(key, Circuit(v, sym.elektrisch.leitungsschutzschalter, sym.elektrisch.rcd, []))];
    }
    var entry := SymbolEntry(catalog, floors, sym);
    byKey := byKey[i := (key, byKey[i].1.(symbols := byKey[i].1.symbols + [entry]))];
  }

  /** The entry pushed for a symbol: its key, its catalogue label (the key
      itself when the catalogue has none) and its room's name. */
  method SymbolEntry(catalog: seq<SymbolDefinition>, floors: seq<Stockwerk>, sym: PlacedSymbol)
    returns (entry: CircuitSymbol)
    ensures entry == MemberOf(catalog, floors)(sym)
  {
    var def := FindDefinition(catalog, sym.symbolKey);
    var raum := GetRaumName(floors, sym.raumId);
    entry := CircuitSymbol(sym.symbolKey, if def.Some? then def.value.labelText else sym.symbolKey, raum);
  }

  /** The `circuits` memo. */
  method Circuits(catalog: seq<SymbolDefinition>, floors: seq<Stockwerk>, syms: seq<PlacedSymbol>)
    returns (circuits: seq<Circuit>)
    ensures circuits == CircuitList(MemberOf(catalog, floors), syms)
  {
    ghost var member := MemberOf(catalog, floors);
    var byKey: seq<(CircuitKey, Circuit)> := [];
    var s := 0;
    while s < |syms|
      invariant 0 <= s <= |syms|
      invariant byKey == CircuitMap(member, syms[..s])
    {
      var sym := syms[s];
      CircuitMapNext(member, syms, s);
      if sym.elektrisch.leitungsschutzschalter == "" {
        s := s + 1;
        continue;
      }
      byKey := AddToCircuit(catalog, floors, byKey, sym);
      s := s + 1;
    }
    assert syms[..s] == syms;
    circuits := SortBy(Values(byKey), CircuitBoard);
  }

  // ---------------------------------------------------------------------------
  // What the circuits promise.
  // ---------------------------------------------------------------------------

  /** The qualifying symbols with one raw key, in placement order. */
  function OnCircuit(syms: seq<PlacedSymbol>, k: CircuitKey): seq<PlacedSymbol>
  {
    Filter(Filter(syms, HasBreaker), HasKey(RawKey, k))
  }

  lemma {:induction false} MembersIndex(member: PlacedSymbol -> CircuitSymbol, vs: seq<PlacedSymbol>)
    ensures |Members(member, vs)| == |vs|
    ensures forall i :: 0 <= i < |vs| ==> Members(member, vs)[i] == member(vs[i])
  {
    if |vs| > 0 { MembersIndex(member, vs[..|vs| - 1]); }
  }

  /** The symbols sharing a raw key fold to the circuit of that key with
      their entries in order. */
  lemma {:induction false} FoldCircuit(member: PlacedSymbol -> CircuitSymbol, vs: seq<PlacedSymbol>, k: CircuitKey)
    requires |vs| > 0 && forall s :: s in vs ==> RawKey(s) == k
    ensures FoldBucket(vs, Open(member), Join(member))
         == Circuit(if k.0 == "" then "Unbekannt" else k.0, k.1, k.2, Members(member, vs))
  {
    assert vs[|vs| - 1] in vs;
    if |vs| > 1 {
      var p := vs[..|vs| - 1];
      assert forall s :: s in p ==> s in vs;
      FoldCircuit(member, p, k);
    } else {
      assert vs[0] in vs;
      assert vs[..0] == [];
    }
  }

  /** The circuit map: one entry per raw key that occurs among the
      qualifying symbols, in order of first occurrence, each the circuit of
      that key holding the entries of its symbols in placement order. */
  lemma CircuitMapFacts(member: PlacedSymbol -> CircuitSymbol, syms: seq<PlacedSymbol>)
    ensures var m := CircuitMap(member, syms);
      && DistinctKeys(m)
      && (forall i :: 0 <= i < |m| ==>
            && |OnCircuit(syms, m[i].0)| > 0
            && m[i].1 == Circuit(if m[i].0.0 == "" then "Unbekannt" else m[i].0.0, m[i].0.1, m[i].0.2,
                                 Members(member, OnCircuit(syms, m[i].0))))
      && (forall s :: s in syms && HasBreaker(s) ==> KeyIndex(m, RawKey(s)) < |m|)
      && (forall i, j :: 0 <= i < j < |m| ==>
            KeyIndex(Keyed(Filter(syms, HasBreaker), RawKey), m[i].0) < KeyIndex(Keyed(Filter(syms, HasBreaker), RawKey), m[j].0))
  {
    var xs := Filter(syms, HasBreaker);
    var m := CircuitMap(member, syms);
    AccumulateFacts(xs, RawKey, Open(member), Join(member));
    forall s | s in syms && HasBreaker(s) ensures KeyIndex(m, RawKey(s)) < |m| {
      CircuitOf(member, syms, m, s);
    }
    forall i | 0 <= i < |m|
      ensures |OnCircuit(syms, m[i].0)| > 0
      ensures m[i].1 == Circuit(if m[i].0.0 == "" then "Unbekannt" else m[i].0.0, m[i].0.1, m[i].0.2,
                                Members(member, OnCircuit(syms, m[i].0)))
    {
      CircuitEntry(member, syms, m, i);
    }
  }

  lemma CircuitEntry(member: PlacedSymbol -> CircuitSymbol, syms: seq<PlacedSymbol>, m: seq<(CircuitKey, Circuit)>, i: nat)
    requires m == CircuitMap(member, syms) && i < |m|
    ensures |OnCircuit(syms, m[i].0)| > 0
    ensures m[i].1 == Circuit(if m[i].0.0 == "" then "Unbekannt" else m[i].0.0, m[i].0.1, m[i].0.2,
                              Members(member, OnCircuit(syms, m[i].0)))
  {
    var xs := Filter(syms, HasBreaker);
    AccumulateFacts(xs, RawKey, Open(member), Join(member));
    FilterSpec(xs, HasKey(RawKey, m[i].0));
    FoldCircuit(member, OnCircuit(syms, m[i].0), m[i].0);
  }

  lemma CircuitOf(member: PlacedSymbol -> CircuitSymbol, syms: seq<PlacedSymbol>, m: seq<(CircuitKey, Circuit)>, s: PlacedSymbol)
    requires m == CircuitMap(member, syms) && s in syms && HasBreaker(s)
    ensures KeyIndex(m, RawKey(s)) < |m| && m[KeyIndex(m, RawKey(s))].0 == RawKey(s)
    ensures s in OnCircuit(syms, RawKey(s))
  {
    var xs := Filter(syms, HasBreaker);
    AccumulateFacts(xs, RawKey, Open(member), Join(member));
    FilterSpec(syms, HasBreaker);
    FilterSpec(xs, HasKey(RawKey, RawKey(s)));
    assert s in xs;
  }

  /** Every qualifying symbol is a member of exactly one circuit: the
      member counts add up to the number of qualifying symbols. */
  lemma MembersPartition(member: PlacedSymbol -> CircuitSymbol, syms: seq<PlacedSymbol>)
    ensures SumOf(Values(CircuitMap(member, syms)), MemberCount) == |Filter(syms, HasBreaker)|
  {
    var xs := Filter(syms, HasBreaker);
    forall k | |Filter(xs, HasKey(RawKey, k))| > 0
      ensures MemberCount(FoldBucket(Filter(xs, HasKey(RawKey, k)), Open(member), Join(member)))
           == SumOf(Filter(xs, HasKey(RawKey, k)), One)
    {
      var vs := Filter(xs, HasKey(RawKey, k));
      FilterSpec(xs, HasKey(RawKey, k));
      FoldCircuit(member, vs, k);
      MembersIndex(member, vs);
      SumOfOne(vs);
    }
    AccumulateConserve(xs, RawKey, Open(member), Join(member), MemberCount, One);
    SumOfOne(xs);
  }

  /** The circuits: sorted by shown board, a permutation of the circuit
      map's entries, keeping first-occurrence order among circuits on the
      same board, and holding every qualifying symbol once in all. */
  lemma CircuitListFacts(member: PlacedSymbol -> CircuitSymbol, syms: seq<PlacedSymbol>)
    ensures var cs := CircuitList(member, syms); var u := Values(CircuitMap(member, syms));
      && SortedBy(cs, CircuitBoard)
      && multiset(cs) == multiset(u)
      && (forall b :: WithKey(cs, CircuitBoard, b) == WithKey(u, CircuitBoard, b))
      && SumOf(cs, MemberCount) == |Filter(syms, HasBreaker)|
  {
    var u := Values(CircuitMap(member, syms));
    forall b ensures WithKey(CircuitList(member, syms), CircuitBoard, b) == WithKey(u, CircuitBoard, b) {
      SortByStable(u, CircuitBoard, b);
    }
    SortBySum(u, CircuitBoard, MemberCount);
    MembersPartition(member, syms);
  }

  /** Each circuit shown comes from a raw key that occurs: its board is that
      key's board or "Unbekannt" for an empty one, and its members are the
      entries of exactly the qualifying symbols with that key, in order. */
  lemma CircuitMembers(member: PlacedSymbol -> CircuitSymbol, syms: seq<PlacedSymbol>)
    ensures forall c :: c in CircuitList(member, syms) ==>
      exists k: CircuitKey ::
        && |OnCircuit(syms, k)| > 0
        && c == Circuit(if k.0 == "" then "Unbekannt" else k.0, k.1, k.2, Members(member, OnCircuit(syms, k)))
  {
    var m := CircuitMap(member, syms);
    var u := Values(m);
    ValuesIndex(m);
    forall c | c in CircuitList(member, syms)
      ensures exists k: CircuitKey ::
        && |OnCircuit(syms, k)| > 0
        && c == Circuit(if k.0 == "" then "Unbekannt" else k.0, k.1, k.2, Members(member, OnCircuit(syms, k)))
    {
      SortedFrom(u, CircuitBoard, c);
      var i :| 0 <= i < |u| && u[i] == c;
      CircuitEntry(member, syms, m, i);
      var k := m[i].0;
      assert c == m[i].1;
    }
  }

  /** Every qualifying symbol is listed, with its label and room, in a
      circuit shown on its board with its circuit breaker and RCD. */
  lemma SymbolListed(member: PlacedSymbol -> CircuitSymbol, syms: seq<PlacedSymbol>, s: PlacedSymbol)
    requires s in syms && HasBreaker(s)
    ensures exists c :: (c in CircuitList(member, syms)
      && c.verteiler == BoardName(s) && c.lss == s.elektrisch.leitungsschutzschalter && c.rcd == s.elektrisch.rcd
      && member(s) in c.symbols)
  {
    var m := CircuitMap(member, syms);
    var u := Values(m);
    CircuitOf(member, syms, m, s);
    ValuesIndex(m);
    var i := KeyIndex(m, RawKey(s));
    CircuitEntry(member, syms, m, i);
    var vs := OnCircuit(syms, RawKey(s));
    var n :| 0 <= n < |vs| && vs[n] == s;
    MembersIndex(member, vs);
    assert Members(member, vs)[n] == member(s);
    assert u[i] == m[i].1;
    SortedTo(u, CircuitBoard, i);
  }

  /** The raw key keeps an empty board apart from one literally named
      "Unbekannt", though both are shown as "Unbekannt": such symbols on the
      same breaker and RCD give two circuits that look the same. */
  lemma UnknownBoardSplits(member: PlacedSymbol -> CircuitSymbol, syms: seq<PlacedSymbol>,
                           s1: PlacedSymbol, s2: PlacedSymbol)
    requires s1 in syms && s2 in syms && HasBreaker(s1)
    requires s1.attribute.verteiler == "" && s2.attribute.verteiler == "Unbekannt"
    requires s1.elektrisch == s2.elektrisch
    ensures var cs := CircuitList(member, syms);
      exists i, j :: 0 <= i < |cs| && 0 <= j < |cs| && i != j
        && cs[i].verteiler == "Unbekannt" && cs[j].verteiler == "Unbekannt"
        && cs[i].lss == cs[j].lss && cs[i].rcd == cs[j].rcd
  {
    var m := CircuitMap(member, syms);
    CircuitOf(member, syms, m, s1);
    CircuitOf(member, syms, m, s2);
    var a := KeyIndex(m, RawKey(s1));
    var b := KeyIndex(m, RawKey(s2));
    CircuitEntry(member, syms, m, a);
    CircuitEntry(member, syms, m, b);
    ValuesIndex(m);
    PermutedPair(Values(m), CircuitList(member, syms), Min(a, b), if a <= b then b else a);
  }
}
