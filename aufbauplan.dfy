/** The cabinet layout of src/components/views/Aufbauplan.tsx: per
    distribution board, one row per (circuit breaker, RCD) pair counting the
    placed symbols on it; symbols without a circuit breaker are ignored. */
module AufbauplanView {
  import opened Common
  import opened Grouping
  import opened Types

  datatype CabinetRow = CabinetRow(lss: string, rcd: string, count: int)

  datatype Cabinet = Cabinet(verteiler: string, rows: seq<CabinetRow>)

  /** The row key `${lss}|${rcd}`, as a pair. */
  type RowKey = (string, string)

  function Pair(s: PlacedSymbol): RowKey { (s.elektrisch.leitungsschutzschalter, s.elektrisch.rcd) }

  function RowPair(r: CabinetRow): RowKey { (r.lss, r.rcd) }

  function RowCount(r: CabinetRow): int { r.count }

  function CabName(c: Cabinet): string { c.verteiler }

  /** A row is created at 0 and counted up at once. */
  function NewCabRow(s: PlacedSymbol): CabinetRow
  {
    CabinetRow(s.elektrisch.leitungsschutzschalter, s.elektrisch.rcd, 0 + 1)
  }

  function CountUp(r: CabinetRow, s: PlacedSymbol): CabinetRow { r.(count := r.count + 1) }

  /** A board's row map after its first symbol. */
  function FirstRows(s: PlacedSymbol): seq<(RowKey, CabinetRow)>
  {
    AddAcc([], Pair(s), s, NewCabRow, CountUp)
  }

  /** A board's row map after one more symbol. */
  function NextRows(rows: seq<(RowKey, CabinetRow)>, s: PlacedSymbol): seq<(RowKey, CabinetRow)>
  {
    AddAcc(rows, Pair(s), s, NewCabRow, CountUp)
  }

  /** `vertMap` after a sequence of symbols. */
  function BoardMap(syms: seq<PlacedSymbol>): seq<(string, seq<(RowKey, CabinetRow)>)>
  {
    Accumulate(Keyed(Filter(syms, HasBreaker), BoardName), FirstRows, NextRows)
  }

  function ToCabinets(m: seq<(string, seq<(RowKey, CabinetRow)>)>): seq<Cabinet>
  {
    if |m| == 0 then [] else [Cabinet(m[0].0, Values(m[0].1))] + ToCabinets(m[1..])
  }

  /** Reference definition of the cabinets. */
  function CabinetList(syms: seq<PlacedSymbol>): seq<Cabinet>
  {
    SortBy(ToCabinets(BoardMap(syms)), CabName)
  }

  /** `rows.get(key)!.count++` after creating the row at 0 when it is absent. */
  method CountSymbol(rows0: seq<(RowKey, CabinetRow)>, sym: PlacedSymbol) returns (rows: seq<(RowKey, CabinetRow)>)
    ensures rows == NextRows(rows0, sym)
  {
    rows := rows0;
    var key := (sym.elektrisch.leitungsschutzschalter, sym.elektrisch.rcd);
    var j := KeyIndex(rows, key);
    if j == |rows| {
      rows := rows + [(key, CabinetRow(sym.elektrisch.leitungsschutzschalter, sym.elektrisch.rcd, 0))];
    }
    rows := rows[j := (key, rows[j].1.(count := rows[j].1.count + 1))];
  }

  /** One qualifying symbol: its board's row map is created empty when the
      board is new, then the symbol is counted in it. */
  method AddToBoard(vertMap0: seq<(string, seq<(RowKey, CabinetRow)>)>, sym: PlacedSymbol)
    returns (vertMap: seq<(string, seq<(RowKey, CabinetRow)>)>)
    ensures vertMap == AddAcc(vertMap0, BoardName(sym), sym, FirstRows, NextRows)
  {
    vertMap := vertMap0;
    var v := if sym.attribute.verteiler == "" then "Unbekannt" else sym.attribute.verteiler;
    var i := KeyIndex(vertMap, v);
    if i == |vertMap| {
      vertMap := vertMap + [(v, [])];
    }
    var rows := CountSymbol(vertMap[i].1, sym);
    vertMap := vertMap[i := (v, rows)];
  }

  lemma BoardMapNext(syms: seq<PlacedSymbol>, s: nat)
    requires s < |syms|
    ensures BoardMap(syms[..s + 1])
         == if HasBreaker(syms[s]) then AddAcc(BoardMap(syms[..s]), BoardName(syms[s]), syms[s], FirstRows, NextRows)
            else BoardMap(syms[..s])
  {
    AccumulatePrefixNext(syms, s, HasBreaker, BoardName, FirstRows, NextRows);
  }

  /** The `cabinets` memo. */
  method Cabinets(syms: seq<PlacedSymbol>) returns (cabinets: seq<Cabinet>)
    ensures cabinets == CabinetList(syms)
  {
    var vertMap: seq<(string, seq<(RowKey, CabinetRow)>)> := [];
    var s := 0;
    while s < |syms|
      invariant 0 <= s <= |syms|
      invariant vertMap == BoardMap(syms[..s])
    {
      var sym := syms[s];
      BoardMapNext(syms, s);
      if sym.elektrisch.leitungsschutzschalter == "" {
        s := s + 1;
        continue;
      }
      vertMap := AddToBoard(vertMap, sym);
      s := s + 1;
    }
    assert syms[..s] == syms;
    cabinets := SortBy(ToCabinets(vertMap), CabName);
  }

  // ---------------------------------------------------------------------------
  // What the cabinets promise.
  // ---------------------------------------------------------------------------

  /** The qualifying symbols on one board. */
  function OnBoard(syms: seq<PlacedSymbol>, b: string): seq<PlacedSymbol>
  {
    Filter(Filter(syms, HasBreaker), HasKey(BoardName, b))
  }

  /** The qualifying symbols on one board with one (circuit breaker, RCD) pair. */
  function Served(syms: seq<PlacedSymbol>, b: string, p: RowKey): seq<PlacedSymbol>
  {
    Filter(OnBoard(syms, b), HasKey(Pair, p))
  }

  /** Served picks exactly the symbols with a circuit breaker, that board
      and that pair, each as often as it is placed. */
  lemma ServedSpec(syms: seq<PlacedSymbol>, b: string, p: RowKey)
    ensures forall s ::
      multiset(Served(syms, b, p))[s] == (if HasBreaker(s) && BoardName(s) == b && Pair(s) == p then multiset(syms)[s] else 0)
  {
    FilterCount(syms, HasBreaker);
    FilterCount(Filter(syms, HasBreaker), HasKey(BoardName, b));
    FilterCount(OnBoard(syms, b), HasKey(Pair, p));
  }

  lemma {:induction false} FoldCabRow(vs: seq<PlacedSymbol>, p: RowKey)
    requires |vs| > 0 && forall s :: s in vs ==> Pair(s) == p
    ensures FoldBucket(vs, NewCabRow, CountUp) == CabinetRow(p.0, p.1, |vs|)
  {
    assert vs[|vs| - 1] in vs;
    if |vs| > 1 {
      var q := vs[..|vs| - 1];
      assert forall s :: s in q ==> s in vs;
      FoldCabRow(q, p);
    } else {
      assert vs[0] in vs;
    }
  }

  lemma RowsShape(vs: seq<PlacedSymbol>)
    ensures var m := Accumulate(Keyed(vs, Pair), NewCabRow, CountUp); var rows := Values(m);
      && |rows| == |m|
      && (forall i :: 0 <= i < |m| ==>
            |Filter(vs, HasKey(Pair, m[i].0))| > 0
            && rows[i] == CabinetRow(m[i].0.0, m[i].0.1, |Filter(vs, HasKey(Pair, m[i].0))|))
  {
    var m := Accumulate(Keyed(vs, Pair), NewCabRow, CountUp);
    AccumulateFacts(vs, Pair, NewCabRow, CountUp);
    ValuesIndex(m);
    forall i | 0 <= i < |m| ensures Values(m)[i] == CabinetRow(m[i].0.0, m[i].0.1, |Filter(vs, HasKey(Pair, m[i].0))|) {
      FilterSpec(vs, HasKey(Pair, m[i].0));
      FoldCabRow(Filter(vs, HasKey(Pair, m[i].0)), m[i].0);
    }
  }

  lemma RowsCount(vs: seq<PlacedSymbol>)
    ensures SumOf(Values(Accumulate(Keyed(vs, Pair), NewCabRow, CountUp)), RowCount) == |vs|
  {
    forall k | |Filter(vs, HasKey(Pair, k))| > 0
      ensures RowCount(FoldBucket(Filter(vs, HasKey(Pair, k)), NewCabRow, CountUp)) == SumOf(Filter(vs, HasKey(Pair, k)), One)
    {
      FilterSpec(vs, HasKey(Pair, k));
      FoldCabRow(Filter(vs, HasKey(Pair, k)), k);
      SumOfOne(Filter(vs, HasKey(Pair, k)));
    }
    AccumulateConserve(vs, Pair, NewCabRow, CountUp, RowCount, One);
    SumOfOne(vs);
  }

  /** The rows of one board's symbols: at least one, one per pair that
      occurs, each counting its symbols, the counts adding up to the number
      of symbols. */
  lemma BoardRows(vs: seq<PlacedSymbol>)
    requires |vs| > 0
    ensures var rows := Values(Accumulate(Keyed(vs, Pair), NewCabRow, CountUp));
      && |rows| > 0
      && (forall i, j :: 0 <= i < j < |rows| ==> RowPair(rows[i]) != RowPair(rows[j]))
      && (forall r :: r in rows ==> r.count == |Filter(vs, HasKey(Pair, RowPair(r)))| > 0)
      && (forall s :: s in vs ==> exists r :: r in rows && RowPair(r) == Pair(s))
      && SumOf(rows, RowCount) == |vs|
  {
    var m := Accumulate(Keyed(vs, Pair), NewCabRow, CountUp);
    var rows := Values(m);
    RowsCount(vs);
    RowsDistinct(vs, m, rows);
    RowsCover(vs, m, rows);
  }

  lemma RowsDistinct(vs: seq<PlacedSymbol>, m: seq<(RowKey, CabinetRow)>, rows: seq<CabinetRow>)
    requires m == Accumulate(Keyed(vs, Pair), NewCabRow, CountUp) && rows == Values(m)
    ensures forall i, j :: 0 <= i < j < |rows| ==> RowPair(rows[i]) != RowPair(rows[j])
    ensures forall r :: r in rows ==> r.count == |Filter(vs, HasKey(Pair, RowPair(r)))| > 0
  {
    AccumulateFacts(vs, Pair, NewCabRow, CountUp);
    RowsShape(vs);
    forall i, j | 0 <= i < j < |rows| ensures RowPair(rows[i]) != RowPair(rows[j]) {
      assert m[i].0 != m[j].0;
    }
    forall r | r in rows ensures r.count == |Filter(vs, HasKey(Pair, RowPair(r)))| > 0 {
      var i :| 0 <= i < |rows| && rows[i] == r;
      assert RowPair(r) == m[i].0;
    }
  }

  lemma RowsCover(vs: seq<PlacedSymbol>, m: seq<(RowKey, CabinetRow)>, rows: seq<CabinetRow>)
    requires |vs| > 0
    requires m == Accumulate(Keyed(vs, Pair), NewCabRow, CountUp) && rows == Values(m)
    ensures |rows| > 0
    ensures forall s :: s in vs ==> exists r :: r in rows && RowPair(r) == Pair(s)
  {
    AccumulateFacts(vs, Pair, NewCabRow, CountUp);
    RowsShape(vs);
    forall s | s in vs ensures exists r :: r in rows && RowPair(r) == Pair(s) {
      var i := KeyIndex(m, Pair(s));
      assert rows[i] in rows;
    }
    assert vs[0] in vs;
  }

  lemma BoardEntry(syms: seq<PlacedSymbol>, m: seq<(string, seq<(RowKey, CabinetRow)>)>, i: nat)
    requires m == BoardMap(syms) && i < |m|
    ensures m[i].0 != "" && |OnBoard(syms, m[i].0)| > 0
    ensures m[i].1 == Accumulate(Keyed(OnBoard(syms, m[i].0), Pair), NewCabRow, CountUp)
  {
    var xs := Filter(syms, HasBreaker);
    AccumulateFacts(xs, BoardName, FirstRows, NextRows);
    FilterSpec(xs, HasKey(BoardName, m[i].0));
    var s := OnBoard(syms, m[i].0)[0];
    assert s in OnBoard(syms, m[i].0);
    FoldOfAdd(OnBoard(syms, m[i].0), Pair, NewCabRow, CountUp, FirstRows, NextRows);
  }

  /** The board map: one entry per board with a qualifying symbol, never the
      empty name, each holding the row map of that board's symbols. */
  lemma BoardMapFacts(syms: seq<PlacedSymbol>)
    ensures var m := BoardMap(syms);
      && DistinctKeys(m)
      && (forall i :: 0 <= i < |m| ==>
            && m[i].0 != ""
            && |OnBoard(syms, m[i].0)| > 0
            && m[i].1 == Accumulate(Keyed(OnBoard(syms, m[i].0), Pair), NewCabRow, CountUp))
      && (forall s :: s in syms && HasBreaker(s) ==> KeyIndex(m, BoardName(s)) < |m|)
  {
    var xs := Filter(syms, HasBreaker);
    var m := BoardMap(syms);
    AccumulateFacts(xs, BoardName, FirstRows, NextRows);
    forall i | 0 <= i < |m|
      ensures m[i].0 != "" && |OnBoard(syms, m[i].0)| > 0
      ensures m[i].1 == Accumulate(Keyed(OnBoard(syms, m[i].0), Pair), NewCabRow, CountUp)
    {
      BoardEntry(syms, m, i);
    }
    FilterSpec(syms, HasBreaker);
    forall s | s in syms && HasBreaker(s) ensures KeyIndex(m, BoardName(s)) < |m| {
      assert s in xs;
    }
  }

  lemma {:induction false} ToCabinetsIndex(m: seq<(string, seq<(RowKey, CabinetRow)>)>)
    ensures |ToCabinets(m)| == |m|
    ensures forall i :: 0 <= i < |m| ==> ToCabinets(m)[i] == Cabinet(m[i].0, Values(m[i].1))
  {
    if |m| > 0 { ToCabinetsIndex(m[1..]); }
  }

  function CabTotal(c: Cabinet): int { SumOf(c.rows, RowCount) }

  /** A cabinet as the plan draws it: a named board with at least one row,
      one row per (lss, rcd) pair, each counting the symbols of that pair on
      that board, and at least one. */
  ghost predicate ProperCabinet(syms: seq<PlacedSymbol>, c: Cabinet)
  {
    && c.verteiler != ""
    && |c.rows| > 0
    && (forall a, b :: 0 <= a < b < |c.rows| ==> RowPair(c.rows[a]) != RowPair(c.rows[b]))
    && (forall r :: r in c.rows ==> r.count == |Served(syms, c.verteiler, RowPair(r))| > 0)
  }

  /** The cabinet of a symbol's board, with a row for its (lss, rcd) pair. */
  ghost predicate Serves(c: Cabinet, s: PlacedSymbol)
  {
    c.verteiler == BoardName(s) && exists r :: r in c.rows && RowPair(r) == Pair(s)
  }

  /** Cabinet i of the unsorted list is proper and holds its board's symbols. */
  lemma CabinetAt(syms: seq<PlacedSymbol>, i: nat)
    requires i < |ToCabinets(BoardMap(syms))|
    ensures var u := ToCabinets(BoardMap(syms));
      ProperCabinet(syms, u[i]) && CabTotal(u[i]) == |OnBoard(syms, u[i].verteiler)|
  {
    var m := BoardMap(syms);
    ToCabinetsIndex(m);
    BoardMapFacts(syms);
    var b := m[i].0;
    var vs := OnBoard(syms, b);
    var c := ToCabinets(m)[i];
    assert c == Cabinet(b, Values(Accumulate(Keyed(vs, Pair), NewCabRow, CountUp)));
    BoardRows(vs);
    assert c.verteiler == b != "";
    forall r | r in c.rows ensures r.count == |Served(syms, b, RowPair(r))| > 0 {
    }
  }

  /** A symbol with a breaker has a row in the cabinet of its board. */
  lemma CabinetFor(syms: seq<PlacedSymbol>, s: PlacedSymbol)
    requires s in syms && HasBreaker(s)
    ensures var u := ToCabinets(BoardMap(syms));
      exists i :: 0 <= i < |u| && Serves(u[i], s)
  {
    var m := BoardMap(syms);
    BoardMapFacts(syms);
    ToCabinetsIndex(m);
    var i := KeyIndex(m, BoardName(s));
    FilterSpec(syms, HasBreaker);
    FilterSpec(Filter(syms, HasBreaker), HasKey(BoardName, BoardName(s)));
    assert s in OnBoard(syms, m[i].0);
    BoardRows(OnBoard(syms, m[i].0));
    assert Serves(ToCabinets(m)[i], s);
  }

  /** Every qualifying symbol is on exactly one board. */
  lemma {:induction false} BoardsPartition(syms: seq<PlacedSymbol>, m: seq<(string, seq<(RowKey, CabinetRow)>)>)
    requires m == BoardMap(syms)
    ensures SumOf(ToCabinets(m), CabTotal) == |Filter(syms, HasBreaker)|
  {
    var xs := Filter(syms, HasBreaker);
    forall k | |Filter(xs, HasKey(BoardName, k))| > 0
      ensures RowsTotal(FoldBucket(Filter(xs, HasKey(BoardName, k)), FirstRows, NextRows)) == SumOf(Filter(xs, HasKey(BoardName, k)), One)
    {
      var vs := Filter(xs, HasKey(BoardName, k));
      FoldOfAdd(vs, Pair, NewCabRow, CountUp, FirstRows, NextRows);
      BoardRows(vs);
      SumOfOne(vs);
    }
    AccumulateConserve(xs, BoardName, FirstRows, NextRows, RowsTotal, One);
    SumOfOne(xs);
    CabinetsTotal(m);
  }

  function RowsTotal(rows: seq<(RowKey, CabinetRow)>): int { SumOf(Values(rows), RowCount) }

  lemma {:induction false} CabinetsTotal(m: seq<(string, seq<(RowKey, CabinetRow)>)>)
    ensures SumOf(ToCabinets(m), CabTotal) == SumOf(Values(m), RowsTotal)
  {
    if |m| > 0 { CabinetsTotal(m[1..]); }
  }

  /** Per-cabinet facts survive the sort. */
  lemma SortedCabinetEntries(syms: seq<PlacedSymbol>)
    ensures forall c :: c in CabinetList(syms) ==> ProperCabinet(syms, c)
  {
    var u := ToCabinets(BoardMap(syms));
    forall c | c in CabinetList(syms) ensures ProperCabinet(syms, c) {
      SortedFrom(u, CabName, c);
      var i :| 0 <= i < |u| && u[i] == c;
      CabinetAt(syms, i);
    }
  }

  lemma SortedCabinetCover(syms: seq<PlacedSymbol>)
    ensures forall s :: s in syms && HasBreaker(s) ==> exists c :: c in CabinetList(syms) && Serves(c, s)
  {
    var u := ToCabinets(BoardMap(syms));
    forall s | s in syms && HasBreaker(s) ensures exists c :: c in CabinetList(syms) && Serves(c, s) {
      CabinetFor(syms, s);
      var i :| 0 <= i < |u| && Serves(u[i], s);
      SortedTo(u, CabName, i);
    }
  }

  lemma SortedCabinetNames(syms: seq<PlacedSymbol>)
    ensures var cs := CabinetList(syms);
      forall i, j :: 0 <= i < j < |cs| ==> cs[i].verteiler != cs[j].verteiler
  {
    var m := BoardMap(syms);
    var u := ToCabinets(m);
    BoardMapFacts(syms);
    ToCabinetsIndex(m);
    forall i, j | 0 <= i < j < |u| ensures CabName(u[i]) != CabName(u[j]) {
      assert m[i].0 != m[j].0;
    }
    PermutationDistinctBy(u, CabinetList(syms), CabName);
  }

  /** The cabinets: sorted by board, each board once and never empty-named,
      each cabinet with at least one row and one row per (circuit breaker,
      RCD) pair, each row counting the qualifying symbols with its board and
      pair, every qualifying symbol counted on its board's row for its pair,
      and all counts adding up to the number of qualifying symbols. */
  lemma CabinetListFacts(syms: seq<PlacedSymbol>)
    ensures var cs := CabinetList(syms);
      && SortedBy(cs, CabName)
      && (forall i, j :: 0 <= i < j < |cs| ==> cs[i].verteiler != cs[j].verteiler)
      && (forall c :: c in cs ==> ProperCabinet(syms, c))
      && (forall s :: s in syms && HasBreaker(s) ==> exists c :: c in cs && Serves(c, s))
      && SumOf(cs, CabTotal) == |Filter(syms, HasBreaker)|
  {
    SortedCabinetEntries(syms);
    SortedCabinetCover(syms);
    SortedCabinetNames(syms);
    SortBySum(ToCabinets(BoardMap(syms)), CabName, CabTotal);
    BoardsPartition(syms, BoardMap(syms));
  }

  /** A symbol without a board is drawn in the cabinet named "Unbekannt". */
  lemma UnnamedBoard(syms: seq<PlacedSymbol>, s: PlacedSymbol)
    requires s in syms && HasBreaker(s) && s.attribute.verteiler == ""
    ensures exists c :: c in CabinetList(syms) && c.verteiler == "Unbekannt"
  {
    CabinetListFacts(syms);
  }
}
