/** The bill of materials of src/components/views/Stueckliste.tsx: one row
    per name, kind, unit and unit price over all articles of all placed
    symbols with the summed quantity and its price, their grand total, and
    the count of placed symbols per label. */
module StuecklisteView {
  import opened Common
  import opened Grouping
  import opened Types

  datatype StuecklisteRow = StuecklisteRow(
    bezeichnung: string,
    typ: ArtikelTyp,
    menge: int,
    einheit: string,
    einzelpreis: int,
    gesamtpreis: int)

  /** The row key `${bezeichnung}|${typ}|${einheit}|${einzelpreis}`, as a tuple. */
  type PartKey = (string, ArtikelTyp, string, int)

  function PartKeyOf(a: ArtikelPosition): PartKey { (a.bezeichnung, a.typ, a.einheit, a.einzelpreis) }

  function RowKey(r: StuecklisteRow): PartKey { (r.bezeichnung, r.typ, r.einheit, r.einzelpreis) }

  function RowName(r: StuecklisteRow): string { r.bezeichnung }

  function RowMenge(r: StuecklisteRow): int { r.menge }

  function RowPreis(r: StuecklisteRow): int { r.gesamtpreis }


  /** The price of one article line. */
  function LinePrice(a: ArtikelPosition): int { a.menge * a.einzelpreis }

  function NewRow(a: ArtikelPosition): StuecklisteRow
  {
    StuecklisteRow(a.bezeichnung, a.typ, a.menge, a.einheit, a.einzelpreis, a.menge * a.einzelpreis)
  }

  /** Adds an article's quantity to an existing row and recomputes the row's
      total price from the new quantity and the row's unit price. */
  function AddPart(r: StuecklisteRow, a: ArtikelPosition): StuecklisteRow
  {
    var r1 := r.(menge := r.menge + a.menge);
    r1.(gesamtpreis := r1.menge * r1.einzelpreis)
  }

  function RowMap(arts: seq<ArtikelPosition>): seq<(PartKey, StuecklisteRow)>
  {
    Accumulate(Keyed(arts, PartKeyOf), NewRow, AddPart)
  }

  /** Reference definition of the rows. */
  function PartsList(syms: seq<PlacedSymbol>): seq<StuecklisteRow>
  {
    SortBy(Values(RowMap(AllArtikel(syms))), RowName)
  }

  lemma RowMapSnoc(arts: seq<ArtikelPosition>, art: ArtikelPosition)
    ensures RowMap(arts + [art]) == AddAcc(RowMap(arts), PartKeyOf(art), art, NewRow, AddPart)
  {
    KeyedSnoc(arts, art, PartKeyOf);
    AccumulateSnoc(Keyed(arts, PartKeyOf), (PartKeyOf(art), art), NewRow, AddPart);
  }

  /** The `rows` memo: a loop over the symbols, then the sort by name. */
  method PartRows(syms: seq<PlacedSymbol>) returns (rows: seq<StuecklisteRow>)
    ensures rows == PartsList(syms)
  {
    var byKey: seq<(PartKey, StuecklisteRow)> := [];
    var s := 0;
    while s < |syms|
      invariant 0 <= s <= |syms|
      invariant byKey == RowMap(AllArtikel(syms[..s]))
    {
      byKey := AddParts(byKey, AllArtikel(syms[..s]), syms[s].artikel);
      AllArtikelNext(syms, s);
      s := s + 1;
    }
    assert syms[..s] == syms;
    rows := SortBy(Values(byKey), RowName);
  }

  /** The inner loop over one symbol's articles: adds each article to the
      row of its key in place and reprices that row. */
  method AddParts(byKey0: seq<(PartKey, StuecklisteRow)>, ghost done: seq<ArtikelPosition>, arts: seq<ArtikelPosition>)
    returns (byKey: seq<(PartKey, StuecklisteRow)>)
    requires byKey0 == RowMap(done)
    ensures byKey == RowMap(done + arts)
  {
    byKey := byKey0;
    var a := 0;
    assert done + arts[..a] == done;
    while a < |arts|
      invariant 0 <= a <= |arts|
      invariant byKey == RowMap(done + arts[..a])
    {
      assert done + arts[..a + 1] == (done + arts[..a]) + [arts[a]];
      byKey := AddArticle(byKey, done + arts[..a], arts[a]);
      a := a + 1;
    }
    assert arts[..a] == arts;
  }

  /** One article: added to the row of its key in place, and that row
      repriced. */
  method AddArticle(byKey0: seq<(PartKey, StuecklisteRow)>, ghost done: seq<ArtikelPosition>, art: ArtikelPosition)
    returns (byKey: seq<(PartKey, StuecklisteRow)>)
    requires byKey0 == RowMap(done)
    ensures byKey == RowMap(done + [art])
  {
    RowMapSnoc(done, art);
    byKey := byKey0;
    var key := (art.bezeichnung, art.typ, art.einheit, art.einzelpreis);
    var i := KeyIndex(byKey, key);
    if i < |byKey| {
      var existing := byKey[i].1;
      existing := existing.(menge := existing.menge + art.menge);
      existing := existing.(gesamtpreis := existing.menge * existing.einzelpreis);
      byKey := byKey[i := (key, existing)];
    } else {
      byKey := byKey + [(key, StuecklisteRow(art.bezeichnung, art.typ, art.menge, art.einheit, art.einzelpreis,
                                             art.menge * art.einzelpreis))];
    }
  }

  /** The sum of the rows' total prices. */
  function Total(rows: seq<StuecklisteRow>): int
  {
    if |rows| == 0 then 0 else rows[0].gesamtpreis + Total(rows[1..])
  }

  // ---------------------------------------------------------------------------
  // What the rows promise.
  // ---------------------------------------------------------------------------

  /** The articles of one row: those with its key. */
  function RowArticles(syms: seq<PlacedSymbol>, k: PartKey): seq<ArtikelPosition>
  {
    Filter(AllArtikel(syms), HasKey(PartKeyOf, k))
  }

  /** A bucket of articles sharing a key folds to the row of that key with
      the summed quantity, priced from that sum. */
  lemma {:induction false} FoldRow(vs: seq<ArtikelPosition>, k: PartKey)
    requires |vs| > 0 && forall a :: a in vs ==> PartKeyOf(a) == k
    ensures var q := SumOf(vs, ArtikelMenge);
      FoldBucket(vs, NewRow, AddPart) == StuecklisteRow(k.0, k.1, q, k.2, k.3, q * k.3)
  {
    assert vs[|vs| - 1] in vs;
    if |vs| > 1 {
      var p := vs[..|vs| - 1];
      assert forall a :: a in p ==> a in vs;
      FoldRow(p, k);
      assert vs == p + [vs[|vs| - 1]];
      SumOfAppend(p, [vs[|vs| - 1]], ArtikelMenge);
    } else {
      assert vs == [vs[0]];
    }
  }

  /** Summed line prices of a bucket with one unit price. */
  lemma {:induction false} LinePriceSum(vs: seq<ArtikelPosition>, price: int)
    requires forall a :: a in vs ==> a.einzelpreis == price
    ensures SumOf(vs, LinePrice) == SumOf(vs, ArtikelMenge) * price
  {
    if |vs| > 0 {
      assert forall a :: a in vs[1..] ==> a in vs;
      LinePriceSum(vs[1..], price);
      assert vs[0] in vs;
    }
  }

  lemma PartEntry(syms: seq<PlacedSymbol>, m: seq<(PartKey, StuecklisteRow)>, i: nat)
    requires m == RowMap(AllArtikel(syms)) && i < |m|
    ensures |RowArticles(syms, m[i].0)| > 0 && RowKey(m[i].1) == m[i].0
    ensures m[i].1 == FoldBucket(RowArticles(syms, m[i].0), NewRow, AddPart)
  {
    AccumulateFacts(AllArtikel(syms), PartKeyOf, NewRow, AddPart);
    FilterSpec(AllArtikel(syms), HasKey(PartKeyOf, m[i].0));
    FoldRow(RowArticles(syms, m[i].0), m[i].0);
  }

  lemma UnsortedKeys(syms: seq<PlacedSymbol>)
    ensures var m := RowMap(AllArtikel(syms)); var u := Values(m);
      && |u| == |m|
      && (forall i :: 0 <= i < |u| ==>
            |RowArticles(syms, m[i].0)| > 0 && RowKey(u[i]) == m[i].0
            && u[i] == FoldBucket(RowArticles(syms, m[i].0), NewRow, AddPart))
      && (forall i, j :: 0 <= i < j < |u| ==> RowKey(u[i]) != RowKey(u[j]))
      && (forall a :: a in AllArtikel(syms) ==> exists i :: 0 <= i < |u| && RowKey(u[i]) == PartKeyOf(a))
  {
    var arts := AllArtikel(syms);
    var m := RowMap(arts);
    var u := Values(m);
    AccumulateFacts(arts, PartKeyOf, NewRow, AddPart);
    ValuesIndex(m);
    forall i | 0 <= i < |m|
      ensures |RowArticles(syms, m[i].0)| > 0 && RowKey(u[i]) == m[i].0
      ensures u[i] == FoldBucket(RowArticles(syms, m[i].0), NewRow, AddPart)
    {
      PartEntry(syms, m, i);
    }
    forall a | a in arts ensures exists i :: 0 <= i < |u| && RowKey(u[i]) == PartKeyOf(a) {
      var i := KeyIndex(m, PartKeyOf(a));
      assert RowKey(u[i]) == PartKeyOf(a);
    }
  }

  lemma UnsortedSums(syms: seq<PlacedSymbol>)
    ensures var u := Values(RowMap(AllArtikel(syms)));
      forall i :: 0 <= i < |u| ==>
        && |RowArticles(syms, RowKey(u[i]))| > 0
        && u[i].menge == SumOf(RowArticles(syms, RowKey(u[i])), ArtikelMenge)
        && u[i].gesamtpreis == u[i].menge * u[i].einzelpreis
  {
    var m := RowMap(AllArtikel(syms));
    var u := Values(m);
    UnsortedKeys(syms);
    forall i | 0 <= i < |u|
      ensures u[i].menge == SumOf(RowArticles(syms, RowKey(u[i])), ArtikelMenge) && u[i].gesamtpreis == u[i].menge * u[i].einzelpreis
    {
      FilterSpec(AllArtikel(syms), HasKey(PartKeyOf, m[i].0));
      FoldRow(RowArticles(syms, m[i].0), m[i].0);
    }
  }

  /** Both sums are conserved: quantities and prices. */
  lemma UnsortedTotals(syms: seq<PlacedSymbol>)
    ensures SumOf(Values(RowMap(AllArtikel(syms))), RowMenge) == SumOf(AllArtikel(syms), ArtikelMenge)
    ensures SumOf(Values(RowMap(AllArtikel(syms))), RowPreis) == SumOf(AllArtikel(syms), LinePrice)
  {
    var arts := AllArtikel(syms);
    forall k | |Filter(arts, HasKey(PartKeyOf, k))| > 0
      ensures RowMenge(FoldBucket(Filter(arts, HasKey(PartKeyOf, k)), NewRow, AddPart))
           == SumOf(Filter(arts, HasKey(PartKeyOf, k)), ArtikelMenge)
      ensures RowPreis(FoldBucket(Filter(arts, HasKey(PartKeyOf, k)), NewRow, AddPart))
           == SumOf(Filter(arts, HasKey(PartKeyOf, k)), LinePrice)
    {
      var vs := Filter(arts, HasKey(PartKeyOf, k));
      FilterSpec(arts, HasKey(PartKeyOf, k));
      FoldRow(vs, k);
      LinePriceSum(vs, k.3);
    }
    AccumulateConserve(arts, PartKeyOf, NewRow, AddPart, RowMenge, ArtikelMenge);
    AccumulateConserve(arts, PartKeyOf, NewRow, AddPart, RowPreis, LinePrice);
  }

  lemma {:induction false} TotalIsSum(rows: seq<StuecklisteRow>)
    ensures Total(rows) == SumOf(rows, RowPreis)
  {
    if |rows| > 0 { TotalIsSum(rows[1..]); }
  }

  /** The bill of materials: sorted by name; one row per distinct name,
      kind, unit and unit price, and no other; each row's quantity the sum
      over its articles and its price that quantity times the unit price;
      quantities sum to the total article quantity and the grand total is
      the sum of all line prices. */
  lemma PartsListFacts(syms: seq<PlacedSymbol>)
    ensures var rows := PartsList(syms);
      && SortedBy(rows, RowName)
      && (forall i, j :: 0 <= i < j < |rows| ==> RowKey(rows[i]) != RowKey(rows[j]))
      && (forall r :: r in rows ==>
            && |RowArticles(syms, RowKey(r))| > 0
            && r.menge == SumOf(RowArticles(syms, RowKey(r)), ArtikelMenge)
            && r.gesamtpreis == r.menge * r.einzelpreis)
      && (forall a :: a in AllArtikel(syms) ==> exists r :: r in rows && RowKey(r) == PartKeyOf(a))
      && SumOf(rows, RowMenge) == SumOf(AllArtikel(syms), ArtikelMenge)
      && Total(rows) == SumOf(AllArtikel(syms), LinePrice)
  {
    var u := Values(RowMap(AllArtikel(syms)));
    var rows := PartsList(syms);
    UnsortedKeys(syms);
    UnsortedSums(syms);
    UnsortedTotals(syms);
    PermutationDistinctBy(u, rows, RowKey);
    SortBySum(u, RowName, RowMenge);
    SortBySum(u, RowName, RowPreis);
    TotalIsSum(rows);
    forall r | r in rows ensures r in u {
      assert r in multiset(rows);
    }
    forall a | a in AllArtikel(syms) ensures exists r :: r in rows && RowKey(r) == PartKeyOf(a) {
      var i :| 0 <= i < |u| && RowKey(u[i]) == PartKeyOf(a);
      assert u[i] in multiset(u);
    }
  }

  // ---------------------------------------------------------------------------
  // The symbol summary.
  // ---------------------------------------------------------------------------

  function LabelIn(catalog: seq<SymbolDefinition>): PlacedSymbol -> string
  {
    (s: PlacedSymbol) => SymbolLabel(catalog, s)
  }

  /** The count of a label seen for the first time. */
  function FirstCount(s: PlacedSymbol): int { 0 + 1 }

  /** The count of a label seen once more. */
  function NextCount(c: int, s: PlacedSymbol): int { c + 1 }

  function EntryLabel(e: (string, int)): string { e.0 }

  function EntryCount(e: (string, int)): int { e.1 }

  function CountOf(c: int): int { c }

  function CountMap(catalog: seq<SymbolDefinition>, syms: seq<PlacedSymbol>): seq<(string, int)>
  {
    Accumulate(Keyed(syms, LabelIn(catalog)), FirstCount, NextCount)
  }

  /** Reference definition of the summary. */
  function Summary(catalog: seq<SymbolDefinition>, syms: seq<PlacedSymbol>): seq<(string, int)>
  {
    SortBy(CountMap(catalog, syms), EntryLabel)
  }

  /** The `symbolSummary` memo: counts the symbols per label, then sorts. */
  method SymbolSummary(catalog: seq<SymbolDefinition>, syms: seq<PlacedSymbol>) returns (summary: seq<(string, int)>)
    ensures summary == Summary(catalog, syms)
  {
    var counts: seq<(string, int)> := [];
    var s := 0;
    while s < |syms|
      invariant 0 <= s <= |syms|
      invariant counts == CountMap(catalog, syms[..s])
    {
      CountMapNext(catalog, syms, s);
      counts := CountSymbol(catalog, counts, syms[s]);
      s := s + 1;
    }
    assert syms[..s] == syms;
    summary := SortBy(counts, EntryLabel);
  }

  /** One symbol: its label's count goes up by one, a new label enters at
      the end with count one. */
  method CountSymbol(catalog: seq<SymbolDefinition>, counts0: seq<(string, int)>, sym: PlacedSymbol)
    returns (counts: seq<(string, int)>)
    ensures counts == AddAcc(counts0, SymbolLabel(catalog, sym), sym, FirstCount, NextCount)
  {
    var def := FindDefinition(catalog, sym.symbolKey);
    var lbl := if def.Some? then def.value.labelText else sym.symbolKey;
    assert lbl == SymbolLabel(catalog, sym);
    var i := KeyIndex(counts0, lbl);
    var prev := if i < |counts0| then counts0[i].1 else 0;
    if i < |counts0| {
      counts := counts0[i := (lbl, prev + 1)];
    } else {
      counts := counts0 + [(lbl, prev + 1)];
    }
  }

  lemma CountMapNext(catalog: seq<SymbolDefinition>, syms: seq<PlacedSymbol>, s: nat)
    requires s < |syms|
    ensures CountMap(catalog, syms[..s + 1])
         == AddAcc(CountMap(catalog, syms[..s]), SymbolLabel(catalog, syms[s]), syms[s], FirstCount, NextCount)
  {
    AccumulatePrefixStep(syms, s, LabelIn(catalog), FirstCount, NextCount);
  }

  lemma {:induction false} FoldCount(vs: seq<PlacedSymbol>)
    requires |vs| > 0
    ensures FoldBucket(vs, FirstCount, NextCount) == |vs|
  {
    if |vs| > 1 { FoldCount(vs[..|vs| - 1]); }
  }

  /** The symbols shown under one label. */
  function WithLabel(catalog: seq<SymbolDefinition>, syms: seq<PlacedSymbol>, l: string): seq<PlacedSymbol>
  {
    Filter(syms, HasKey(LabelIn(catalog), l))
  }

  lemma CountMapFacts(catalog: seq<SymbolDefinition>, syms: seq<PlacedSymbol>)
    ensures var m := CountMap(catalog, syms);
      && DistinctKeys(m)
      && (forall i :: 0 <= i < |m| ==> m[i].1 == |WithLabel(catalog, syms, m[i].0)| > 0)
      && (forall s :: s in syms ==> exists i :: 0 <= i < |m| && m[i].0 == SymbolLabel(catalog, s))
      && SumOf(m, EntryCount) == |syms|
  {
    var m := CountMap(catalog, syms);
    AccumulateFacts(syms, LabelIn(catalog), FirstCount, NextCount);
    forall i | 0 <= i < |m| ensures m[i].1 == |WithLabel(catalog, syms, m[i].0)| {
      FoldCount(WithLabel(catalog, syms, m[i].0));
    }
    forall s | s in syms ensures exists i :: 0 <= i < |m| && m[i].0 == SymbolLabel(catalog, s) {
      assert LabelIn(catalog)(s) == SymbolLabel(catalog, s);
      var i := KeyIndex(m, SymbolLabel(catalog, s));
    }
    forall k | |Filter(syms, HasKey(LabelIn(catalog), k))| > 0
      ensures FoldBucket(Filter(syms, HasKey(LabelIn(catalog), k)), FirstCount, NextCount)
           == SumOf(Filter(syms, HasKey(LabelIn(catalog), k)), One)
      ensures CountOf(FoldBucket(Filter(syms, HasKey(LabelIn(catalog), k)), FirstCount, NextCount))
           == SumOf(Filter(syms, HasKey(LabelIn(catalog), k)), One)
    {
      FoldCount(Filter(syms, HasKey(LabelIn(catalog), k)));
      assert CountOf(FoldBucket(Filter(syms, HasKey(LabelIn(catalog), k)), FirstCount, NextCount))
          == FoldBucket(Filter(syms, HasKey(LabelIn(catalog), k)), FirstCount, NextCount);
      SumOfOne(Filter(syms, HasKey(LabelIn(catalog), k)));
    }
    AccumulateConserve(syms, LabelIn(catalog), FirstCount, NextCount, CountOf, One);
    SumOfOne(syms);
    CountsSum(m);
  }

  lemma {:induction false} CountsSum(m: seq<(string, int)>)
    ensures SumOf(Values(m), CountOf) == SumOf(m, EntryCount)
  {
    if |m| > 0 { CountsSum(m[1..]); }
  }

  /** The summary: sorted by label, one entry per label that occurs and no
      other, each counting the symbols shown under that label, the counts
      adding up to the number of placed symbols. */
  lemma SummaryFacts(catalog: seq<SymbolDefinition>, syms: seq<PlacedSymbol>)
    ensures var sum := Summary(catalog, syms);
      && SortedBy(sum, EntryLabel)
      && (forall i, j :: 0 <= i < j < |sum| ==> sum[i].0 != sum[j].0)
      && (forall e :: e in sum ==> e.1 == |WithLabel(catalog, syms, e.0)| > 0)
      && (forall s :: s in syms ==> exists e :: e in sum && e.0 == SymbolLabel(catalog, s))
      && SumOf(sum, EntryCount) == |syms|
  {
    var m := CountMap(catalog, syms);
    var sum := Summary(catalog, syms);
    CountMapFacts(catalog, syms);
    PermutationDistinctBy(m, sum, EntryLabel);
    SortBySum(m, EntryLabel, EntryCount);
    forall e | e in sum ensures e in m {
      assert e in multiset(sum);
    }
    forall s | s in syms ensures exists e :: e in sum && e.0 == SymbolLabel(catalog, s) {
      var i :| 0 <= i < |m| && m[i].0 == SymbolLabel(catalog, s);
      assert m[i] in multiset(m);
    }
  }
}
