/** The order list of src/components/views/Bestellliste.tsx: the material
    articles of all placed symbols, one row per name and unit with the
    summed quantity, sorted by name. */
module BestelllisteView {
  import opened Common
  import opened Grouping
  import opened Types

  datatype BestelllisteRow = BestelllisteRow(bezeichnung: string, menge: int, einheit: string)

  /** The row key `${bezeichnung}|${einheit}`, as a pair. */
  type OrderKey = (string, string)

  function OrderKeyOf(a: ArtikelPosition): OrderKey { (a.bezeichnung, a.einheit) }

  function RowKey(r: BestelllisteRow): OrderKey { (r.bezeichnung, r.einheit) }

  function RowName(r: BestelllisteRow): string { r.bezeichnung }

  function RowMenge(r: BestelllisteRow): int { r.menge }


  predicate IsMaterial(a: ArtikelPosition) { a.typ == Material }

  function NewRow(a: ArtikelPosition): BestelllisteRow
  {
    BestelllisteRow(a.bezeichnung, a.menge, a.einheit)
  }

  /** Adds an article's quantity to an existing order row. */
  function AddMenge(r: BestelllisteRow, a: ArtikelPosition): BestelllisteRow
  {
    r.(menge := r.menge + a.menge)
  }

  /** The material articles of all symbols, in order and multiplicity. */
  function Materials(syms: seq<PlacedSymbol>): (r: seq<ArtikelPosition>)
    ensures IsSubsequence(r, AllArtikel(syms))
    ensures forall a :: a in r <==> a in AllArtikel(syms) && a.typ == Material
    ensures forall a :: multiset(r)[a] == if a.typ == Material then multiset(AllArtikel(syms))[a] else 0
  {
    FilterSpec(AllArtikel(syms), IsMaterial);
    FilterCount(AllArtikel(syms), IsMaterial);
    Filter(AllArtikel(syms), IsMaterial)
  }

  function RowMap(arts: seq<ArtikelPosition>): seq<(OrderKey, BestelllisteRow)>
  {
    Accumulate(Keyed(Filter(arts, IsMaterial), OrderKeyOf), NewRow, AddMenge)
  }

  /** Reference definition of the rows. */
  function OrderList(syms: seq<PlacedSymbol>): seq<BestelllisteRow>
  {
    SortBy(Values(RowMap(AllArtikel(syms))), RowName)
  }

  lemma RowMapSnoc(arts: seq<ArtikelPosition>, art: ArtikelPosition)
    ensures RowMap(arts + [art])
         == if art.typ == Material then AddAcc(RowMap(arts), (art.bezeichnung, art.einheit), art, NewRow, AddMenge) else RowMap(arts)
  {
    AccumulateFilterSnoc(arts, art, IsMaterial, OrderKeyOf, NewRow, AddMenge);
  }

  /** The `rows` memo: a loop over the symbols, then the sort by name. */
  method OrderRows(syms: seq<PlacedSymbol>) returns (rows: seq<BestelllisteRow>)
    ensures rows == OrderList(syms)
  {
    var byKey: seq<(OrderKey, BestelllisteRow)> := [];
    var s := 0;
    while s < |syms|
      invariant 0 <= s <= |syms|
      invariant byKey == RowMap(AllArtikel(syms[..s]))
    {
      byKey := AddArticles(byKey, AllArtikel(syms[..s]), syms[s].artikel);
      AllArtikelNext(syms, s);
      s := s + 1;
    }
    assert syms[..s] == syms;
    rows := SortBy(Values(byKey), RowName);
  }

  /** The inner loop over one symbol's articles: skips non-material ones and
      adds each material one to the row of its key in place. */
  method AddArticles(byKey0: seq<(OrderKey, BestelllisteRow)>, ghost done: seq<ArtikelPosition>, arts: seq<ArtikelPosition>)
    returns (byKey: seq<(OrderKey, BestelllisteRow)>)
    requires byKey0 == RowMap(done)
    ensures byKey == RowMap(done + arts)
  {
    byKey := byKey0;
    var a := 0;
    assert done + arts[..a] == done;
    while a < |arts|
      invariant 0 <= a <= |arts|
      invariant byKey == RowMap(done + arts[..a])
    {
      assert done + arts[..a + 1] == (done + arts[..a]) + [arts[a]];
      byKey := AddArticle(byKey, done + arts[..a], arts[a]);
      a := a + 1;
    }
    assert arts[..a] == arts;
  }

  /** One article: a material one is added to the row of its key in place,
      any other is skipped. */
  method AddArticle(byKey0: seq<(OrderKey, BestelllisteRow)>, ghost done: seq<ArtikelPosition>, art: ArtikelPosition)
    returns (byKey: seq<(OrderKey, BestelllisteRow)>)
    requires byKey0 == RowMap(done)
    ensures byKey == RowMap(done + [art])
  {
    RowMapSnoc(done, art);
    byKey := byKey0;
    if art.typ != Material {
      return;
    }
    var key := (art.bezeichnung, art.einheit);
    var i := KeyIndex(byKey, key);
    if i < |byKey| {
      byKey := byKey[i := (key, byKey[i].1.(menge := byKey[i].1.menge + art.menge))];
    } else {
      byKey := byKey + [(key, BestelllisteRow(art.bezeichnung, art.menge, art.einheit))];
    }
  }

  // ---------------------------------------------------------------------------
  // What the rows promise.
  // ---------------------------------------------------------------------------

  /** A bucket of articles sharing a key folds to the row of that key with
      the summed quantity. */
  lemma {:induction false} FoldRow(vs: seq<ArtikelPosition>, k: OrderKey)
    requires |vs| > 0 && forall a :: a in vs ==> OrderKeyOf(a) == k
    ensures FoldBucket(vs, NewRow, AddMenge) == BestelllisteRow(k.0, SumOf(vs, ArtikelMenge), k.1)
  {
    assert vs[|vs| - 1] in vs;
    if |vs| > 1 {
      var p := vs[..|vs| - 1];
      assert forall a :: a in p ==> a in vs;
      FoldRow(p, k);
      assert vs == p + [vs[|vs| - 1]];
      SumOfAppend(p, [vs[|vs| - 1]], ArtikelMenge);
    } else {
      assert vs == [vs[0]];
    }
  }

  /** The articles of one row: the material articles with its key. */
  function RowArticles(syms: seq<PlacedSymbol>, k: OrderKey): seq<ArtikelPosition>
  {
    Filter(Materials(syms), HasKey(OrderKeyOf, k))
  }

  lemma UnsortedKeys(syms: seq<PlacedSymbol>)
    ensures var m := RowMap(AllArtikel(syms)); var u := Values(m);
      && |u| == |m|
      && (forall i :: 0 <= i < |u| ==>
            |RowArticles(syms, m[i].0)| > 0 && RowKey(u[i]) == m[i].0
            && u[i] == FoldBucket(RowArticles(syms, m[i].0), NewRow, AddMenge))
      && (forall i, j :: 0 <= i < j < |u| ==> RowKey(u[i]) != RowKey(u[j]))
      && (forall a :: a in Materials(syms) ==> exists i :: 0 <= i < |u| && RowKey(u[i]) == OrderKeyOf(a))
  {
    UnsortedRows(syms);
    UnsortedDistinct(syms);
    UnsortedCover(syms);
  }

  /** Each row folds the material articles of its key. */
  lemma UnsortedRows(syms: seq<PlacedSymbol>)
    ensures var m := RowMap(AllArtikel(syms)); var u := Values(m);
      && |u| == |m|
      && forall i :: 0 <= i < |u| ==>
            |RowArticles(syms, m[i].0)| > 0 && RowKey(u[i]) == m[i].0
            && u[i] == FoldBucket(RowArticles(syms, m[i].0), NewRow, AddMenge)
  {
    var mats := Materials(syms);
    var m := RowMap(AllArtikel(syms));
    var u := Values(m);
    AccumulateFacts(mats, OrderKeyOf, NewRow, AddMenge);
    ValuesIndex(m);
    forall i | 0 <= i < |m| ensures RowKey(u[i]) == m[i].0 {
      var vs := RowArticles(syms, m[i].0);
      FilterSpec(mats, HasKey(OrderKeyOf, m[i].0));
      FoldRow(vs, m[i].0);
    }
  }

  lemma UnsortedDistinct(syms: seq<PlacedSymbol>)
    ensures var u := Values(RowMap(AllArtikel(syms)));
      forall i, j :: 0 <= i < j < |u| ==> RowKey(u[i]) != RowKey(u[j])
  {
    var m := RowMap(AllArtikel(syms));
    AccumulateFacts(Materials(syms), OrderKeyOf, NewRow, AddMenge);
    UnsortedRows(syms);
  }

  lemma UnsortedCover(syms: seq<PlacedSymbol>)
    ensures var u := Values(RowMap(AllArtikel(syms)));
      forall a :: a in Materials(syms) ==> exists i :: 0 <= i < |u| && RowKey(u[i]) == OrderKeyOf(a)
  {
    var mats := Materials(syms);
    var m := RowMap(AllArtikel(syms));
    var u := Values(m);
    AccumulateFacts(mats, OrderKeyOf, NewRow, AddMenge);
    UnsortedRows(syms);
    forall a | a in mats ensures exists i :: 0 <= i < |u| && RowKey(u[i]) == OrderKeyOf(a) {
      var i := KeyIndex(m, OrderKeyOf(a));
      assert RowKey(u[i]) == OrderKeyOf(a);
    }
  }

  lemma UnsortedSums(syms: seq<PlacedSymbol>)
    ensures var u := Values(RowMap(AllArtikel(syms)));
      forall i :: 0 <= i < |u| ==>
        && |RowArticles(syms, RowKey(u[i]))| > 0
        && u[i].menge == SumOf(RowArticles(syms, RowKey(u[i])), ArtikelMenge)
  {
    var m := RowMap(AllArtikel(syms));
    var u := Values(m);
    UnsortedKeys(syms);
    forall i | 0 <= i < |u| ensures u[i].menge == SumOf(RowArticles(syms, RowKey(u[i])), ArtikelMenge) {
      FoldMengeSum(RowArticles(syms, m[i].0));
    }
  }

  lemma UnsortedTotal(syms: seq<PlacedSymbol>)
    ensures SumOf(Values(RowMap(AllArtikel(syms))), RowMenge) == SumOf(Materials(syms), ArtikelMenge)
  {
    var mats := Materials(syms);
    forall k | |Filter(mats, HasKey(OrderKeyOf, k))| > 0
      ensures RowMenge(FoldBucket(Filter(mats, HasKey(OrderKeyOf, k)), NewRow, AddMenge))
           == SumOf(Filter(mats, HasKey(OrderKeyOf, k)), ArtikelMenge)
    {
      FoldMengeSum(Filter(mats, HasKey(OrderKeyOf, k)));
    }
    AccumulateConserve(Materials(syms), OrderKeyOf, NewRow, AddMenge, RowMenge, ArtikelMenge);
  }

  /** The fold's quantity is the bucket's sum, whatever its keys. */
  lemma {:induction false} FoldMengeSum(vs: seq<ArtikelPosition>)
    requires |vs| > 0
    ensures FoldBucket(vs, NewRow, AddMenge).menge == SumOf(vs, ArtikelMenge)
  {
    if |vs| > 1 {
      var p := vs[..|vs| - 1];
      FoldMengeSum(p);
      assert vs == p + [vs[|vs| - 1]];
      SumOfAppend(p, [vs[|vs| - 1]], ArtikelMenge);
    }
  }

  /** The order list: sorted by name; one row per distinct name and unit of
      a material article, and no other; each row's quantity the sum over
      the material articles with its name and unit; the quantities sum to
      the total material quantity; empty exactly when there is no material
      article. */
  lemma OrderListFacts(syms: seq<PlacedSymbol>)
    ensures var rows := OrderList(syms);
      && SortedBy(rows, RowName)
      && (forall i, j :: 0 <= i < j < |rows| ==> RowKey(rows[i]) != RowKey(rows[j]))
      && (forall r :: r in rows ==>
            && |RowArticles(syms, RowKey(r))| > 0
            && r.menge == SumOf(RowArticles(syms, RowKey(r)), ArtikelMenge))
      && (forall a :: a in Materials(syms) ==> exists r :: r in rows && RowKey(r) == OrderKeyOf(a))
      && SumOf(rows, RowMenge) == SumOf(Materials(syms), ArtikelMenge)
      && (|rows| == 0 <==> |Materials(syms)| == 0)
  {
    var u := Values(RowMap(AllArtikel(syms)));
    var rows := OrderList(syms);
    UnsortedKeys(syms);
    UnsortedSums(syms);
    UnsortedTotal(syms);
    PermutationDistinctBy(u, rows, RowKey);
    SortBySum(u, RowName, RowMenge);
    forall r | r in rows ensures r in u {
      assert r in multiset(rows);
    }
    forall a | a in Materials(syms) ensures exists r :: r in rows && RowKey(r) == OrderKeyOf(a) {
      var i :| 0 <= i < |u| && RowKey(u[i]) == OrderKeyOf(a);
      assert u[i] in multiset(u);
    }
    if |Materials(syms)| > 0 {
      assert Materials(syms)[0] in Materials(syms);
    }
  }
}
