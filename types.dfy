/** The entities of src/types/index.ts that the store and the views work on,
    and the two lookups several of them share: the catalog entry of a symbol
    key (`symbolCatalog.find((d) => d.key === key)`) and the room of a room
    id in the building tree. */
module Types {
  import opened Common

  datatype ArtikelTyp = Material | Service

  /** A billable line item; quantities and prices are exact integers
      (prices in cents). */
  datatype ArtikelPosition = ArtikelPosition(
    id: string,
    bezeichnung: string,
    typ: ArtikelTyp,
    menge: int,
    einheit: string,
    einzelpreis: int)

  datatype Attribute = Attribute(farbe: string, hoehe: int, kabeltyp: string, verteiler: string)

  datatype ElektrischeEigenschaften = ElektrischeEigenschaften(leitungsschutzschalter: string, rcd: string)

  datatype KnxVariante = Standard | Premium

  datatype KnxEigenschaften = KnxEigenschaften(geraetetyp: string, variante: KnxVariante)

  /** The part of a catalog definition that placing a symbol copies. */
  datatype SymbolDefinition = SymbolDefinition(
    key: string,
    labelText: string,
    defaultAttribute: Attribute,
    defaultElektrisch: ElektrischeEigenschaften,
    defaultKnx: KnxEigenschaften,
    defaultArtikel: seq<ArtikelPosition>)

  datatype PlacedSymbol = PlacedSymbol(
    id: string,
    symbolKey: string,
    raumId: string,
    x: real,
    y: real,
    rotation: real,
    attribute: Attribute,
    elektrisch: ElektrischeEigenschaften,
    knx: KnxEigenschaften,
    artikel: seq<ArtikelPosition>)

  datatype Raum = Raum(id: string, name: string)

  datatype Stockwerk = Stockwerk(id: string, name: string, raeume: seq<Raum>)

  datatype Gebaeude = Gebaeude(id: string, name: string, stockwerke: seq<Stockwerk>)

  /** The first catalog definition with the given key. */
  function FindDefinition(catalog: seq<SymbolDefinition>, key: string): (r: Option<SymbolDefinition>)
    ensures r.None? <==> forall i :: 0 <= i < |catalog| ==> catalog[i].key != key
    ensures r.Some? ==> exists i :: 0 <= i < |catalog| && catalog[i] == r.value && r.value.key == key
                                    && forall j :: 0 <= j < i ==> catalog[j].key != key
  {
    if |catalog| == 0 then None
    else if catalog[0].key == key then Some(catalog[0])
    else
      var r := FindDefinition(catalog[1..], key);
      assert r.Some? ==> exists i :: 0 <= i < |catalog[1..]| && catalog[1..][i] == r.value
                                     && forall j :: 0 <= j < i ==> catalog[1..][j].key != key;
      assert forall i :: 0 < i < |catalog| ==> catalog[i] == catalog[1..][i - 1];
      r
  }

  /** `def?.label ?? sym.symbolKey`: the catalog label, or the raw key on a miss. */
  function SymbolLabel(catalog: seq<SymbolDefinition>, sym: PlacedSymbol): (text: string)
    ensures (forall i :: 0 <= i < |catalog| ==> catalog[i].key != sym.symbolKey) ==> text == sym.symbolKey
    ensures (exists i :: 0 <= i < |catalog| && catalog[i].key == sym.symbolKey) ==>
              exists i :: 0 <= i < |catalog| && catalog[i].key == sym.symbolKey && text == catalog[i].labelText
                          && forall j :: 0 <= j < i ==> catalog[j].key != sym.symbolKey
  {
    match FindDefinition(catalog, sym.symbolKey)
    case Some(d) => d.labelText
    case None => sym.symbolKey
  }

  function ArtikelMenge(a: ArtikelPosition): int { a.menge }

  /** The board a symbol is drawn on: `attribute.verteiler || 'Unbekannt'`. */
  function BoardName(s: PlacedSymbol): string
  {
    if s.attribute.verteiler == "" then "Unbekannt" else s.attribute.verteiler
  }

  /** Only symbols with a circuit breaker reach the cabinet and circuit views. */
  predicate HasBreaker(s: PlacedSymbol) { s.elektrisch.leitungsschutzschalter != "" }

  predicate HasRaum(sw: Stockwerk, raumId: string)
  {
    exists j :: 0 <= j < |sw.raeume| && sw.raeume[j].id == raumId
  }

  /** The first room of a floor with the given id (`sw.raeume.find`). */
  function FindRaumIn(raeume: seq<Raum>, raumId: string): (r: Option<Raum>)
    ensures r.None? <==> forall j :: 0 <= j < |raeume| ==> raeume[j].id != raumId
    ensures r.Some? ==> exists j :: 0 <= j < |raeume| && raeume[j] == r.value && r.value.id == raumId
                                    && forall m :: 0 <= m < j ==> raeume[m].id != raumId
  {
    if |raeume| == 0 then None
    else if raeume[0].id == raumId then Some(raeume[0])
    else
      var r := FindRaumIn(raeume[1..], raumId);
      assert forall j :: 0 < j < |raeume| ==> raeume[j] == raeume[1..][j - 1];
      assert r.Some? ==> exists j :: 0 <= j < |raeume[1..]| && raeume[1..][j] == r.value
                                     && forall m :: 0 <= m < j ==> raeume[1..][m].id != raumId;
      r
  }

  /** Reference for the two search loops over the building: the index of the
      first floor that has the room, or the number of floors when none has. */
  function FirstFloorWith(floors: seq<Stockwerk>, raumId: string): (i: nat)
    ensures i <= |floors|
    ensures i < |floors| ==> HasRaum(floors[i], raumId)
    ensures forall j :: 0 <= j < i ==> !HasRaum(floors[j], raumId)
  {
    if |floors| == 0 then 0
    else if HasRaum(floors[0], raumId) then 0
    else 1 + FirstFloorWith(floors[1..], raumId)
  }

  /** The floor and room of the first floor that has a room with the id:
      what both search loops over the building find. */
  function RoomOf(floors: seq<Stockwerk>, raumId: string): (r: Option<(Stockwerk, Raum)>)
    ensures r.None? <==> forall i :: 0 <= i < |floors| ==> !HasRaum(floors[i], raumId)
    ensures r.Some? ==> exists i :: 0 <= i < |floors| && floors[i] == r.value.0
                          && (forall j :: 0 <= j < i ==> !HasRaum(floors[j], raumId))
                          && FindRaumIn(floors[i].raeume, raumId) == Some(r.value.1)
                          && r.value.1 in floors[i].raeume && r.value.1.id == raumId
  {
    var i := FirstFloorWith(floors, raumId);
    if i < |floors| then
      var raum := FindRaumIn(floors[i].raeume, raumId);
      Some((floors[i], raum.value))
    else None
  }

  /** The loops stop at the first floor whose room search succeeds. */
  lemma FirstFloorAt(floors: seq<Stockwerk>, raumId: string, k: nat)
    requires k <= |floors|
    requires forall j :: 0 <= j < k ==> !HasRaum(floors[j], raumId)
    requires k < |floors| ==> HasRaum(floors[k], raumId)
    ensures FirstFloorWith(floors, raumId) == k
  {
  }

  /** All articles of all symbols, symbol by symbol. */
  function AllArtikel(syms: seq<PlacedSymbol>): seq<ArtikelPosition>
  {
    if |syms| == 0 then [] else AllArtikel(syms[..|syms| - 1]) + syms[|syms| - 1].artikel
  }

  lemma AllArtikelNext(syms: seq<PlacedSymbol>, s: nat)
    requires s < |syms|
    ensures AllArtikel(syms[..s + 1]) == AllArtikel(syms[..s]) + syms[s].artikel
  {
    assert syms[..s + 1][..s] == syms[..s];
  }
}
