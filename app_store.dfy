/** The application state of src/store/useAppStore.ts: the building, the
    active room, the placed symbols, the selection and the active view, the
    actions that replace them and the selectors that read them. The symbol
    catalog and the id generator are parameters of the actions that use
    them. */
module AppStore {
  import opened Common
  import opened Types

  datatype ViewType =
    | Symboluebersicht
    | Installationsplan
    | Stromlaufplan
    | Aufbauplan
    | Stueckliste
    | Bestellliste

  /** `Partial<PlacedSymbol>`: the fields a patch sets. */
  datatype SymbolPatch = SymbolPatch(
    id: Option<string>,
    symbolKey: Option<string>,
    raumId: Option<string>,
    x: Option<real>,
    y: Option<real>,
    rotation: Option<real>,
    attribute: Option<Attribute>,
    elektrisch: Option<ElektrischeEigenschaften>,
    knx: Option<KnxEigenschaften>,
    artikel: Option<seq<ArtikelPosition>>)

  /** `crypto.randomUUID()`: the n-th id drawn during one action. */
  type IdSource = nat -> string

  // ---------------------------------------------------------------------------
  // The new values the actions compute.
  // ---------------------------------------------------------------------------

  /** The symbol with every field the patch sets replaced by the patch's value. */
  function Patched(sym: PlacedSymbol, patch: SymbolPatch): PlacedSymbol
  {
    PlacedSymbol(
      patch.id.GetOr(sym.id),
      patch.symbolKey.GetOr(sym.symbolKey),
      patch.raumId.GetOr(sym.raumId),
      patch.x.GetOr(sym.x),
      patch.y.GetOr(sym.y),
      patch.rotation.GetOr(sym.rotation),
      patch.attribute.GetOr(sym.attribute),
      patch.elektrisch.GetOr(sym.elektrisch),
      patch.knx.GetOr(sym.knx),
      patch.artikel.GetOr(sym.artikel))
  }

  /** The symbols with the id patched, all others as they were. */
  function Updated(syms: seq<PlacedSymbol>, id: string, patch: SymbolPatch): (r: seq<PlacedSymbol>)
    ensures |r| == |syms|
    ensures forall i :: 0 <= i < |syms| ==> r[i] == if syms[i].id == id then Patched(syms[i], patch) else syms[i]
  {
    if |syms| == 0 then []
    else [if syms[0].id == id then Patched(syms[0], patch) else syms[0]] + Updated(syms[1..], id, patch)
  }

  /** The symbols with the id moved to (x, y), all others as they were. */
  function Moved(syms: seq<PlacedSymbol>, id: string, x: real, y: real): (r: seq<PlacedSymbol>)
    ensures |r| == |syms|
    ensures forall i :: 0 <= i < |syms| ==> r[i] == if syms[i].id == id then syms[i].(x := x, y := y) else syms[i]
  {
    if |syms| == 0 then []
    else [if syms[0].id == id then syms[0].(x := x, y := y) else syms[0]] + Moved(syms[1..], id, x, y)
  }

  /** A patch that sets only the position. */
  function PositionPatch(x: real, y: real): SymbolPatch
  {
    SymbolPatch(None, None, None, Some(x), Some(y), None, None, None, None, None)
  }

  /** Moving is updating with a patch that sets only x and y. */
  lemma MoveIsPositionUpdate(syms: seq<PlacedSymbol>, id: string, x: real, y: real)
    ensures Moved(syms, id, x, y) == Updated(syms, id, PositionPatch(x, y))
  {
    var a, b := Moved(syms, id, x, y), Updated(syms, id, PositionPatch(x, y));
    forall i | 0 <= i < |syms| ensures a[i] == b[i] {
    }
  }

  function Differs(id: string): PlacedSymbol -> bool
  {
    (s: PlacedSymbol) => s.id != id
  }

  /** The symbols whose id differs, in their order and multiplicity. */
  function Removed(syms: seq<PlacedSymbol>, id: string): (r: seq<PlacedSymbol>)
    ensures IsSubsequence(r, syms)
    ensures forall s :: s in r <==> s in syms && s.id != id
    ensures forall s :: multiset(r)[s] == if s.id != id then multiset(syms)[s] else 0
  {
    FilterSpec(syms, Differs(id));
    FilterCount(syms, Differs(id));
    Filter(syms, Differs(id))
  }

  /** The catalog articles with fresh ids drawn from `from` on. */
  function FreshArtikel(arts: seq<ArtikelPosition>, uuid: IdSource, from: nat): (r: seq<ArtikelPosition>)
    ensures |r| == |arts|
    ensures forall j :: 0 <= j < |arts| ==> r[j] == arts[j].(id := uuid(from + j))
  {
    if |arts| == 0 then [] else [arts[0].(id := uuid(from))] + FreshArtikel(arts[1..], uuid, from + 1)
  }

  /** The symbol `addSymbol` places: the first drawn id, the given room and
      position, no rotation, the catalog defaults, and the default articles
      with the following ids. */
  function NewSymbol(def: SymbolDefinition, uuid: IdSource, symbolKey: string, raumId: string, x: real, y: real): (s: PlacedSymbol)
    ensures s.id == uuid(0) && s.symbolKey == symbolKey && s.raumId == raumId
    ensures s.x == x && s.y == y && s.rotation == 0.0
    ensures s.attribute == def.defaultAttribute && s.elektrisch == def.defaultElektrisch && s.knx == def.defaultKnx
    ensures |s.artikel| == |def.defaultArtikel|
    ensures forall j :: 0 <= j < |s.artikel| ==> s.artikel[j] == def.defaultArtikel[j].(id := uuid(1 + j))
  {
    PlacedSymbol(uuid(0), symbolKey, raumId, x, y, 0.0,
                 def.defaultAttribute, def.defaultElektrisch, def.defaultKnx,
                 FreshArtikel(def.defaultArtikel, uuid, 1))
  }

  /** The first symbol with the selected id; none when nothing is selected. */
  function FindById(syms: seq<PlacedSymbol>, id: Option<string>): (r: Option<PlacedSymbol>)
    ensures r.None? <==> id.None? || forall i :: 0 <= i < |syms| ==> syms[i].id != id.value
    ensures r.Some? ==> id.Some?
    ensures r.Some? ==> exists i :: 0 <= i < |syms| && syms[i] == r.value && r.value.id == id.value
                          && forall j :: 0 <= j < i ==> syms[j].id != id.value
  {
    if id.None? || |syms| == 0 then None
    else if syms[0].id == id.value then Some(syms[0])
    else
      var r := FindById(syms[1..], id);
      assert forall i :: 0 < i < |syms| ==> syms[i] == syms[1..][i - 1];
      assert r.Some? ==> exists i :: 0 <= i < |syms[1..]| && syms[1..][i] == r.value
                                     && forall j :: 0 <= j < i ==> syms[1..][j].id != id.value;
      r
  }

  /** The text `useActiveRaumName` shows for a room: "floor / room" for the
      first floor that has it, empty when none has. */
  function RaumTitle(floors: seq<Stockwerk>, raumId: string): (title: string)
    ensures (forall i :: 0 <= i < |floors| ==> !HasRaum(floors[i], raumId)) ==> title == ""
    ensures (exists i :: 0 <= i < |floors| && HasRaum(floors[i], raumId)) ==>
      exists i :: 0 <= i < |floors| && (forall j :: 0 <= j < i ==> !HasRaum(floors[j], raumId))
                  && FindRaumIn(floors[i].raeume, raumId).Some?
                  && title == floors[i].name + " / " + FindRaumIn(floors[i].raeume, raumId).value.name
  {
    match RoomOf(floors, raumId)
    case Some(found) => found.0.name + " / " + found.1.name
    case None => ""
  }

  // ---------------------------------------------------------------------------
  // The selection refers to a placed symbol.
  // ---------------------------------------------------------------------------

  predicate SelectsPlaced(syms: seq<PlacedSymbol>, selected: Option<string>)
  {
    selected.Some? ==> exists i :: 0 <= i < |syms| && syms[i].id == selected.value
  }

  /** Placing selects a placed symbol. */
  lemma AppendSelects(syms: seq<PlacedSymbol>, s: PlacedSymbol)
    ensures SelectsPlaced(syms + [s], Some(s.id))
  {
    assert (syms + [s])[|syms|] == s;
  }

  /** Removing keeps a valid selection valid, since the selection of the
      removed id is cleared. */
  lemma RemovedSelects(syms: seq<PlacedSymbol>, selected: Option<string>, id: string)
    requires SelectsPlaced(syms, selected)
    ensures SelectsPlaced(Removed(syms, id), if selected == Some(id) then None else selected)
  {
    if selected.Some? && selected != Some(id) {
      var i :| 0 <= i < |syms| && syms[i].id == selected.value;
      assert syms[i] in Removed(syms, id);
      var r := Removed(syms, id);
      var k :| 0 <= k < |r| && r[k] == syms[i];
      assert r[k].id == selected.value;
    }
  }

  /** Moving keeps every id, so a valid selection stays valid. */
  lemma MovedSelects(syms: seq<PlacedSymbol>, selected: Option<string>, id: string, x: real, y: real)
    requires SelectsPlaced(syms, selected)
    ensures SelectsPlaced(Moved(syms, id, x, y), selected)
  {
    if selected.Some? {
      var i :| 0 <= i < |syms| && syms[i].id == selected.value;
      assert Moved(syms, id, x, y)[i].id == selected.value;
    }
  }

  /** A patch that leaves ids alone keeps a valid selection valid. */
  lemma UpdatedSelects(syms: seq<PlacedSymbol>, selected: Option<string>, id: string, patch: SymbolPatch)
    requires SelectsPlaced(syms, selected) && patch.id.None?
    ensures SelectsPlaced(Updated(syms, id, patch), selected)
  {
    if selected.Some? {
      var i :| 0 <= i < |syms| && syms[i].id == selected.value;
      assert Updated(syms, id, patch)[i].id == selected.value;
    }
  }

  // ---------------------------------------------------------------------------
  // The store.
  // ---------------------------------------------------------------------------

  class Store {
    var gebaeude: Gebaeude
    var activeRaumId: string
    var placedSymbols: seq<PlacedSymbol>
    var selectedSymbolId: Option<string>
    var activeView: ViewType

    /** The initial state: no symbols, nothing selected, the living room
        active and the installation plan shown. */
    constructor(gebaeude: Gebaeude)
      ensures this.gebaeude == gebaeude && activeRaumId == "r-wohn"
      ensures placedSymbols == [] && selectedSymbolId == None && activeView == Installationsplan
    {
      this.gebaeude := gebaeude;
      activeRaumId := "r-wohn";
      placedSymbols := [];
      selectedSymbolId := None;
      activeView := Installationsplan;
    }

    ghost predicate SelectionValid()
      reads this
    {
      SelectsPlaced(placedSymbols, selectedSymbolId)
    }

    /** `addSymbol`: an unknown key changes nothing; a known one appends the
        new symbol and selects it. */
    method AddSymbol(catalog: seq<SymbolDefinition>, uuid: IdSource, symbolKey: string, raumId: string, x: real, y: real)
      modifies this
      ensures FindDefinition(catalog, symbolKey).None? ==>
        && placedSymbols == old(placedSymbols) && selectedSymbolId == old(selectedSymbolId)
      ensures FindDefinition(catalog, symbolKey).Some? ==>
        && placedSymbols == old(placedSymbols) + [NewSymbol(FindDefinition(catalog, symbolKey).value, uuid, symbolKey, raumId, x, y)]
        && selectedSymbolId == Some(uuid(0))
      ensures gebaeude == old(gebaeude) && activeRaumId == old(activeRaumId) && activeView == old(activeView)
      ensures old(SelectionValid()) ==> SelectionValid()
      ensures FindDefinition(catalog, symbolKey).Some? ==> SelectionValid()
    {
      var def := FindDefinition(catalog, symbolKey);
      if def.None? {
        return;
      }
      var symbol := NewSymbol(def.value, uuid, symbolKey, raumId, x, y);
      AppendSelects(placedSymbols, symbol);
      placedSymbols, selectedSymbolId := placedSymbols + [symbol], Some(symbol.id);
    }

    /** `updateSymbol`: patches the symbols with the id. */
    method UpdateSymbol(id: string, patch: SymbolPatch)
      modifies this
      ensures placedSymbols == Updated(old(placedSymbols), id, patch)
      ensures gebaeude == old(gebaeude) && activeRaumId == old(activeRaumId)
      ensures selectedSymbolId == old(selectedSymbolId) && activeView == old(activeView)
      ensures patch.id.None? && old(SelectionValid()) ==> SelectionValid()
    {
      if patch.id.None? && SelectsPlaced(placedSymbols, selectedSymbolId) {
        UpdatedSelects(placedSymbols, selectedSymbolId, id, patch);
      }
      placedSymbols := Updated(placedSymbols, id, patch);
    }

    /** `moveSymbol`: sets the position of the symbols with the id. */
    method MoveSymbol(id: string, x: real, y: real)
      modifies this
      ensures placedSymbols == Moved(old(placedSymbols), id, x, y)
      ensures gebaeude == old(gebaeude) && activeRaumId == old(activeRaumId)
      ensures selectedSymbolId == old(selectedSymbolId) && activeView == old(activeView)
      ensures old(SelectionValid()) ==> SelectionValid()
    {
      if SelectsPlaced(placedSymbols, selectedSymbolId) {
        MovedSelects(placedSymbols, selectedSymbolId, id, x, y);
      }
      placedSymbols := Moved(placedSymbols, id, x, y);
    }

    /** `removeSymbol`: drops the symbols with the id and clears the
        selection if it was that id. */
    method RemoveSymbol(id: string)
      modifies this
      ensures placedSymbols == Removed(old(placedSymbols), id)
      ensures selectedSymbolId == if old(selectedSymbolId) == Some(id) then None else old(selectedSymbolId)
      ensures gebaeude == old(gebaeude) && activeRaumId == old(activeRaumId) && activeView == old(activeView)
      ensures old(SelectionValid()) ==> SelectionValid()
    {
      if SelectsPlaced(placedSymbols, selectedSymbolId) {
        RemovedSelects(placedSymbols, selectedSymbolId, id);
      }
      placedSymbols := Removed(placedSymbols, id);
      selectedSymbolId := if selectedSymbolId == Some(id) then None else selectedSymbolId;
    }

    /** `selectSymbol`: changes the selection only. */
    method SelectSymbol(id: Option<string>)
      modifies this
      ensures selectedSymbolId == id
      ensures placedSymbols == old(placedSymbols) && gebaeude == old(gebaeude)
      ensures activeRaumId == old(activeRaumId) && activeView == old(activeView)
    {
      selectedSymbolId := id;
    }

    /** `setActiveRaum`: switches the room and clears the selection. */
    method SetActiveRaum(raumId: string)
      modifies this
      ensures activeRaumId == raumId && selectedSymbolId == None
      ensures placedSymbols == old(placedSymbols) && gebaeude == old(gebaeude) && activeView == old(activeView)
      ensures SelectionValid()
    {
      activeRaumId, selectedSymbolId := raumId, None;
    }

    /** `setActiveView`: switches the view only. */
    method SetActiveView(view: ViewType)
      modifies this
      ensures activeView == view
      ensures placedSymbols == old(placedSymbols) && gebaeude == old(gebaeude)
      ensures activeRaumId == old(activeRaumId) && selectedSymbolId == old(selectedSymbolId)
    {
      activeView := view;
    }

    function InActiveRaum(): PlacedSymbol -> bool
      reads this
    {
      var raumId := activeRaumId;
      (s: PlacedSymbol) => s.raumId == raumId
    }

    /** `useSymbolsForActiveRaum`: the symbols of the active room, in order. */
    function SymbolsForActiveRaum(): (r: seq<PlacedSymbol>)
      reads this
      ensures IsSubsequence(r, placedSymbols)
      ensures forall s :: s in r <==> s in placedSymbols && s.raumId == activeRaumId
      ensures forall s :: multiset(r)[s] == if s.raumId == activeRaumId then multiset(placedSymbols)[s] else 0
    {
      FilterSpec(placedSymbols, InActiveRaum());
      FilterCount(placedSymbols, InActiveRaum());
      Filter(placedSymbols, InActiveRaum())
    }

    /** `useSelectedSymbol`: the first symbol with the selected id, if any. */
    function SelectedSymbol(): (r: Option<PlacedSymbol>)
      reads this
      ensures r.None? <==> selectedSymbolId.None? || forall i :: 0 <= i < |placedSymbols| ==> placedSymbols[i].id != selectedSymbolId.value
      ensures r.Some? ==> r.value in placedSymbols && Some(r.value.id) == selectedSymbolId
    {
      FindById(placedSymbols, selectedSymbolId)
    }

    /** `useActiveRaumName`: searches the floors in order for the active room. */
    method ActiveRaumName() returns (name: string)
      ensures name == RaumTitle(gebaeude.stockwerke, activeRaumId)
    {
      var floors := gebaeude.stockwerke;
      var k := 0;
      while k < |floors|
        invariant 0 <= k <= |floors|
        invariant forall j :: 0 <= j < k ==> !HasRaum(floors[j], activeRaumId)
      {
        var raum := FindRaumIn(floors[k].raeume, activeRaumId);
        if raum.Some? {
          FirstFloorAt(floors, activeRaumId, k);
          return floors[k].name + " / " + raum.value.name;
        }
        k := k + 1;
      }
      FirstFloorAt(floors, activeRaumId, k);
      return "";
    }
  }
}
