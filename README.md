# SymbolAttribute: a verified model of its planning logic

SymbolAttribute is a browser tool for electrical installation planning. Users place symbols (sockets, switches, lights and so on) in the rooms of a building. Each symbol carries attributes, electrical data and article lines. The program derives several things from these placements:
- the circuits and the sharing of residual-current devices (RCDs) between them;
- the upstream supply chain of each distribution board;
- a parts list, an order list, a cabinet plan and a circuit diagram.

This Dafny project models the logic core of the program and proves properties of it. The core has four parts.

**The RCD sharing engine** (`src/logic/rcdGrouping.ts`; module `RcdGrouping`, with proofs in `RcdGroupingProperties`).
- A circuit is eligible when it has a standalone RCD requirement (role `rcd` or `rcd_type_b`) and no `rcbo` requirement.
- Manual overrides pin eligible circuits to a group id. The remaining eligible circuits are bucketed automatically by their `rcdKey`: board, fault current, RCD type and poles, plus room, MCB rating and grouping hint when the strategy asks for them.
- `splitIntoChunks` sorts each bucket by circuit id. It cuts the bucket into groups of at most `maxLss` circuits and names them `rcd-group-<key>`, `rcd-group-<key>-1`, and so on.
- `buildGroup` gives each group the requirement of its first member, raised to the largest rated current among the members.
- `GroupBySharedRcd`, `SplitIntoChunks`/`BuildChunks`, `IndexCircuits`, `CollectManual`, `CollectAuto` and `AppendSplits` are the source's loops, written as methods. Each one is proved equal to a functional reference: `RcdGroups`, `SplitGroups`, `ChunkGroups`, `IndexById`, `Pins`/`PinnedIds`, `AutoPool` and `SplitBuckets`.
- The lemmas prove the following about that reference:
  - the size bound;
  - RCBO exclusion;
  - board isolation of automatic groups (manual groups are not board-checked, as in the source);
  - key agreement within a bucket;
  - id naming and the precedence of manual pins (`PinnedInManualGroup`);
  - that every eligible circuit lands in exactly one group.

**The upstream supply chain** (`src/logic/netzUpstream.ts`; module `NetzUpstream`).
- `ResolveUpstreamDevices` and `PushSpdDevices` push entries in stage order: supply, meter pre-fuse, SPD group before the meter, meter, SPD group after the meter, main switch.
- They are proved equal to the stage-by-stage definition `UpstreamChain`. Lemmas state the chain's slot order, slot multiplicities, SPD placement and the per-slot label and width fallbacks.
- `FindAllNetzeForVerteiler` and `FindNetzForVerteiler` are the lookups of a configuration by board.

**The application store** (`src/store/useAppStore.ts`; module `AppStore`).
- A class `Store` holds the fields `placedSymbols`, `selectedSymbolId` and `activeRaumId`, plus the building and the active view. Its methods are the store's actions.
- Each action states its whole new state in terms of pure functions (`Updated`, `Moved`, `Removed`, `NewSymbol`).
- Adding a symbol, moving one, removing one, setting the active room and updating a symbol with a patch that leaves the id alone keep the invariant that the selection, when there is one, names a placed symbol. As in the source, selecting an arbitrary id and patching a symbol's id can break it.
- The selectors are functions and one search method.

**The four aggregation views** (`src/components/views/*.tsx`; modules `BestelllisteView`, `StuecklisteView`, `AufbauplanView`, `StromlaufplanView`).
- Each `useMemo` loop is written as a method over an insertion-ordered association list. This stands in for the JavaScript `Map`, which the source mutates in place.
- Each method is proved equal to a fold (module `Grouping`: `Accumulate`, `AddAcc`, `Buckets`), followed by the stable sort `SortBy` (module `Common`).
- Lemmas prove that each view has one row per distinct key and that per-key sums and totals are conserved. They also prove the sort order, coverage of every contributing input and each view's special cases: the `'Unbekannt'` board, skipped symbols, catalog misses, and recomputed prices.

The shared entity types (placed symbols, articles, catalog definitions, floors and rooms) are in module `Types`. The shared library is in module `Common`:
- `Option`;
- a code-point string order `StrLe`, proved total and transitive;
- an insertion sort proved ordered, a permutation and stable;
- filters, sums, subsequences, chunks and number text.

## Model

| member | source | states |
|---|---|---|
| RcdGrouping.FindRequirement | src/logic/rcdGrouping.ts:85 | the first requirement whose role is in the set, or none exactly when no requirement has such a role |
| RcdGrouping.CandidateOf | src/logic/rcdGrouping.ts:99-101 | a circuit yields a candidate exactly when it has no RCBO requirement and has an RCD requirement; the candidate carries the circuit and its first `rcd`/`rcd_type_b` requirement |
| RcdGrouping.KeyOfAgreement | src/logic/rcdGrouping.ts:21-30 | two candidates have the same key exactly when board, `faultCurrent ?? 30`, `rcdType ?? 'A'` and `poles ?? 2` agree, together with room, `ratedCurrent ?? 0` of the MCB and grouping hint whenever the strategy switches these on |
| RcdGrouping.MaxRatedIsMaximum | src/logic/rcdGrouping.ts:33 | the shared rated current is at least every member's `ratedCurrent ?? 40` and equal to one of them |
| RcdGrouping.IdsOfIndex | src/logic/rcdGrouping.ts:41 | the circuit ids of a group are its members' ids, position by position |
| RcdGrouping.MaxLss | src/logic/rcdGrouping.ts:70 | the chunk size is at least 1 |
| RcdGrouping.MulDiv | src/logic/rcdGrouping.ts:53 | at the start of chunk k, `i / maxLss` is k |
| RcdGrouping.ChunkStartIndex | src/logic/rcdGrouping.ts:51-53 | the loop index at the start of chunk k divides to k |
| RcdGrouping.ChunkAtStart | src/logic/rcdGrouping.ts:52 | the slice `members.slice(i, i + maxLss)` taken at the start of chunk k is chunk k |
| RcdGrouping.ChunkGroupsCount | src/logic/rcdGrouping.ts:51-56 | the loop builds one group per chunk |
| RcdGrouping.ChunkGroupsAt | src/logic/rcdGrouping.ts:51-56 | group j is the chunk j, of 1 to maxLss members, built under chunk number k + j |
| RcdGrouping.ChunkGroupsByIndex | src/logic/rcdGrouping.ts:51-56 | groups that are, one by one, the chunks under their numbers are the bucket's groups |
| RcdGrouping.SplitIntoChunks | src/logic/rcdGrouping.ts:46-58 | the result is the bucket sorted by circuit id and cut into groups, whether the bucket fits in one group or not |
| RcdGrouping.BuildChunks | src/logic/rcdGrouping.ts:50-57 | the slicing loop yields the groups of consecutive slices of at most maxLss members, numbered from 0 |
| RcdGrouping.GroupBySharedRcd | src/logic/rcdGrouping.ts:66-123 | the result is the automatic groups followed by the manual groups, as defined by `RcdGroups` |
| RcdGrouping.IndexCircuits | src/logic/rcdGrouping.ts:74 | the loop builds the id index in which later circuits replace earlier ones with the same id |
| RcdGrouping.CollectManual | src/logic/rcdGrouping.ts:80-92 | the pinned ids are those of overrides with a group id and an existing eligible circuit; the manual buckets are those pins grouped by group id in first-occurrence order |
| RcdGrouping.CollectAuto | src/logic/rcdGrouping.ts:97-107 | the automatic buckets are the unpinned eligible circuits grouped by key in first-occurrence order |
| RcdGrouping.AppendSplits | src/logic/rcdGrouping.ts:112-120 | the result loops append the groups of every non-empty bucket in bucket order |
| RcdGrouping.PinsStep | src/logic/rcdGrouping.ts:80-92 | one more override adds its circuit id and its pin exactly when it takes effect |
| RcdGrouping.AutoPoolStep | src/logic/rcdGrouping.ts:97-107 | one more circuit joins the bucket of its key exactly when it is unpinned and eligible |
| RcdGrouping.SplitBucketsStep | src/logic/rcdGrouping.ts:112-120 | one more bucket appends its groups unless it is empty |
| RcdGrouping.CircuitDevicesWithoutRcd | src/logic/rcdGrouping.ts:128-132 | the devices whose role is neither `rcd` nor `rcd_type_b`, in their original order and with their multiplicity; every other device is dropped |
| RcdGroupingProperties.BuildGroupFacts | src/logic/rcdGrouping.ts:32-44 | a group takes the given id, its first member's board, one circuit id per member in order, the first member's requirement with the maximum rated current, the first resolved device or none exactly when resolution returns nothing, and the manual flag |
| RcdGroupingProperties.ChunkGroupsIds | src/logic/rcdGrouping.ts:51-56 | concatenating the chunks' circuit ids gives the members' ids in order |
| RcdGroupingProperties.SplitGroupAt | src/logic/rcdGrouping.ts:51-56 | group j is named `ChunkId(key, j)`, is full unless it is last, and is a sorted chunk of the bucket |
| RcdGroupingProperties.SplitGroupsSingle | src/logic/rcdGrouping.ts:48 | a bucket of at most maxLss members gives the single group `rcd-group-<key>` of the sorted members |
| RcdGroupingProperties.SplitGroupsShape | src/logic/rcdGrouping.ts:46-58 | the groups hold the sorted bucket's ids in order, chunk k is named `rcd-group-<key>` for k = 0 and `rcd-group-<key>-<k>` otherwise, all groups but the last are full, and each is a sorted chunk of the bucket |
| RcdGroupingProperties.IndexByIdSpec | src/logic/rcdGrouping.ts:74 | the index holds exactly the circuits' ids, each mapped to a circuit with that id; with distinct ids each circuit is found under its own id |
| RcdGroupingProperties.IndexByIdKeys | src/logic/rcdGrouping.ts:74 | an id is in the index exactly when some circuit has it |
| RcdGroupingProperties.IndexByIdValues | src/logic/rcdGrouping.ts:74 | every value of the index is a circuit of the list with that id |
| RcdGroupingProperties.IndexByIdDistinct | src/logic/rcdGrouping.ts:74 | with distinct ids, every circuit is what the index returns for its id |
| RcdGroupingProperties.AutoPoolEntries | src/logic/rcdGrouping.ts:97-106 | every automatic pair is an unpinned eligible circuit of the list with its first RCD requirement, under its own key |
| RcdGroupingProperties.PinsEntries | src/logic/rcdGrouping.ts:80-91 | every manual pair is the circuit the index returns for an override's circuit id, eligible, under that override's group id |
| RcdGroupingProperties.AutoGroupsShape | src/logic/rcdGrouping.ts:97-115 | every automatic group is a chunk of some key's bucket whose members are all unpinned eligible circuits with that key |
| RcdGroupingProperties.ManualGroupsShape | src/logic/rcdGrouping.ts:80-92 | every manual group is a chunk of some group id whose members are all eligible circuits pinned to that id |
| RcdGroupingProperties.AutoGroupFacts | src/logic/rcdGrouping.ts:103-114 | an automatic group has 1 to maxLss sorted ids of eligible circuits, no manual flag, and all its circuits are on the group's board |
| RcdGroupingProperties.ManualGroupFacts | src/logic/rcdGrouping.ts:117-120 | a manual group has 1 to maxLss sorted ids of eligible circuits and the manual flag |
| RcdGroupingProperties.AutoGroupsProper | src/logic/rcdGrouping.ts:112-115 | all automatic groups are proper and board-isolated |
| RcdGroupingProperties.ManualGroupsProper | src/logic/rcdGrouping.ts:117-120 | all manual groups are proper and flagged manual |
| RcdGroupingProperties.RcdGroupsSound | src/logic/rcdGrouping.ts:110-122 | the result is the automatic groups, each proper, unflagged and board-isolated, followed by the manual groups, each proper and flagged |
| RcdGroupingProperties.ManualGroupSpansBoards | src/logic/rcdGrouping.ts:80-92 | circuit a on board V1 and circuit b on board V2, both pinned to group G, give exactly one group, `rcd-group-G`, flagged manual, holding a and b with board V1, so b is not on the group's board |
| RcdGroupingProperties.AllIdsMember | src/logic/rcdGrouping.ts:110-122 | an id among the result's circuit ids lies in one of the groups |
| RcdGroupingProperties.PinnedInManualGroup | src/logic/rcdGrouping.ts:46-120 | with distinct circuit ids and overrides on distinct circuits, an eligible circuit that an override pins to G is in a manual group whose id is `rcd-group-G` or `rcd-group-G-k`, and in no automatic group |
| RcdGroupingProperties.ManualGroupNamed | src/logic/rcdGrouping.ts:80-92 | with overrides on distinct circuits, a manual group that holds the circuit of an override with group id G is named `rcd-group-G` or `rcd-group-G-k` |
| RcdGroupingProperties.SplitGroupsCount | src/logic/rcdGrouping.ts:46-58 | a bucket's groups hold an id as often as the bucket has members with it |
| RcdGroupingProperties.PoolCount | src/logic/rcdGrouping.ts:112-120 | the groups of all buckets hold an id as often as the pairs do |
| RcdGroupingProperties.AutoPoolCount | src/logic/rcdGrouping.ts:97-107 | with distinct circuit ids, the automatic pool holds an id once if it is an unpinned eligible circuit and never otherwise |
| RcdGroupingProperties.PinsCount | src/logic/rcdGrouping.ts:80-92 | with overrides on distinct circuits, the pins hold an id once if an override with it took effect and never otherwise |
| RcdGroupingProperties.PinOfEligible | src/logic/rcdGrouping.ts:81-86 | an override takes effect exactly when it has a group id and names an eligible circuit; null and stale overrides do not |
| RcdGroupingProperties.PinnedOfSpec | src/logic/rcdGrouping.ts:80-92 | a circuit id is pinned exactly when it names an eligible circuit and some override for it has a non-null group id |
| RcdGroupingProperties.EligibleIdSnoc | src/logic/rcdGrouping.ts:97-101 | with distinct ids, dropping the last circuit removes exactly its own eligibility |
| RcdGroupingProperties.RcdGroupsExactlyOnce | src/logic/rcdGrouping.ts:80-120 | with distinct circuit ids and overrides on distinct circuits, a pinned circuit is in exactly one manual group and no automatic one, an unpinned eligible circuit is in exactly one automatic group, and a circuit is in the result once exactly when it is eligible |
| NetzUpstream.FindAllNetzeForVerteiler | src/logic/netzUpstream.ts:30-35 | exactly the configurations whose board list contains the id, in input order and with their multiplicity |
| NetzUpstream.FindNetzForVerteiler | src/logic/netzUpstream.ts:22-27 | the first configuration whose board list contains the id, or none exactly when no configuration's list contains it |
| NetzUpstream.FindNetzIsFirstOfAll | src/logic/netzUpstream.ts:22-27 | the first match is the head of all matches, and there is none exactly when there are no matches |
| NetzUpstream.ResolveUpstreamDevices | src/logic/netzUpstream.ts:41-101 | the pushes build the stage-by-stage chain `UpstreamChain` |
| NetzUpstream.PushSpdDevices | src/logic/netzUpstream.ts:103-124 | appends the SPD pre-fuse (when enabled) and then the SPD to the devices so far |
| NetzUpstream.SpdStageSlots | src/logic/netzUpstream.ts:67-69 | an SPD stage has the slots of the SPD group exactly when the SPD is enabled at that position |
| NetzUpstream.ChainSlots | src/logic/netzUpstream.ts:41-101 | the chain's slots are exactly the slots which the flags switch on, in stage order |
| NetzUpstream.PlanSubsequence | src/logic/netzUpstream.ts:39 | the slots are a subsequence of einspeisung, zaehlervorsicherung, [spd_vorsicherung, ueberspannungsschutz], zaehler, [spd_vorsicherung, ueberspannungsschutz], hauptschalter |
| NetzUpstream.PlanVorZaehler | src/logic/netzUpstream.ts:66-81 | with the SPD before the meter, the SPD group sits between the pre-fuse and the meter |
| NetzUpstream.PlanNachZaehler | src/logic/netzUpstream.ts:72-98 | with the SPD after the meter, the SPD group sits between the meter and the main switch |
| NetzUpstream.PlanWithoutSpd | src/logic/netzUpstream.ts:66-69 | with the SPD disabled, no SPD stage contributes |
| NetzUpstream.PlanCount | src/logic/netzUpstream.ts:45-98 | apart from the SPD slots, the supply occurs once and the pre-fuse, meter and main switch occur once each when enabled and never otherwise |
| NetzUpstream.PlanHead | src/logic/netzUpstream.ts:45-52 | the plan has 1 to 6 slots, the supply is at its head and nowhere else |
| NetzUpstream.PlanCounts | src/logic/netzUpstream.ts:55-98 | zaehlervorsicherung, zaehler and hauptschalter each appear once exactly when enabled, and the supply only at the head |
| NetzUpstream.PlanSpdVor | src/logic/netzUpstream.ts:67-69 | SPD before the meter: one SPD, its pre-fuse immediately before it exactly when the pre-fuse is enabled, and the SPD before the meter |
| NetzUpstream.PlanSpdNach | src/logic/netzUpstream.ts:84-86 | SPD after the meter: one SPD, its pre-fuse immediately before it exactly when enabled, and the SPD after the meter |
| NetzUpstream.PlanSpdOff | src/logic/netzUpstream.ts:67-86 | SPD disabled: neither SPD slot appears |
| NetzUpstream.PlanSpd | src/logic/netzUpstream.ts:67-124 | the SPD appears once exactly when enabled; its pre-fuse appears exactly when both are enabled, always immediately before the SPD; the SPD precedes the meter exactly when its position is `vor_zaehler` |
| NetzUpstream.ChainOrder | src/logic/netzUpstream.ts:41-101 | the chain is never empty; entry 0 is the supply, with no device, width 0, label `Einspeisung` and the network-form label suffixed with ` (KB)` exactly for a terminal block; the supply appears nowhere else; the slots follow the stage order; pre-fuse, meter and main switch appear exactly when enabled |
| NetzUpstream.ChainSpd | src/logic/netzUpstream.ts:67-124 | the SPD placement properties, on the chain itself |
| NetzUpstream.ChainEntries | src/logic/netzUpstream.ts:55-123 | every entry carries the device the catalog returns for its configured id, with the catalog's label and width or, on a miss, `SLS`/3, `Zähler`/4, `Hauptschalter`/3 and `SPD`/4; pre-fuse and main switch show `<ampere>A`; the SPD shows its position; the SPD pre-fuse has no device, width 1 and label `Vorsicherung SPD` |
| NetzUpstream.MeterAndMainSwitchOnly | src/logic/netzUpstream.ts:41-101 | pre-fuse and SPD disabled, meter and main switch enabled gives exactly [einspeisung, zaehler, hauptschalter] |
| AppStore.Updated | src/store/useAppStore.ts:51-56 | same length and order; entries with the id are patched, all others are unchanged |
| AppStore.Moved | src/store/useAppStore.ts:58-63 | same length and order; entries with the id get the new x and y, all others are unchanged |
| AppStore.MoveIsPositionUpdate | src/store/useAppStore.ts:51-63 | moving is updating with a patch that sets x and y only |
| AppStore.Removed | src/store/useAppStore.ts:65-67 | exactly the symbols whose id differs, in original order and multiplicity |
| AppStore.FreshArtikel | src/store/useAppStore.ts:46 | the catalog's articles in order, each with a fresh id |
| AppStore.NewSymbol | src/store/useAppStore.ts:36-47 | the new symbol has the fresh id, the key, room and position given, rotation 0, the catalog's default attributes, electrical and KNX data, and its articles with fresh ids |
| AppStore.FindById | src/store/useAppStore.ts:86 | the first symbol with the selected id, or none exactly when nothing is selected or no symbol has the id |
| AppStore.RaumTitle | src/store/useAppStore.ts:91-98 | `floor / room` for the first floor containing the room, and empty when no floor does |
| AppStore.AppendSelects | src/store/useAppStore.ts:48 | after adding, the selection names a placed symbol |
| AppStore.RemovedSelects | src/store/useAppStore.ts:65-69 | removal keeps a valid selection valid |
| AppStore.MovedSelects | src/store/useAppStore.ts:58-63 | moving keeps a valid selection valid |
| AppStore.UpdatedSelects | src/store/useAppStore.ts:51-56 | a patch that does not touch ids keeps a valid selection valid |
| AppStore.Store.constructor | src/store/useAppStore.ts:27-31 | the initial state: no symbols, no selection, room `r-wohn`, the installation plan view |
| AppStore.Store.AddSymbol | src/store/useAppStore.ts:33-49 | an unknown key changes nothing; a known key appends exactly the new symbol, leaves existing ones unchanged and selects the new id |
| AppStore.Store.UpdateSymbol | src/store/useAppStore.ts:51-56 | only the symbols change, to the `Updated` list |
| AppStore.Store.MoveSymbol | src/store/useAppStore.ts:58-63 | only the symbols change, to the `Moved` list |
| AppStore.Store.RemoveSymbol | src/store/useAppStore.ts:65-69 | the symbols become the `Removed` list, and the selection is cleared exactly when it was the removed id |
| AppStore.Store.SelectSymbol | src/store/useAppStore.ts:71 | changes the selection only |
| AppStore.Store.SetActiveRaum | src/store/useAppStore.ts:72 | sets the room and always clears the selection |
| AppStore.Store.SetActiveView | src/store/useAppStore.ts:73 | changes the view only |
| AppStore.Store.SymbolsForActiveRaum | src/store/useAppStore.ts:79-82 | exactly the symbols of the active room, in order and multiplicity |
| AppStore.Store.SelectedSymbol | src/store/useAppStore.ts:84-87 | a placed symbol with the selected id, or none exactly when nothing is selected or no symbol has the id |
| AppStore.Store.ActiveRaumName | src/store/useAppStore.ts:91-98 | the search loop yields `RaumTitle` of the active room |
| Types.FindDefinition | src/store/useAppStore.ts:34 | the first catalog definition with the key, or none exactly when the catalog has none |
| Types.SymbolLabel | src/components/views/Stueckliste.tsx:38-39 | the label of the first catalog definition with the symbol's key, or the key itself on a miss |
| Types.FindRaumIn | src/store/useAppStore.ts:94 | the first room of a floor with the id, or none exactly when there is none |
| Types.FirstFloorWith | src/components/views/Stromlaufplan.tsx:32-35 | the index of the first floor containing the room, or the number of floors |
| Types.RoomOf | src/store/useAppStore.ts:93-96 | the first floor containing the room, with that room, or none exactly when no floor contains it |
| Types.FirstFloorAt | src/components/views/Stromlaufplan.tsx:32-35 | the search stops at the first floor whose room search succeeds |
| BestelllisteView.Materials | src/components/views/Bestellliste.tsx:12 | exactly the articles of all symbols whose type is material, in order and with their multiplicity |
| BestelllisteView.OrderRows | src/components/views/Bestellliste.tsx:8-27 | the loops and the sort yield the order list `OrderList` |
| BestelllisteView.AddArticles | src/components/views/Bestellliste.tsx:11-24 | the article loop accumulates one symbol's articles into the row map |
| BestelllisteView.AddArticle | src/components/views/Bestellliste.tsx:12-23 | a material article is added to the row of its (`bezeichnung`, `einheit`) key, opening it if new; any other article is skipped |
| BestelllisteView.FoldRow | src/components/views/Bestellliste.tsx:14-22 | the articles of one key fold to that key's row with their summed quantity |
| BestelllisteView.UnsortedRows | src/components/views/Bestellliste.tsx:13-24 | each row folds exactly the material articles with its key |
| BestelllisteView.UnsortedDistinct | src/components/views/Bestellliste.tsx:13-24 | no two rows share a key |
| BestelllisteView.UnsortedCover | src/components/views/Bestellliste.tsx:13-24 | every material article has a row with its key |
| BestelllisteView.UnsortedKeys | src/components/views/Bestellliste.tsx:13-24 | rows with distinct keys, one per key of a material article, each folding that key's articles |
| BestelllisteView.UnsortedSums | src/components/views/Bestellliste.tsx:14-16 | each row's quantity is the sum over the material articles with its key |
| BestelllisteView.UnsortedTotal | src/components/views/Bestellliste.tsx:10-25 | the row quantities add up to the material quantities |
| BestelllisteView.FoldMengeSum | src/components/views/Bestellliste.tsx:16 | accumulating a bucket sums its quantities |
| BestelllisteView.OrderListFacts | src/components/views/Bestellliste.tsx:8-33 | the rows are sorted by name, one per distinct (`bezeichnung`, `einheit`) among material articles, each with the summed quantity, totals conserved, and empty exactly when there are no material articles |
| StuecklisteView.PartRows | src/components/views/Stueckliste.tsx:9-31 | the loops and the sort yield the parts list `PartsList` |
| StuecklisteView.AddParts | src/components/views/Stueckliste.tsx:12-28 | the article loop accumulates one symbol's articles into the row map |
| StuecklisteView.AddArticle | src/components/views/Stueckliste.tsx:13-27 | an article is added to the row of its (`bezeichnung`, `typ`, `einheit`, `einzelpreis`) key, opening it if new, and the row's price is recomputed |
| StuecklisteView.FoldRow | src/components/views/Stueckliste.tsx:14-26 | the articles of one key fold to the row with their summed quantity and the price of that sum |
| StuecklisteView.LinePriceSum | src/components/views/Stueckliste.tsx:17 | with one unit price, summed line prices are the summed quantity times the price |
| StuecklisteView.PartEntry | src/components/views/Stueckliste.tsx:13-27 | each row map entry folds exactly the articles with its key |
| StuecklisteView.UnsortedKeys | src/components/views/Stueckliste.tsx:13-27 | rows with distinct keys, one per key of an article, services included, each folding that key's articles |
| StuecklisteView.UnsortedSums | src/components/views/Stueckliste.tsx:15-25 | each row's quantity is its key's sum and its price is that quantity times the unit price |
| StuecklisteView.UnsortedTotals | src/components/views/Stueckliste.tsx:11-29 | quantities and prices are both conserved |
| StuecklisteView.TotalIsSum | src/components/views/Stueckliste.tsx:33 | `total` is the sum of the rows' prices |
| StuecklisteView.PartsListFacts | src/components/views/Stueckliste.tsx:9-33 | sorted by name, one row per distinct key, each with the summed quantity and recomputed price, quantities conserved, and `total` equal to the sum of all line prices |
| StuecklisteView.SymbolSummary | src/components/views/Stueckliste.tsx:35-43 | the counting loop and the sort yield `Summary` |
| StuecklisteView.CountSymbol | src/components/views/Stueckliste.tsx:38-40 | a symbol raises its label's count by one, or enters a new label with count 1 |
| StuecklisteView.CountMapNext | src/components/views/Stueckliste.tsx:37-41 | one more symbol is one more counting step |
| StuecklisteView.FoldCount | src/components/views/Stueckliste.tsx:40 | counting a bucket gives its size |
| StuecklisteView.CountMapFacts | src/components/views/Stueckliste.tsx:36-41 | distinct labels, each counting its symbols, every symbol's label present, counts adding up to the number of symbols |
| StuecklisteView.CountsSum | src/components/views/Stueckliste.tsx:42 | the entries' counts are the counts of the map |
| StuecklisteView.SummaryFacts | src/components/views/Stueckliste.tsx:35-43 | sorted by label, one entry per distinct label (catalog label or key on a miss), each counting that label's symbols, counts adding up to the number of placed symbols |
| AufbauplanView.CountSymbol | src/components/views/Aufbauplan.tsx:39-43 | the (lss, rcd) row is created at 0 when absent, then counted up |
| AufbauplanView.AddToBoard | src/components/views/Aufbauplan.tsx:37-43 | the board's row map is created when the board is new, then the symbol is counted in it |
| AufbauplanView.BoardMapNext | src/components/views/Aufbauplan.tsx:34-44 | one more symbol is counted on its board when it has a circuit breaker, and skipped otherwise |
| AufbauplanView.Cabinets | src/components/views/Aufbauplan.tsx:32-48 | the loop, the mapping and the sort yield `CabinetList` |
| AufbauplanView.ServedSpec | src/components/views/Aufbauplan.tsx:35-43 | a symbol is served by board and pair exactly when it has a breaker, that board and that pair |
| AufbauplanView.FoldCabRow | src/components/views/Aufbauplan.tsx:40-43 | the symbols of one pair fold to that pair's row, with their number as count |
| AufbauplanView.RowsShape | src/components/views/Aufbauplan.tsx:38-43 | each row counts exactly the symbols with its pair |
| AufbauplanView.RowsCount | src/components/views/Aufbauplan.tsx:43 | a board's row counts add up to its symbols |
| AufbauplanView.BoardRows | src/components/views/Aufbauplan.tsx:38-43 | a board with symbols has at least one row, one per distinct pair, each counting its symbols, every symbol's pair present, counts adding up |
| AufbauplanView.RowsDistinct | src/components/views/Aufbauplan.tsx:38-43 | the rows have distinct pairs and positive counts |
| AufbauplanView.RowsCover | src/components/views/Aufbauplan.tsx:38-43 | every symbol's pair has a row |
| AufbauplanView.BoardEntry | src/components/views/Aufbauplan.tsx:35-43 | a board entry is named, has symbols and holds the row map of exactly its symbols |
| AufbauplanView.BoardMapFacts | src/components/views/Aufbauplan.tsx:33-44 | distinct boards, never the empty name, each with the row map of its qualifying symbols, and every qualifying symbol's board present |
| AufbauplanView.ToCabinetsIndex | src/components/views/Aufbauplan.tsx:46 | one cabinet per board entry, with that entry's rows |
| AufbauplanView.CabinetAt | src/components/views/Aufbauplan.tsx:45-46 | each unsorted cabinet is proper, with counts adding up to its board's symbols |
| AufbauplanView.CabinetFor | src/components/views/Aufbauplan.tsx:35-43 | a symbol with a breaker has a row in the cabinet of its board |
| AufbauplanView.BoardsPartition | src/components/views/Aufbauplan.tsx:34-44 | all cabinet counts add up to the number of symbols with a breaker |
| AufbauplanView.CabinetsTotal | src/components/views/Aufbauplan.tsx:45-46 | the cabinets' totals are the board map's totals |
| AufbauplanView.SortedCabinetEntries | src/components/views/Aufbauplan.tsx:47 | every sorted cabinet is proper |
| AufbauplanView.SortedCabinetCover | src/components/views/Aufbauplan.tsx:47 | every qualifying symbol is served by a sorted cabinet |
| AufbauplanView.SortedCabinetNames | src/components/views/Aufbauplan.tsx:45-47 | each board name appears once |
| AufbauplanView.CabinetListFacts | src/components/views/Aufbauplan.tsx:32-48 | cabinets sorted by board, board names distinct, each cabinet with at least one row and one row per distinct (lss, rcd) counting its symbols, every qualifying symbol served, counts adding up to the symbols with a breaker |
| AufbauplanView.UnnamedBoard | src/components/views/Aufbauplan.tsx:35 | a symbol without a board is drawn in the cabinet `Unbekannt` |
| StromlaufplanView.RaumName | src/components/views/Stromlaufplan.tsx:31-37 | the room's name on the first floor that has it, otherwise the raw id |
| StromlaufplanView.GetRaumName | src/components/views/Stromlaufplan.tsx:31-37 | the search loop yields `RaumName` |
| StromlaufplanView.CircuitMapNext | src/components/views/Stromlaufplan.tsx:41-58 | one more symbol is added to its circuit when it has a breaker, and skipped otherwise |
| StromlaufplanView.AddToCircuit | src/components/views/Stromlaufplan.tsx:43-57 | the circuit of the raw key is opened when new, shown on the board name or on `Unbekannt` when that is empty, then the symbol's entry is pushed |
| StromlaufplanView.SymbolEntry | src/components/views/Stromlaufplan.tsx:44-57 | the entry carries the symbol key, the catalog label (the key on a miss) and the room name |
| StromlaufplanView.Circuits | src/components/views/Stromlaufplan.tsx:39-60 | the loop and the sort yield `CircuitList` |
| StromlaufplanView.MembersIndex | src/components/views/Stromlaufplan.tsx:53-57 | one entry per symbol, in order |
| StromlaufplanView.FoldCircuit | src/components/views/Stromlaufplan.tsx:45-57 | the symbols of one raw key fold to that key's circuit with their entries in order |
| StromlaufplanView.CircuitMapFacts | src/components/views/Stromlaufplan.tsx:40-58 | distinct raw keys, each circuit holding the entries of exactly the qualifying symbols with its key in input order, every qualifying symbol's key present, and circuits in first-occurrence order |
| StromlaufplanView.CircuitEntry | src/components/views/Stromlaufplan.tsx:45-57 | a circuit entry holds exactly its key's symbols |
| StromlaufplanView.CircuitOf | src/components/views/Stromlaufplan.tsx:43-53 | a qualifying symbol's key has a circuit, and the symbol is among its members |
| StromlaufplanView.MembersPartition | src/components/views/Stromlaufplan.tsx:40-58 | the member counts add up to the number of qualifying symbols |
| StromlaufplanView.CircuitListFacts | src/components/views/Stromlaufplan.tsx:59 | sorted by board, a permutation of the unsorted circuits, stable (equal boards keep first-occurrence order), counts conserved |
| StromlaufplanView.CircuitMembers | src/components/views/Stromlaufplan.tsx:43-57 | each circuit is built from some raw key's qualifying symbols in order |
| StromlaufplanView.SymbolListed | src/components/views/Stromlaufplan.tsx:42-57 | every qualifying symbol is listed in a circuit shown on its board with its breaker and RCD |
| StromlaufplanView.UnknownBoardSplits | src/components/views/Stromlaufplan.tsx:43-47 | an empty board and the literal board `Unbekannt` with the same breaker and RCD give two distinct circuits shown alike |
| Common.SortBy | src/components/views/Bestellliste.tsx:26 | the sorted list is ordered by key and a permutation of the input |
| Common.SortByStable | src/components/views/Stromlaufplan.tsx:59 | the sort keeps the relative order of elements with equal keys |
| Common.SortBySum | src/components/views/Stueckliste.tsx:30-33 | sorting does not change a sum |
| Common.StrLeTotal | src/components/views/Bestellliste.tsx:26 | any two strings are comparable |
| Common.StrLeTransitive | src/components/views/Bestellliste.tsx:26 | the string order is transitive |
| Common.StrLeAntisymmetric | src/components/views/Bestellliste.tsx:26 | the string order is antisymmetric |
| Common.FilterSpec | src/store/useAppStore.ts:67 | a filter keeps, in order, exactly the elements that pass |
| Common.ChunksShape | src/logic/rcdGrouping.ts:51-56 | chunks are non-empty and at most n long, all but the last are full, and together they are the input |
| Grouping.KeyIndex | src/components/views/Bestellliste.tsx:14 | the position of the first entry with the key, or the length when there is none |
| Grouping.BucketsKeys | src/logic/rcdGrouping.ts:104-106 | buckets have distinct keys, and a key has a bucket exactly when some pair carries it |
| Grouping.BucketsValues | src/logic/rcdGrouping.ts:104-106 | each bucket holds exactly its key's values in order |
| Grouping.BucketsFirstOccurrence | src/logic/rcdGrouping.ts:112-115 | buckets appear in first-occurrence order of their keys |
| Grouping.AccumulateIsBuckets | src/components/views/Bestellliste.tsx:13-24 | the accumulated map has the buckets' keys in order, each folding its bucket |
| Grouping.AccumulateFacts | src/components/views/Bestellliste.tsx:13-24 | distinct keys, one per key present, each folding exactly its elements, in first-occurrence order |
| Grouping.AccumulateConserve | src/components/views/Bestellliste.tsx:14-16 | when each key's value sums its elements, the values add up to the total |

## Left out

- `deriveCircuits`, `resolveDevices`, `findDevice` and `NETZFORM_LABELS` are not part of this model. The resolver, the cabinet catalog and the network-form labels are function parameters (`Resolver`, `DeviceCatalog`, `NetzformLabels`), and the engine's input is a list of `DerivedCircuit` values.
- The types `DerivedCircuit`, `ProtectionRequirement`, `RcdGroupOverride`, `RcdGroupingOptions`, `StromkreisDevice`, `NetzKonfiguration` and `CabinetDevice` are reconstructed from the fields the core reads. Fields that the core never reads are not modelled.
- The symbol catalog (`symbolCatalog`) and the building are parameters, or fields of the store. The mock data is not modelled.
- `crypto.randomUUID` is an id source parameter (`IdSource`). The new symbol takes id 0, and its article lines take ids 1, 2, and so on.
- Composite keys joined with `'::'` or `'|'` are tuples and datatypes. When a field value contains the separator, two different tuples can render to the same joined text. The source then merges their entries and the model does not. Group ids are still rendered as text with `KeyText`.
- `localeCompare` is modelled as lexicographic code-point order (`StrLe`), a total order. Locale rules are not modelled.
- Numbers (quantities, prices in cents, currents, `maxLssPerRcd`, widths) are unbounded integers, and positions are reals. Floating-point rounding and `toFixed` price formatting are left out. `StuecklisteView.PartsListFacts` and `StuecklisteView.UnsortedTotals` hold under exact arithmetic only.
- `hasManualOverride` is a boolean; false stands for the source's absent field.
- RcdGroupingProperties.RcdGroupsSound: board isolation is proved for automatic groups only. The source never compares boards when it collects manual pins (src/logic/rcdGrouping.ts:80-92), and a manual group takes the board of its first member (src/logic/rcdGrouping.ts:38). So a manual group can hold circuits of two boards, as `RcdGroupingProperties.ManualGroupSpansBoards` shows. The doc comment of `groupBySharedRcd` (src/logic/rcdGrouping.ts:60-65) says that circuits in the same distribution board share one RCD and that the function respects manual overrides. The manual loop honours pins without comparing boards, and the model follows the code.
- `RcdGroupingProperties.RcdGroupsExactlyOnce`, `RcdGroupingProperties.PinnedInManualGroup` and `RcdGroupingProperties.PinsCount` assume distinct circuit ids and overrides that name distinct circuits. With duplicate ids, the source's index keeps the later circuit and a circuit can be grouped twice. Those cases are modelled but nothing is proved about them.
- `pushSpdDevices` mutates the caller's array. `NetzUpstream.PushSpdDevices` returns the extended sequence instead, so aliasing of that array is not modelled.
- In `splitIntoChunks`, the in-place sort of the caller's `members` array is modelled as a sort of a sequence value, so the caller does not see the reordering.
- `updateSymbol` merges a patch with `{ ...sym, ...patch }`. A patch field present with the value `undefined` overwrites in the source; in the model an absent (`None`) field keeps the old value.
- `useAllSymbols` returns the list unchanged and has no model of its own. The views take that list as their input.
- The zustand store machinery, the `persist` middleware (localStorage), React hooks and re-rendering are I/O and framework code and are not modelled.
- The React UI, drag-and-drop, canvas, SVG layout and the view's rendering of an empty list are presentation only. The "no materials" message of the order list is covered only by the lemma that the list is empty exactly when there are no material articles.
