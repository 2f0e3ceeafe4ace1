# Primitive Map: facet filter and selection state

A Dafny model of the interactive part of the Primitive Map page. The page
shows a fixed catalog of 37 "coordination primitives" in eight layer groups
and lets the reader narrow it with three facets: pillar, layer and maturity.

The model has five modules:

- `Seqs`: the JavaScript array operations the code relies on (`filter`, as
  `Filter`), with order-preserving subsequences (`SubseqOf`) and
  duplicate-free lists (`NoDup`), and the lemmas about them.
- `Catalog` (src/data/primitives.ts): the `Pillar`, `Layer` and `Maturity`
  enumerations, the `Primitive` and `LayerGroup` records, the literal
  `LAYERS` constant with all 37 primitives, `ALL_PRIMITIVES` (the
  `flatMap`) and `SUMMARY_STATS`, with the facts the data is meant to obey.
- `PrimitivesPage` (src/app/page.tsx): `toggleItem`, the per-primitive
  test and group projection of `filteredLayers`, `totalVisible`, the
  catalog total, the "no match" branch, and the three pieces of selection
  state with their `on*Toggle` / `onClear` handlers as the class
  `FilterState`.
- `FilterControls` (src/components/primitives/FilterControls.tsx): the
  three option lists, `hasFilters`, the chips with their `active` flag
  and click handler, and the "Clear filters" button with its handler.
- `Scenarios`: concrete filter results computed on the literal catalog.

The filter is a pure function of the three selections. The selection state
is a class whose methods overwrite its `seq` fields, as the page's three
`useState` slots are overwritten by the handlers. Each handler's contract
ties the new state to the pure functions, and it keeps a no-duplicates
invariant (`Valid`).

## Model

| member | source | states |
|---|---|---|
| Catalog.Flatten | src/data/primitives.ts:932-934 | A primitive is in the flattened list iff some group holds it. |
| Catalog.AllPrimitivesInGroupOrder | src/data/primitives.ts:932-934 | `ALL_PRIMITIVES` is the eight groups' lists concatenated in `LAYERS` order. |
| Catalog.CatalogSize | src/data/primitives.ts:54-940 | There are 8 groups, of sizes 4, 4, 4, 6, 5, 5, 5, 4, so 37 primitives in all, which equals `SUMMARY_STATS.totalPrimitives`. |
| Catalog.GroupWellFormed | src/data/primitives.ts:54-926 | In group k, each primitive repeats the group's layer and label, has non-empty duplicate-free pillars, and has a name of its own within the group. |
| Catalog.GroupFieldsAgree | src/data/primitives.ts:877-926 | Every primitive's `layer` and `layerLabel` equal the layer and label of the group that holds it. |
| Catalog.LayersInDeclarationOrder | src/data/primitives.ts:877-938 | The group at index i has the i-th layer, every layer has its group, and the group count equals `SUMMARY_STATS.totalLayers`. |
| Catalog.PillarsWellFormed | src/data/primitives.ts:29-41 | Every catalog primitive has a non-empty pillars list without duplicates. |
| Catalog.FlattenDistinctNames | src/data/primitives.ts:932-934 | When each group's names are distinct and no two groups share a name, the flattened list has distinct names. |
| Catalog.NamesUnique | src/data/primitives.ts:54-871 | No two positions of `ALL_PRIMITIVES` hold the same name. |
| PrimitivesPage.ToggleItem | src/app/page.tsx:9-11 | The toggled item ends up present iff it was absent. A present item is removed everywhere, and the other elements keep their order and counts. An absent item is appended at the end. |
| PrimitivesPage.ToggleTwiceAbsent | src/app/page.tsx:9-11 | Toggling an absent item twice gives back exactly the original list. |
| PrimitivesPage.ToggleTwicePresent | src/app/page.tsx:9-11 | Toggling a present item twice gives the same members, with that item last. |
| PrimitivesPage.ToggleKeepsNoDup | src/app/page.tsx:9-11 | Toggling keeps a duplicate-free list duplicate-free. |
| PrimitivesPage.ToggleFlipsOnly | src/app/page.tsx:9-11 | Toggling flips the membership of the toggled item and of no other value. |
| PrimitivesPage.AcceptsIff | src/app/page.tsx:20-34 | A primitive passes the filter iff all three clauses hold: the pillar selection is empty or shares a pillar with it, the layer selection is empty or holds its layer, and the maturity selection is empty or holds its maturity. |
| PrimitivesPage.Narrow | src/app/page.tsx:19-35 | A narrowed group keeps its layer, label and subtitle. Its primitives are an order-preserving subsequence of the original, and exactly the accepted ones. |
| PrimitivesPage.NarrowCounts | src/app/page.tsx:19-35 | Narrowing keeps each accepted primitive as many times as the group holds it, and drops every other one. |
| PrimitivesPage.UnselectedLayerEmpty | src/app/page.tsx:26-27 | When some layer is selected, a group whose layer is not selected narrows to nothing. |
| PrimitivesPage.NarrowAll | src/app/page.tsx:19-35 | The `map` step narrows every group and keeps the positions. |
| PrimitivesPage.FilterLayers | src/app/page.tsx:18-37 | The output is an order-preserving subsequence of the narrowed groups, holds no empty group, and holds every narrowed group that is not empty. |
| PrimitivesPage.NarrowEmptyIff | src/app/page.tsx:20-36 | A narrowed group is empty iff the selection accepts none of its primitives. |
| PrimitivesPage.SumLengths | src/app/page.tsx:39-42 | The `reduce` sum of the group lengths equals the length of the flattened groups. |
| PrimitivesPage.FlattenFilterLayers | src/app/page.tsx:18-37 | Filtering groups and then flattening gives the accepted primitives of the flattened catalog, in catalog order. |
| PrimitivesPage.FlattenConcat | src/app/page.tsx:18-37 | Flattening distributes over concatenation of group lists. |
| PrimitivesPage.FilterSoundAndComplete | src/app/page.tsx:20-34 | For any group list, a primitive is shown iff it is in a group and all three clauses hold: empty pillar selection or a shared pillar, empty layer selection or its layer selected, empty maturity selection or its maturity selected. |
| PrimitivesPage.CatalogFilterSoundAndComplete | src/app/page.tsx:18-37 | The same for the catalog: a primitive is shown iff it is in `ALL_PRIMITIVES` and the three facet clauses hold. |
| PrimitivesPage.GroupDroppedIff | src/app/page.tsx:35-36 | Every shown group is some input group narrowed, and a narrowed group is shown iff at least one of its primitives is accepted. |
| PrimitivesPage.NoSelectionKeepsAll | src/app/page.tsx:18-37 | With all three selections empty, a list of non-empty groups passes through unchanged. |
| PrimitivesPage.NoSelectionShowsCatalog | src/app/page.tsx:14-37 | The initial (and cleared) state shows `LAYERS` exactly. |
| PrimitivesPage.SameMembersSameFilter | src/app/page.tsx:20-34 | Two selections with the same members in every facet give the same output, so the order of the selection lists is irrelevant. |
| PrimitivesPage.ToggleTwiceSameView | src/app/page.tsx:73-82 | For any list of groups, invoking the same pillar, layer or maturity toggle handler twice leaves the filtered output unchanged. |
| PrimitivesPage.ShownInLayerOrder | src/app/page.tsx:19-36 | The shown groups' layers strictly increase, from Foundation to Agents. |
| PrimitivesPage.ShownLayerHasAccepted | src/app/page.tsx:19-36 | A shown group holds an accepted primitive of its own layer. |
| PrimitivesPage.AcceptedLayerIsShown | src/app/page.tsx:19-36 | An accepted primitive's layer has a shown group. |
| PrimitivesPage.LayerShownIff | src/app/page.tsx:18-37 | A layer's group is shown iff some catalog primitive of that layer is accepted. |
| PrimitivesPage.TotalVisible | src/app/page.tsx:39-42 | `totalVisible` is the number of primitives in the shown groups taken together. |
| PrimitivesPage.CatalogTotal | src/app/page.tsx:109 | The "of N primitives" figure is the size of `ALL_PRIMITIVES`, which equals `SUMMARY_STATS.totalPrimitives`. |
| PrimitivesPage.PageBody | src/app/page.tsx:94-106 | The body lists sections only for the shown groups, and shows the "No primitives match the current filters." message iff the visible count is 0. |
| PrimitivesPage.Apply | src/app/page.tsx:73-82 | A toggle handler flips the membership of its value in its own facet and of nothing else, leaving the other two facets unchanged; the clear handler empties all three. |
| PrimitivesPage.TotalVisibleCounts | src/app/page.tsx:39-109 | The visible count equals the number of accepted catalog primitives and is at most the catalog total of 37. |
| PrimitivesPage.NoMatchIffNothingAccepted | src/app/page.tsx:94-106 | The "No primitives match" branch is taken iff the visible count is 0, iff no catalog primitive is accepted. |
| PrimitivesPage.FilterState.constructor | src/app/page.tsx:14-16 | The state starts with three empty selections and shows the whole catalog. |
| PrimitivesPage.FilterState.OnPillarToggle | src/app/page.tsx:73 | The pillar selection becomes its toggle by the given pillar, the other two are unchanged, and no duplicates appear. |
| PrimitivesPage.FilterState.OnLayerToggle | src/app/page.tsx:74 | The layer selection becomes its toggle by the given layer, the other two are unchanged, and no duplicates appear. |
| PrimitivesPage.FilterState.OnMaturityToggle | src/app/page.tsx:75-77 | The maturity selection becomes its toggle by the given maturity, the other two are unchanged, and no duplicates appear. |
| PrimitivesPage.FilterState.OnClear | src/app/page.tsx:78-82 | All three selections become empty. |
| PrimitivesPage.FilterState.Dispatch | src/app/page.tsx:69-83 | Invoking any handler moves the state to `Apply` of the old selection and keeps the invariant. |
| FilterControls.Render | src/components/primitives/FilterControls.tsx:71-115 | There is one chip per option of each facet, carrying that option's value, in option order. |
| FilterControls.PillarsListedOnce | src/components/primitives/FilterControls.tsx:5 | `PILLARS` lists every pillar, each once. |
| FilterControls.LayerOptionsMatchGroups | src/components/primitives/FilterControls.tsx:6-15 | `LAYER_OPTIONS` lists every layer once, and position i is the layer of the i-th `LAYERS` group. |
| FilterControls.MaturitiesListedOnce | src/components/primitives/FilterControls.tsx:16-22 | `MATURITY_OPTIONS` lists every maturity, each once. |
| FilterControls.HasFilters | src/components/primitives/FilterControls.tsx:66-69 | `hasFilters` holds iff the selection differs from the initial, cleared one. |
| FilterControls.NoFiltersIffCleared | src/components/primitives/FilterControls.tsx:66-69 | `hasFilters` is false iff all three selections are empty, and then the whole catalog is shown. |
| FilterControls.ChipsFollowSelection | src/components/primitives/FilterControls.tsx:75-104 | A chip is active iff its value is in its own facet's selection, and its click invokes that facet's toggle with that value. |
| FilterControls.HighlightedChipsAreSelection | src/components/primitives/FilterControls.tsx:75-104 | For a duplicate-free selection (the invariant `FilterState.Valid` keeps), the values of the highlighted chips of each facet are that facet's selection, each exactly once. |
| FilterControls.ClearOfferedIffSomeChipActive | src/components/primitives/FilterControls.tsx:66-113 | "Clear filters" is offered iff at least one chip is active, and its click invokes the clear handler. |
| FilterControls.ClearResetsControls | src/components/primitives/FilterControls.tsx:106-113 | Clicking "Clear filters" turns every chip off, hides the button and shows the whole catalog again. |
| FilterControls.ClearedControls | src/components/primitives/FilterControls.tsx:66-113 | In the initial and cleared state no chip is highlighted, there is no clear button, and the whole catalog is shown. |
| FilterControls.ClickFlipsOwnChipOnly | src/components/primitives/FilterControls.tsx:75-104 | Clicking a chip flips its own active flag and no other chip's, across all three facets. |
| Scenarios.MoneyOnlyAccepts | src/app/page.tsx:21-25 | With only Money selected, a primitive is accepted iff it carries Money. |
| Scenarios.MoneyCarriers | src/data/primitives.ts:54-871 | The primitives carrying Money are, in order: Offer / Bid, Transaction, Smart Contract, Token, Stream, Escrow, DeFi (Liquidity), Risk, Prediction Market, Task. |
| Scenarios.MoneyOnlyShowsMoneyCarriers | src/app/page.tsx:18-42 | Selecting only Money shows exactly those ten, so the visible count is 10. |
| Scenarios.TrustExperimentalInTrust | src/data/primitives.ts:442-553 | Within the Trust group, the Experimental ones are the first three. |
| Scenarios.OthersEmptyUnderTrust | src/app/page.tsx:26-27 | Whatever pillars and maturities are selected, selecting layer Trust alone empties every group but Trust's. |
| Scenarios.TrustExperimentalShowsThree | src/app/page.tsx:18-36 | Layer Trust with maturity Experimental shows only the "L5 — Trust" group, holding Reputation, Endorsement and Vouch. |
| Scenarios.TrustExperimentalCount | src/app/page.tsx:39-42 | Under layer Trust and maturity Experimental the visible count is 3. |
| Scenarios.NothingEstablished | src/data/primitives.ts:54-871 | No catalog primitive has maturity Established. |
| Scenarios.EstablishedMatchesNothing | src/app/page.tsx:94-106 | Maturity Established shows no group, so the "no match" message appears and the visible count is 0. |

## Left out

- React plumbing (`useState`, `useMemo`) is not modelled as such. The three state slots are the fields of `FilterState`, and the memoised filter is the plain function `FilterLayers` of the selections, since the cache has no observable effect.
- The rendering of rows, sections and the header (PrimitiveRow.tsx, LayerSection.tsx, SummaryStats.tsx, the table header and hero text, CSS classes) is presentation only and is not modelled.
- The descriptive fields `definition`, `legacyEquivalent`, `formationRate`, `tamUnlocked`, `instantiations` and `composesWith` are omitted from `Primitive`, since no logic reads them.
- `SUMMARY_STATS.avgFormationRate` and `totalTAM` are kept as the literal strings the source writes. They are not computed from the per-primitive strings, just as the source does not compute them.
- The names in `composesWith` are not checked against the catalog, because the source never resolves them and some of them match no primitive name.
- `LayerGroup.label` is called `heading` in the model, because `label` is a reserved word of Dafny.
- The chip `label` prop is not a separate field, because the source passes the option value itself as the label.
- `SumLengths`: the source's `reduce` is a left fold, while the model sums from the right. The two give the same natural-number sum.
- There is no I/O, clock, network or concurrency in the core. Clicks are modelled as the `Callback` values the chips hand to the handlers.
