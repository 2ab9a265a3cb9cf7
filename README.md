# Merchandise planning: a Dafny model of the reducers and the grid logic

This project models the core of a retail merchandise-planning front end.
Users keep a list of stores and a list of SKUs in editable grids. They
enter weekly sales-unit forecasts per (store, SKU) pair. The application
derives sales dollars, gross-margin dollars and gross-margin percent from
those forecasts.

The model covers the following parts.

- **Planning reducer** (`PlanningSlice`). A class over the list of
  planning items. Each item is keyed by its (store id, SKU id) pair and
  holds a sparse map from week id to that week's figures.
  - `updatePlanningItem` finds or appends the pair's item and overwrites
    one week with freshly derived figures.
  - `deletePlanningItem` filters a pair out.
  - `setPlanningData` replaces the list.
- **Store and SKU reducers** (`StoresSlice`, `SkusSlice`). Classes over
  ordered lists with these operations:
  - append;
  - replace at the first id match;
  - filter by id;
  - wholesale replacement.
- **Planning grid** (`PlanningPage`).
  - The dense cross join of live stores and SKUs against the sparse
    planning items, built with the source's nested loops.
  - The routing of an edited cell to the planning reducer.
  - The colour band of a margin-percent cell.
  - The grouping of week columns under their months, built with the
    source's `reduce` loop.
- **Store and SKU grids** (`StoresPage`, `SkusPage`, with the shared
  `DraftRows`). A grid shows the saved records followed by the page's
  draft rows.
  - A draft is saved under a fresh id only when its name is edited to a
    non-blank value.
  - Rows are numbered (S.No) and identified (`getRowId`) across both
    lists.
  - Each page seeds sample records once.
  - The SKU page classifies window widths.

The generic modules `Seqs` and `Text` give the JavaScript array and string
operations the source relies on:

- `filter`, `findIndex`, `find`, and a `map` that replaces matching
  elements;
- `trim() !== ''`, `includes`, and `split(sep)[0]`.

## Model

| member | source | states |
|---|---|---|
| PlanningSlice.ComputeWeekData | src/redux/features/planningSlice.ts:77-89 | the week record written by an update: sales dollars are units × price, margin dollars are units × (price − cost), margin percent is (price − cost)/price × 100 when sales dollars are positive and exactly 0 otherwise (also when margin dollars are negative); the record is margin-consistent |
| PlanningSlice.MarginIsPriceOnly | src/redux/features/planningSlice.ts:78-80 | with positive sales dollars the margin percent does not depend on the number of units |
| PlanningSlice.WorkedWeeks | src/redux/features/planningSlice.ts:78-89 | 5 units at 10/4 give 50, 30, 60 %; 3 units at 0/4 give 0, −12, 0 % |
| PlanningSlice.UpsertAppendsNewPair | src/redux/features/planningSlice.ts:63-89 | when the pair has no item, exactly one item with id `storeId-skuId` and the single computed week is appended at the end |
| PlanningSlice.UpsertTouchesOneWeek | src/redux/features/planningSlice.ts:63-89 | when the pair has an item, the length is kept, every other item is unchanged, and the first item of the pair keeps its id, pair and other weeks while the one week is overwritten, not merged |
| PlanningSlice.UpsertWritesWeek | src/redux/features/planningSlice.ts:83-89 | after an update the pair's first item holds the freshly computed week under the week id |
| PlanningSlice.UpsertIdempotent | src/redux/features/planningSlice.ts:59-89 | applying the same update twice gives the same list as applying it once |
| PlanningSlice.UpsertKeepsPairsUnique | src/redux/features/planningSlice.ts:63-75 | if no two items share a (store, SKU) pair before an update, none do after |
| PlanningSlice.UpsertKeepsValid | src/redux/features/planningSlice.ts:59-89 | updates keep the invariant: unique pairs, and every week filed under its own id with consistent margins |
| PlanningSlice.DeleteKeepsValid | src/redux/features/planningSlice.ts:93-101 | deleting a pair keeps the invariant |
| PlanningSlice.PlanningState.constructor | src/redux/features/planningSlice.ts:40-42 | the state starts from the list it is given |
| PlanningSlice.PlanningState.SetPlanningData | src/redux/features/planningSlice.ts:44-45 | the list becomes exactly the payload |
| PlanningSlice.PlanningState.UpdatePlanningItem | src/redux/features/planningSlice.ts:48-89 | the in-place find-or-push and week assignment leave exactly the list `Upserted(old, p)` and keep the invariant |
| PlanningSlice.PlanningState.DeletePlanningItem | src/redux/features/planningSlice.ts:93-101 | the list becomes the old list without the pair's items and keeps the invariant |
| Seqs.RemoveByKey | src/redux/features/storesSlice.ts:68-71 | delete by id leaves no element with the key, keeps every copy of every other element, and is a no-op when the key is absent |
| Seqs.FilterCounts | src/redux/features/planningSlice.ts:98-101 | filtering keeps every copy of an accepted element and drops every copy of a rejected one |
| Seqs.FilterEmbeds | src/redux/features/planningSlice.ts:98-101 | filtering keeps relative order: kept elements sit at strictly increasing positions of the original |
| Seqs.UpdateByKey | src/redux/features/storesSlice.ts:55-60 | update by id keeps the length, replaces exactly the first element with the payload's key, and leaves the list unchanged when the key is absent |
| Seqs.FindIndex | src/redux/features/storesSlice.ts:56-58 | `findIndex` returns the first matching index, or −1 exactly when nothing matches |
| Seqs.Find | src/pages/PlanningPage.tsx:41-44 | `find` returns a matching element of the list, or nothing exactly when none matches; the element returned is the first match |
| Seqs.FindAfterFilter | src/pages/PlanningPage.tsx:41-44 | dropping elements that can never match does not change what `find` returns |
| Seqs.RemoveByKeyRemovesOne | src/pages/StoresPage.tsx:160-162 | with unique keys, filtering out a present key removes exactly one element |
| StoresSlice.UpdateStoreKeepsIdsUnique | src/redux/features/storesSlice.ts:55-60 | `updateStore` keeps store ids unique and the set of ids unchanged |
| StoresSlice.DeleteStoreKeepsIdsUnique | src/redux/features/storesSlice.ts:68-71 | `deleteStore` keeps ids unique and leaves no store with the id |
| StoresSlice.StoresState.constructor | src/redux/features/storesSlice.ts:36-40 | the state starts from the list it is given |
| StoresSlice.StoresState.SetStores | src/redux/features/storesSlice.ts:42-43 | the list becomes exactly the payload |
| StoresSlice.StoresState.AddStore | src/redux/features/storesSlice.ts:50-51 | the payload is appended as the last store and the length grows by one |
| StoresSlice.StoresState.UpdateStore | src/redux/features/storesSlice.ts:55-60 | the in-place index assignment leaves exactly `UpdateByKey(old, id, payload)` |
| StoresSlice.StoresState.DeleteStore | src/redux/features/storesSlice.ts:68-71 | the list becomes `RemoveByKey(old, id)` |
| SkusSlice.UpdateSkuKeepsIdsUnique | src/redux/features/skusSlice.ts:56-63 | `updateSKU` keeps SKU ids unique and the set of ids unchanged |
| SkusSlice.DeleteSkuKeepsIdsUnique | src/redux/features/skusSlice.ts:65-66 | `deleteSKU` keeps ids unique and leaves no SKU with the id |
| SkusSlice.SkusState.constructor | src/redux/features/skusSlice.ts:44-46 | the state starts from the list it is given |
| SkusSlice.SkusState.SetSkus | src/redux/features/skusSlice.ts:48-49 | the list becomes exactly the payload |
| SkusSlice.SkusState.AddSku | src/redux/features/skusSlice.ts:52-53 | the payload is appended last and the length grows by one |
| SkusSlice.SkusState.UpdateSku | src/redux/features/skusSlice.ts:56-63 | the in-place index assignment leaves exactly `UpdateByKey(old, id, payload)` |
| SkusSlice.SkusState.DeleteSku | src/redux/features/skusSlice.ts:65-66 | the list becomes `RemoveByKey(old, id)` |
| PlanningPage.BuildRowData | src/pages/PlanningPage.tsx:37-75 | the nested loops produce exactly the cross join: stores outer, SKUs inner |
| PlanningPage.BuildRow | src/pages/PlanningPage.tsx:41-71 | the row loop yields the row of the pair: id `store.id-sku.id`, live names, price and cost, and the week cells |
| PlanningPage.CrossJoinSize | src/pages/PlanningPage.tsx:39-73 | the grid has exactly \|stores\| × \|skus\| rows |
| PlanningPage.CrossJoinAt | src/pages/PlanningPage.tsx:39-54 | row `i` × (number of SKUs) + `j` of the grid is the row of store `i` and SKU `j` |
| PlanningPage.StoreRowsAt | src/pages/PlanningPage.tsx:40-72 | one store contributes one row per SKU, in SKU order |
| PlanningPage.WeekCellsAt | src/pages/PlanningPage.tsx:57-68 | for every calendar week and metric, the row key `week_metric` holds the stored figure of the pair's first item, or 0 |
| PlanningPage.WeekCellsKeys | src/pages/PlanningPage.tsx:57-68 | a row has no week keys other than the column ids of the calendar weeks |
| PlanningPage.ColumnIdInjective | src/pages/PlanningPage.tsx:65-68 | distinct (week, metric) pairs give distinct row keys |
| PlanningPage.CrossJoinRowsAreLive | src/pages/PlanningPage.tsx:39-54 | every row belongs to a live store and a live SKU |
| PlanningPage.DeletedSkuLeavesGrid | src/pages/PlanningPage.tsx:39-54 | after `deleteSKU` no row of that SKU remains, even though its planning items are not deleted |
| PlanningPage.DeletedStoreLeavesGrid | src/pages/PlanningPage.tsx:39-54 | after `deleteStore` no row of that store remains |
| PlanningPage.CrossJoinPointwise | src/pages/PlanningPage.tsx:39-73 | two planning lists that give every live pair the same row give the same grid |
| PlanningPage.OrphansAreInvisible | src/pages/PlanningPage.tsx:39-44 | planning items of a deleted store or SKU do not affect the grid |
| PlanningPage.UpsertShowsInGrid | src/pages/PlanningPage.tsx:41-68 | after an update, the pair's row shows the freshly computed figures under the week's four keys |
| PlanningPage.OnCellValueChanged | src/pages/PlanningPage.tsx:77-98 | an edit is routed exactly when a number was entered and the column id contains `_salesUnits`; a routed edit carries that number, the row's store, SKU, price and cost, and the week id is the column id up to its first `_` |
| PlanningPage.SuffixRoutes | src/pages/PlanningPage.tsx:82 | of the four column suffixes only the units suffix contains `_salesUnits` |
| PlanningPage.RoutingByColumn | src/pages/PlanningPage.tsx:78-96 | on the grid's column ids an edit is dispatched exactly when it is a number in a units column, and it then updates that column's week |
| PlanningPage.CellValueChanged | src/pages/PlanningPage.tsx:77-98 | a routed edit applies `updatePlanningItem`, and any other edit leaves the planning list alone |
| PlanningPage.UnitsEditShowsInGrid | src/pages/PlanningPage.tsx:77-96 | entering `v` units in a row's units cell makes the row show `v`, `v × price` and `v × (price − cost)` for that week at the SKU's live price |
| PlanningPage.GmPercentBand | src/pages/PlanningPage.tsx:100-108 | banding is total: ≥ 40 green, [10, 40) yellow, (5, 10) orange, ≤ 5 red |
| PlanningPage.GmPercentCellStyle | src/pages/PlanningPage.tsx:100-109 | each margin range gets its own colours (via `BandStyle` of its band): ≥ 40 green on white text, [10, 40) yellow on black, (5, 10) orange on black, ≤ 5 red on white |
| PlanningPage.BandMonotone | src/pages/PlanningPage.tsx:100-108 | a higher margin never gets a lower band |
| PlanningPage.BandIgnoresUnits | src/pages/PlanningPage.tsx:100-108 | with positive sales dollars, the colour of a week depends only on price and cost |
| PlanningPage.WeekColumns | src/pages/PlanningPage.tsx:134-174 | four columns per week, in the order units, dollars, GM dollars, GM percent, each keyed by its own column id; the units column is editable and the other three are not; only the GM percent column is banded |
| PlanningPage.MonthGroups | src/pages/PlanningPage.tsx:129-199 | one group per distinct month label, headed by that label |
| PlanningPage.MonthLabelsDistinct | src/pages/PlanningPage.tsx:131-133 | no month has two groups |
| PlanningPage.MonthLabelsCover | src/pages/PlanningPage.tsx:129-199 | a month has a group exactly when some week carries its label |
| PlanningPage.MonthLabelsInFirstAppearanceOrder | src/pages/PlanningPage.tsx:176-194 | months are ordered by their first week in the calendar |
| PlanningPage.MonthLabelsSnoc | src/pages/PlanningPage.tsx:176-194 | one more week adds its month label at the end unless already seen |
| PlanningPage.MonthChildrenSnoc | src/pages/PlanningPage.tsx:176-181 | one more week appends its group to its own month's children only |
| PlanningPage.MonthGroupsSnocSeen | src/pages/PlanningPage.tsx:176-181 | a week of a seen month is appended to that month's children |
| PlanningPage.MonthGroupsSnocNew | src/pages/PlanningPage.tsx:182-194 | a week of a new month opens a group at the end |
| PlanningPage.BuildMonthGroups | src/pages/PlanningPage.tsx:129-199 | the `reduce` loop produces exactly the declarative month groups |
| PlanningPage.WeeksInTheirMonth | src/pages/PlanningPage.tsx:129-199 | every week sits in its own month's group, and a month's group holds only weeks of that month |
| PlanningPage.EditableColumnsAreUnits | src/pages/PlanningPage.tsx:134-142 | every editable column of the layout is the units column of a calendar week |
| PlanningPage.UnitsColumnsAreEditable | src/pages/PlanningPage.tsx:129-142 | conversely, every calendar week's units column appears, under the week's label in its month's group, and is editable |
| PlanningPage.PinnedColumnsReadOnly | src/pages/PlanningPage.tsx:113-128 | the two pinned columns show the store name and the SKU name, are read-only, and no week column id coincides with them |
| Text.TrimEmptyIffBlank | src/pages/StoresPage.tsx:152 | `trim() === ''` holds exactly for strings made only of whitespace |
| Text.BeforeFirst | src/pages/PlanningPage.tsx:83 | `split('_')[0]` is the longest prefix without `_` |
| Text.BeforeFirstOfJoin | src/pages/PlanningPage.tsx:83 | splitting `week + "_..."` with `_`-free `week` gives back `week` |
| Text.IncludesSkipsPrefix | src/pages/PlanningPage.tsx:82 | an occurrence of a string starting with a character absent from the prefix lies in the suffix |
| DraftRows.AllRows | src/pages/StoresPage.tsx:111 | the grid shows the saved records, then the drafts |
| DraftRows.RowIdsUnique | src/pages/StoresPage.tsx:293-299 | in a well-formed grid the row ids are unique |
| DraftRows.SerialNumberIsPosition | src/pages/StoresPage.tsx:107-123 | in a well-formed grid the S.No of row `k` is `k + 1` |
| DraftRows.SerialNumberOfMissingRow | src/pages/StoresPage.tsx:107-123 | the S.No is 0 exactly for a row not in the grid |
| DraftRows.AddDraftKeepsWellFormed | src/pages/StoresPage.tsx:34-41 | a draft with a fresh temporary id goes last and keeps the grid well formed |
| DraftRows.DeleteRowRemovesIt | src/pages/StoresPage.tsx:44-55 | delete routes by kind and removes that row and only it, leaves the other list alone and keeps the grid well formed |
| DraftRows.DeleteIsFilter | src/pages/StoresPage.tsx:44-55 | either delete leaves exactly the displayed rows the S.No lookup does not match, in order and with every copy |
| DraftRows.DeleteSavedRow | src/pages/StoresPage.tsx:46-47 | deleting a saved row removes it and keeps every other row, every copy of it, in display order: the displayed rows become the filter of the old ones |
| DraftRows.DeleteDraftRow | src/pages/StoresPage.tsx:48-51 | deleting a draft removes it and keeps every other row, every copy of it, in display order: the displayed rows become the filter of the old ones |
| DraftRows.EditSavedKeepsWellFormed | src/pages/StoresPage.tsx:141-146 | editing a saved row keeps the grid well formed and the drafts as they were |
| DraftRows.EditDraftKeepsWellFormed | src/pages/StoresPage.tsx:163-168 | editing a draft in place keeps the grid well formed and the saved list as it was |
| DraftRows.PromoteKeepsWellFormed | src/pages/StoresPage.tsx:152-162 | saving a draft under a fresh id keeps the grid well formed |
| DraftRows.PromoteMovesRow | src/pages/StoresPage.tsx:152-162 | a saved draft leaves the drafts, becomes the last saved row (S.No one past the old saved rows), and the row count is unchanged |
| StoresPage.NonBlankNameSavesDraft | src/pages/StoresPage.tsx:147-162 | a draft renamed to a non-blank name is saved with the fresh id, the name and the draft's city and state, and the draft disappears |
| StoresPage.BlankNameKeepsDraft | src/pages/StoresPage.tsx:163-168 | a draft renamed to a blank name stays a draft, with only its name updated by temporary id |
| StoresPage.AddressEditKeepsDraft | src/pages/StoresPage.tsx:193-235 | city and state edits never save a draft, and only that field of the matching draft changes |
| StoresPage.SavedEditChangesOneField | src/pages/StoresPage.tsx:141-225 | editing a saved store's name, city or state dispatches `updateStore` with that one field replaced |
| StoresPage.TransitionsKeepWellFormed | src/pages/StoresPage.tsx:34-238 | add, delete and every edit keep the grid well formed, given fresh ids |
| StoresPage.SampleStores | src/pages/StoresPage.tsx:248-279 | the five sample stores take the five minted ids |
| StoresPage.SeedingHappensOnce | src/pages/StoresPage.tsx:244-283 | seeding happens only without the flag and with no stores; with the flag set nothing changes; a second seeding changes nothing |
| StoresPage.SeedingIsWellFormed | src/pages/StoresPage.tsx:248-279 | five distinct ids give a well-formed grid of five stores |
| StoresPage.StoresPageState.constructor | src/pages/StoresPage.tsx:31 | a mounted page starts with no drafts |
| StoresPage.StoresPageState.HandleAddStore | src/pages/StoresPage.tsx:34-42 | appends a draft with the fresh temporary id and empty name, city and state |
| StoresPage.StoresPageState.HandleDelete | src/pages/StoresPage.tsx:44-55 | a saved row goes to `deleteStore`, a draft is filtered out by temporary id |
| StoresPage.StoresPageState.SaveOrKeepDraft | src/pages/StoresPage.tsx:152-168 | either `addStore` plus the draft filtered out, or the draft replaced by temporary id |
| StoresPage.StoresPageState.SetName | src/pages/StoresPage.tsx:133-172 | the name setter leaves the grid `EditName(old, row, value, freshId)` |
| StoresPage.StoresPageState.SetCity | src/pages/StoresPage.tsx:179-205 | the city setter leaves the grid `EditCity(old, row, value)` |
| StoresPage.StoresPageState.SetState | src/pages/StoresPage.tsx:212-238 | the state setter leaves the grid `EditState(old, row, value)` |
| StoresPage.StoresPageState.SeedStores | src/pages/StoresPage.tsx:244-283 | sets the sample stores and raises the flag exactly when seeding applies |
| SkusPage.DraftSavedIffNamed | src/pages/SKUsPage.tsx:136-146 | a draft is saved exactly when its name is edited to a non-blank value, with the fresh id and the draft's price and cost, and the draft disappears |
| SkusPage.UnsavedEditReplacesDraft | src/pages/SKUsPage.tsx:147-152 | price, cost and blank-name edits keep the draft, replace only the matching draft and leave saved SKUs alone |
| SkusPage.SavedEditChangesOneField | src/pages/SKUsPage.tsx:129-135 | editing a saved SKU dispatches `updateSKU` with only the edited field replaced |
| SkusPage.TransitionsKeepWellFormed | src/pages/SKUsPage.tsx:105-157 | add, delete and every edit keep the grid well formed, given fresh ids |
| SkusPage.SampleSkus | src/pages/SKUsPage.tsx:62-81 | the three sample SKUs take the three minted ids |
| SkusPage.SeedingHappensOnce | src/pages/SKUsPage.tsx:58-85 | seeding happens only without the flag and with no SKUs, and then sets the flag; with the flag set nothing changes; a second seeding changes nothing; every sample sells above cost |
| SkusPage.GetResponsiveSize | src/pages/SKUsPage.tsx:51-55 | below 640 small, in [640, 768) medium, otherwise large |
| SkusPage.ResponsiveSizeMonotone | src/pages/SKUsPage.tsx:51-55 | a wider window never gets a smaller class |
| SkusPage.SkusPageState.constructor | src/pages/SKUsPage.tsx:38 | a mounted page starts with the drafts it restored |
| SkusPage.SkusPageState.HandleAddSku | src/pages/SKUsPage.tsx:105-113 | appends a draft with the fresh temporary id, an empty name, and price and cost 0 |
| SkusPage.SkusPageState.HandleDelete | src/pages/SKUsPage.tsx:115-125 | a saved row goes to `deleteSKU`, a draft is filtered out by temporary id |
| SkusPage.SkusPageState.ValueSetter | src/pages/SKUsPage.tsx:127-157 | the shared setter leaves the grid `EditSku(old, row, edit, freshId)` |
| SkusPage.SkusPageState.SeedSkus | src/pages/SKUsPage.tsx:58-85 | sets the sample SKUs and raises the flag exactly when seeding applies |

## Left out

- Browser storage and JSON are I/O and are not modelled:
  - the `loadState` / `loadInitialState` readers;
  - every `localStorage.setItem` call;
  - the temp-SKU persistence effects (src/pages/SKUsPage.tsx:88-103).

  The class constructors take the loaded lists (and, for the SKU page, the restored drafts) as parameters. The seeding flags are booleans.
- `uuidv4` becomes a caller-supplied id. Lemmas assume it is fresh (`DraftRows.Fresh`). The page methods do not require freshness, just as the source does not check it.
- Money and units are exact `real`s. IEEE-754 rounding and the `toFixed(2)` value formatters are not modelled.
- PlanningPage.OnCellValueChanged: `Number(...)` and `isNaN` coercion is not modelled. A numeric edit is `Some(v)` and a non-numeric one is `None`, so `Number('') = 0` is not represented.
- PlanningPage.OnCellValueChanged: the `!params.data || !params.column` guard is not modelled. The row and the column id are always given.
- PlanningPage.RoutingByColumn, PlanningPage.UnitsEditShowsInGrid: the week id must be free of `_`. `split('_')[0]` would cut a week id that contains `_`.
- PlanningPage.Row: the JavaScript row is one object holding the fixed fields and the dynamic `week_metric` keys. The model keeps the dynamic keys in a separate map, so a week id whose column id collides with a fixed field name is not represented.
- PlanningPage.GmPercentBand: the input is a real. `Number(params.value)` of a non-numeric value (NaN, which the source bands red) is not modelled.
- PlanningPage.BuildMonthGroups: works on values. The aliasing of `monthGroup` with the element of `acc` that is mutated in place is not modelled; the resulting list is the same.
- SkusPage.EditSku: every column holds a typed value. Price and cost are reals, and `price || 0` / `cost || 0` is the identity on them. A string written into a numeric column by the cell editor is not represented.
- The `!params.data` guards and the boolean results of the value setters are not modelled.
- React state batching, hooks, ag-grid column widths, CSS classes, the resize listener and `getResponsiveColumnSizes` are UI plumbing.
- The `valueSetter` at src/pages/StoresPage.tsx:57-78 is never attached to a column, so it is not modelled.
- The calendar slice is not part of this model. Weeks are a given sequence of `CalendarWeek` records.
- src/pages/ChartPage.tsx, src/components/Sidebar.tsx, src/App.tsx and src/redux/store.ts are outside the modelled core.
- StoresPage.SampleStores, SkusPage.SampleSkus: the model takes the minted ids as a list of exactly five (three) ids. The source calls `uuidv4` that many times.
