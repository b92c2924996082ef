# Tiles admin console: offline write path, flush, lists and forms

This project models the logic of a browser admin console for a tile retailer, which
manages branches, warehouses and inventory lines over a REST back end. The model covers:

- **The inventory page's offline-tolerant write path** (`Inventory`, `Storage`). Browser
  storage is a class, `LocalStore`, with two lists: the recent `inventoryItems` and the
  pending `syncQueue`. The page's Save checks the branch and warehouse selection first.
  It then appends the item to the recent list and tries the online write. A failed write
  also appends the item to the queue. The page's own Sync Now reports the queue length
  and empties the queue without sending anything.
- **The transmitting flush of the sync utility** (`Sync`). It posts the queued items one
  by one, in queue order. The queue is removed only after every post has succeeded. A
  failing post throws out of the loop and leaves the whole queue in place.
- **The list rules** (`Catalog`, `Warehouses`, `Branches`, `Dashboard`). These are the
  case-insensitive search, the branch filter, the "first match, else a default" name
  lookups, the low-stock and warehouses-per-branch counts, and the per-branch warehouse
  drop-downs.
- **The create/edit form state machines** of the warehouse and branch pages. The guards
  run in a fixed order. A set `editingId` selects update over create. The form resets
  only when the request succeeds.

Every network request is a parameter saying how it ended: a `bool`, an `Option` holding
the fetched list, a `seq<bool>` with one outcome per post, or a `ByBranchResponse` (a
failed request, or an answer whose body is truthy or not) for the dashboard's per-branch
fetch. Each event handler is one
atomic step. The area of an inventory line is kept exactly, as an integer number of mm².
Strings are `seq<char>`. Lowercasing and trimming act on ASCII only.

Generic pieces: `Seqs` models `filter` (order-preserving, with exact membership and
multiplicities) and the search behind `find`. `Text` models `toLowerCase`, `includes`
and `trim`.

Two facts about the code that a reader might not expect:

- The page's Sync Now empties the queue without sending anything. The sync utility's
  flush keeps the whole queue when a post fails.
- The code never checks that the tile dimensions are positive (`Storage.AreaNotChecked`).

## Model

| member | source | states |
|---|---|---|
| Storage.AreaMm2 | src/pages/Inventory.jsx:51 | If all four dimensions are positive, the area is positive. If any dimension is zero, the area is zero. |
| Storage.AreaSqmFormula | src/pages/Inventory.jsx:51 | The exact integer area in mm² divided by 10⁶ equals the page's formula (w/1000)·(h/1000)·perBox·boxes, read in exact arithmetic. |
| Storage.AreaExamples | src/pages/Inventory.jsx:51 | 600×600 mm, 4 per box, 1 box gives 1.44 m². 300×300 mm, 10 per box, 2 boxes gives 1.80 m². |
| Storage.AreaNotChecked | src/pages/Inventory.jsx:54-59 | Only the selection is checked, so a negative box count yields a negative area. |
| Storage.AreaPerBox | src/pages/Inventory.jsx:51 | The area is the box count times the area of one box. |
| Storage.ItemOf | src/pages/Inventory.jsx:51-60 | The saved item is the form unchanged. Its area, read in m², is the page's formula (w/1000)·(h/1000)·perBox·boxes on the form's own dimensions. |
| Storage.LocalStore.Empty | src/pages/Inventory.jsx:23 | Storage with neither key set reads as two empty lists, since a missing key falls back to "[]". |
| Storage.LocalStore.Restore | src/pages/Inventory.jsx:23 | Storage as a previous session left it holds that session's recent list and queue unchanged. |
| Inventory.InventoryPage.Mount | src/pages/Inventory.jsx:5-24 | On mount, the page's list is the stored recent-items list and the form holds the defaults. |
| Inventory.InventoryPage.Save | src/pages/Inventory.jsx:53-81 | An empty branch or warehouse gives SelectionMissing and changes nothing: form, list, stored list and queue stay as they were. Otherwise exactly one item, the form plus its area, goes at the end of both the page list and the stored list, whatever the network does. A failed write appends that same item to the end of the queue. A successful write leaves the queue untouched. The form resets to ("", 600, 600, 4, 1, sale, "", ""). Keeps "page list = stored list" and "every queued item is in the list". |
| Inventory.InventoryPage.SyncNow | src/pages/Inventory.jsx:83-96 | On a non-empty queue, reports Synced(length). On an empty queue, reports AllSynced. Either way the queue ends empty, the recent list is unchanged, and nothing is sent (the method has no post). |
| Inventory.SyncNowTwice | src/pages/Inventory.jsx:86-91 | Sync Now is idempotent: the second press always reports AllSynced. |
| Inventory.OfflineSaveThenSync | src/pages/Inventory.jsx:53-92 | An offline save followed by Sync Now on an empty queue reports SavedOffline, then Synced(1). The queue ends empty and the item stays in the recent list. |
| Inventory.InventoryPage.ChangeBranch | src/pages/Inventory.jsx:318 | Choosing a branch sets branchId and clears warehouseId. No other form field changes. |
| Inventory.WarehouseOptions | src/pages/Inventory.jsx:335 | The options are the warehouses whose branchId is the form's branch, each with as many copies as in the list, as a sublist in list order. |
| Sync.PostEach | src/utils/sync.js:7-11 | Items are posted one at a time, in queue order, exactly as stored. With k the first failing post: if there is none, all items are posted and the outcome is AllPosted. Otherwise items 0..k are posted, none later, and the outcome is PostFailed(k). |
| Sync.SyncNow | src/utils/sync.js:3-15 | If every post succeeds, all items are posted and the queue reads back empty; an empty queue makes no posts and also ends empty. If a post fails, the whole queue is left unchanged, including the items already sent. The recent list is never touched. |
| Sync.AllPostedIffNoFailure | src/utils/sync.js:7-13 | The flush runs to completion exactly when every post succeeds. |
| Sync.RetryResends | src/utils/sync.js:7-13 | After a partial failure, the next flush posts again the first item, which was already delivered. There is no per-item acknowledgement. |
| Text.Lower | src/pages/Warehouse.jsx:231 | `toLowerCase` keeps the length and changes each character on its own: 'A'..'Z' to 'a'..'z', anything else kept. |
| Text.ContainsIffOccurs | src/pages/Warehouse.jsx:231-233 | `includes` holds exactly when the needle occurs at some position of the haystack. |
| Text.TrimSpan | src/pages/Warehouse.jsx:82 | `trim` keeps a slice `s[i..j]` of its input, and every character before `i` and from `j` on is white space. |
| Text.TrimShape | src/pages/Warehouse.jsx:82 | `trim` returns a contiguous piece of its input. Everything cut before and after it is white space, and the piece neither starts nor ends with white space. |
| Text.TrimIdempotent | src/pages/Branches.jsx:52 | Trimming twice is the same as trimming once. |
| Text.BlankIffAllSpace | src/pages/Branches.jsx:52 | A name is blank exactly when all its characters are white space. |
| Catalog.OrUndefinedOrEmpty | src/pages/Warehouse.jsx:96-98 | Loading a field with `|| ""` and sending it back with `|| undefined` returns it unchanged, except that a present-but-empty field comes back missing. |
| Catalog.SearchHitIff | src/pages/Warehouse.jsx:230-233 | The truthiness guards on address and manager do not change the result. A record matches exactly when the lowered term occurs in its lowered name, address or manager, a missing field reading as "". An empty term matches every record. |
| Catalog.BranchName | src/pages/Warehouse.jsx:224-227 | Gives the name of the first branch whose `_id` matches, or "Unknown Branch" if none matches. Dashboard.jsx:196-199 is the same function. |
| Catalog.BranchWarehouses | src/pages/Dashboard.jsx:100 | Gives the warehouses of the given branch, each with as many copies as in the list, as a sublist in list order. The result is empty exactly when no warehouse belongs to the branch; otherwise its head is the branch's first warehouse. If every warehouse belongs to that branch, the list is returned unchanged. |
| Warehouses.SaveRequest | src/pages/Warehouse.jsx:81-120 | A blank name is refused first (NameMissing), even when the branch is also missing. A non-blank name with an empty branchId is refused with BranchMissing. A request is made exactly when neither guard fires. The payload carries name and branchId; empty capacity, manager and address become absent; the status is always "active". A truthy editingId gives an update of that id; otherwise a create. |
| Warehouses.EditThenSave | src/pages/Warehouse.jsx:93-166 | Loading a warehouse and saving it unchanged is an update of that warehouse's id, carrying its own fields. A present-but-empty optional field is sent as missing. |
| Warehouses.WarehouseEditor.constructor | src/pages/Warehouse.jsx:22-30 | The page starts with the blank form and no editingId. |
| Warehouses.WarehouseEditor.SaveWarehouse | src/pages/Warehouse.jsx:81-138 | A refused save makes no request and changes no state. Otherwise the request is SaveRequest's. Success clears all five fields and sets editingId to null. Failure leaves the form and editingId as they were. |
| Warehouses.WarehouseEditor.EditWarehouse | src/pages/Warehouse.jsx:160-168 | After editWarehouse, the form is `Loaded(w)`: name and branchId, missing capacity, manager and address as "", editingId the warehouse's `_id`. Saving it unchanged is the update of `Warehouses.EditThenSave`. |
| Warehouses.WarehouseEditor.CancelEdit | src/pages/Warehouse.jsx:170-177 | cancelEdit restores the blank form with a null editingId. |
| Warehouses.FilteredWarehousesSpec | src/pages/Warehouse.jsx:229-238 | The result is an order-preserving sublist, and a kept warehouse keeps all its copies. A warehouse is kept exactly when two things hold: the lowered term occurs in its name, address or manager, and the filter is "all" or its branchId. An empty term with "all" keeps every warehouse. |
| Branches.SaveRequest | src/pages/Branches.jsx:51-84 | A request is refused exactly when the name is blank. The payload carries name, address, phone, email and manager as typed, with status "active". A truthy editingId gives an update of that id; otherwise a create. |
| Branches.EditThenSave | src/pages/Branches.jsx:59-130 | Loading a branch and saving it unchanged is an update of that branch's id, carrying its fields, with "" for missing ones. |
| Branches.BranchEditor.constructor | src/pages/Branches.jsx:5-12 | The page starts with the blank form and no editingId. |
| Branches.BranchEditor.SaveBranch | src/pages/Branches.jsx:51-102 | A blank name makes no request and changes no state. Otherwise the request is SaveRequest's. Success clears every field and sets editingId to null. Failure keeps the form. |
| Branches.BranchEditor.EditBranch | src/pages/Branches.jsx:124-132 | After editBranch, the form is `Loaded(b)`: the name, missing address, phone, email and manager as "", editingId the branch's `_id`. Saving it unchanged is the update of `Branches.EditThenSave`. |
| Branches.BranchEditor.CancelEdit | src/pages/Branches.jsx:134-141 | cancelEdit clears every field and editingId. |
| Branches.FilteredBranchesSpec | src/pages/Branches.jsx:185-189 | The result is an order-preserving sublist, and a kept branch keeps all its copies. A branch is kept exactly when the lowered term occurs in its lowered name, address or manager. An empty term keeps every branch. |
| Dashboard.LowStockCount | src/pages/Dashboard.jsx:159 | Counts the records with quantity ≤ minStockLevel. The count is at most the inventory length. It equals the length exactly when every record is low, and is zero exactly when none is. |
| Dashboard.ActiveWarehouses | src/pages/Dashboard.jsx:167 | Counts the warehouses of the given branch. The count is at most the list length. It equals the length exactly when all belong to the branch, and is zero exactly when none does. |
| Dashboard.ActiveWarehousesAppend | src/pages/Dashboard.jsx:167 | The count over two joined lists is the sum of the two counts. |
| Dashboard.LowStockCountAppend | src/pages/Dashboard.jsx:159 | The low-stock count over two joined inventories is the sum of the two counts, so the count of any list follows from the counts of its single records. |
| Dashboard.WarehouseName | src/pages/Dashboard.jsx:201-204 | Gives the name of the first warehouse whose `_id` matches, or "Select Warehouse" if none matches. |
| Dashboard.WarehouseDropdown | src/pages/Dashboard.jsx:541-542 | The drop-down lists the warehouses of the selected branch, each with as many copies as in the list, as a sublist in list order. |
| Dashboard.DashboardPage.constructor | src/pages/Dashboard.jsx:7-10 | The dashboard starts with no branches, no warehouses and nothing selected. |
| Dashboard.DashboardPage.FetchBranches | src/pages/Dashboard.jsx:52-78 | A fetch replaces the branch list; a failed one leaves it. A fetched non-empty list selects its first branch's `_id`. An empty list, or a failed request, leaves the selection unchanged. When the selection changed to a non-empty id, the per-branch fetch runs (`ByBranchEffect`); otherwise the warehouse list and selection stay. |
| Dashboard.DashboardPage.FetchAllWarehouses | src/pages/Dashboard.jsx:80-89 | A successful fetch replaces the warehouse list. A failed one leaves it as it was. |
| Dashboard.DashboardPage.FetchWarehousesByBranch | src/pages/Dashboard.jsx:91-120 | On a truthy answer, the list becomes that branch's warehouses, in order, and the selection becomes the first of them, or "". On a failure, the list is unchanged and the selection is still the first matching warehouse, or "". |
| Dashboard.DashboardPage.SelectBranch | src/pages/Dashboard.jsx:52-57 | The choice becomes the selected branch. A change to a non-empty id runs the per-branch fetch, in all three answer cases (`ByBranchEffect` on the current list). An empty choice, or the branch already selected, leaves the warehouse list and selection unchanged. |
| Dashboard.SwitchBranchAsWritten | src/pages/Dashboard.jsx:99-106 | Example of the code as written: North Store is in b1 and South Store in b2. Choosing b1, then b2, lists nothing and selects "", although South Store belongs to b2. |
| Dashboard.BranchView | src/pages/Dashboard.jsx:98-106 | The intended view lists the branch's warehouses from the full list, every copy, in order. It selects the `_id` of the branch's first warehouse in the full list, or "" when the branch has none. |
| Dashboard.IntendedDashboardPage.constructor | src/pages/Dashboard.jsx:7-10 | The intended dashboard also starts with an empty full list, nothing on screen and nothing selected. |
| Dashboard.IntendedDashboardPage.FetchAllWarehouses | src/pages/Dashboard.jsx:80-89 | The intended page stores a fetched list both as the full list and as the list on screen; a failed fetch changes neither. |
| Dashboard.IntendedDashboardPage.FetchWarehousesByBranch | src/pages/Dashboard.jsx:91-120 | The per-branch fetch with the fix: the same three answer cases, narrowing the full list. A truthy answer shows `BranchView` of the full list. The full list never changes. |
| Dashboard.IntendedDashboardPage.SelectBranch | src/pages/Dashboard.jsx:52-57 | As `DashboardPage.SelectBranch`, narrowing the full list. With a truthy answer, a page that showed its selected branch's view still does. |
| Dashboard.ChooseAnswered | src/pages/Dashboard.jsx:52-57 | One answered branch choice on the intended page: the choice becomes the selected branch and the full list is kept. When the effect fires, the screen shows `BranchView` of the choice. Otherwise (an empty choice, or the branch already selected) the list and selection on screen do not change. |
| Dashboard.ChoiceKeepsView | src/pages/Dashboard.jsx:52-57 | If the screen showed the view of the last branch chosen, one more answered choice leaves it showing the view of the new last branch chosen; an empty choice keeps the old one. |
| Dashboard.LastBranchSpec | src/pages/Dashboard.jsx:52-57 | The last branch chosen is "" exactly when every choice was empty; otherwise it is a choice after which every choice was empty. |
| Dashboard.ChooseInTurn | src/pages/Dashboard.jsx:52-120 | On an intended page showing its full list with nothing selected, any run of answered choices ends on the view of the last branch chosen, and the full list is kept. |
| Dashboard.ChooseBranchesIntended | src/pages/Dashboard.jsx:52-120 | On the intended page, after fetching the full list and then any run of answered choices, the screen shows `BranchView` of the last branch chosen (the last non-empty choice), whatever came before and whatever empty choices followed it. With no non-empty choice it shows the full list and no warehouse. |
| Dashboard.SwitchBranchIntended | src/pages/Dashboard.jsx:98-106 | On the intended page, the same two choices b1 then b2 list South Store and select "w2". |

## Findings

| source | as written | input that shows it | evidently intended | confidence | as-written member | corrected member |
|---|---|---|---|---|---|---|
| src/pages/Dashboard.jsx:99-106 | On a successful per-branch fetch, the page narrows its current `warehouses` state to the chosen branch and stores the result. The response body is ignored, and the full list is lost. | Warehouses [North Store (b1), South Store (b2)]. Choose b1, then b2, both answered. The list becomes empty and the selection "". | The comment at line 98 says to filter from all warehouses. Each branch's view should come from the full list, whatever was chosen before. | not executed; high that the second list is empty, given the sequential steps modelled | Dashboard.SwitchBranchAsWritten | Dashboard.ChooseBranchesIntended |

`Dashboard.DashboardPage` models the code as written. `Dashboard.IntendedDashboardPage`
is the corrected page: it keeps the fetched full list in a field of its own and narrows
that list. Both pages share one description of the per-branch fetch,
`Dashboard.ByBranchEffect`, which differs only in the list it filters.
`Dashboard.SwitchBranchIntended` runs the same two choices on the corrected page.

## Left out

- Requests and the back end: endpoints, bearer tokens and response bodies. Each request is a success/failure parameter; a fetched list is an `Option` parameter.
- JSON encoding in storage. A parse failure (the catch at Inventory.jsx:93-94) is not modelled. A missing key and a key holding "[]" both read as the empty list.
- Sync.SyncNow: needs one post outcome per queued item (`|posts| == |queue|`). This is a modelling device for the network, not a demand of the code.
- `toFixed(2)`: the rounded area string is not modelled; the exact mm² value is kept instead. The capacity percentage (Dashboard.jsx:495-498) and the `totalValue` sums and formatting (Dashboard.jsx:160, 170, 185) are floating point and are left out.
- `fetchSummary` (Dashboard.jsx:122-137): its answer is only stored and displayed, and its fallback (lines 131-135) is invented numbers. Mock and random data (Dashboard.jsx:164, 183-187): invented numbers, nothing to state.
- `fetchWarehouseStats`: only its two counts are modelled. Its error branch (line 182) counts by `selectedBranch` with the same `ActiveWarehouses`.
- The list fetches of the warehouse and branch pages, the refresh after a save, and `deleteWarehouse`/`deleteBranch`: each depends only on the network's answer and a confirmation dialog.
- The `loading` flags, `showNotification`, alerts, `window.confirm`, scrolling, styles and rendering: presentation. Alerts appear only as the outcome values (`SaveOutcome`, `SyncReport`, `FlushOutcome`).
- Async interleaving: double submission, overlapping fetches at mount, and React's batched or stale state updates. Each handler is one atomic step. The effect on `selectedBranch` runs at once after the change, and `fetchWarehousesByBranch` filters the list current at that moment, not the one its closure captured.
- Unicode `toLowerCase` and `trim`: the model lowercases ASCII letters only and trims ASCII white space only (space, tab, line feed, vertical tab, form feed, carriage return).
- JSON `null` fields are not represented. `Option`'s `None` models a missing (`undefined`) field only. For the low-stock test this matters: `null <= x` compares as `0 <= x`, and `null <= null` is true, while `Dashboard.LowStock` reads a missing field as "not low".
- Number inputs: `+e.target.value` may be fractional or NaN, but tile dimensions and counts are integers here. A warehouse `capacity` is a string, though the back end may send a number. A record's `name` is always present, though the code would throw on a missing one.
- App.jsx (route guard and theme), Login.jsx (token exchange) and vite.config.js (build configuration) are not part of this model.
