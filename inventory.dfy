/** The inventory page: the form, the recent-items list, the offline-tolerant save
    and the local "Sync Now" button. */
module Inventory {
  import opened Seqs
  import opened Catalog
  import opened Storage

  /** What the user is told after pressing Save. */
  datatype SaveOutcome = SelectionMissing | SavedOnline | SavedOffline

  /** What the user is told after pressing Sync Now. */
  datatype SyncReport = AllSynced | Synced(count: nat)

  /** The warehouse drop-down: the warehouses of the form's branch, in list order. */
  function WarehouseOptions(ws: seq<Warehouse>, f: InventoryForm): (r: seq<Warehouse>)
    ensures forall w :: w in r <==> w in ws && w.branchId == f.branchId
    ensures forall w :: multiset(r)[w] == if w.branchId == f.branchId then multiset(ws)[w] else 0
    ensures IsSubseq(r, ws)
  {
    BranchWarehouses(ws, f.branchId)
  }

  class InventoryPage {
    var form: InventoryForm
    /** The page's copy of the recent-items list. */
    var items: seq<Item>
    const store: LocalStore

    /** Mounting the page loads the recent items from storage; the form starts at its defaults. */
    constructor Mount(store: LocalStore)
      ensures this.store == store
      ensures form == DefaultForm && items == store.inventoryItems
      ensures Valid()
    {
      this.store := store;
      form := DefaultForm;
      items := store.inventoryItems;
    }

    /** The page's list and the stored list agree. */
    ghost predicate Valid()
      reads this, store
    {
      items == store.inventoryItems
    }

    /** Every item waiting in the queue is also in the recent-items list. */
    ghost predicate QueueCovered()
      reads this, store
    {
      forall x :: x in store.syncQueue ==> x in items
    }

    /** Save: a missing branch or warehouse stops everything; otherwise the item
        is appended to the recent list, the online write is tried (`online` is its
        outcome), a failed write appends the item to the queue, and the form resets. */
    method Save(online: bool) returns (r: SaveOutcome)
      modifies this, store
      ensures old(form.branchId) == "" || old(form.warehouseId) == "" ==>
        && r == SelectionMissing
        && form == old(form) && items == old(items)
        && store.inventoryItems == old(store.inventoryItems)
        && store.syncQueue == old(store.syncQueue)
      ensures old(form.branchId) != "" && old(form.warehouseId) != "" ==>
        var it := ItemOf(old(form));
        && items == old(items) + [it]
        && store.inventoryItems == items
        && store.syncQueue == (if online then old(store.syncQueue) else old(store.syncQueue) + [it])
        && form == DefaultForm
        && r == (if online then SavedOnline else SavedOffline)
      ensures old(Valid()) ==> Valid()
      ensures old(QueueCovered()) ==> QueueCovered()
    {
      if form.branchId == "" || form.warehouseId == "" {
        return SelectionMissing;
      }
      var itemToSave := ItemOf(form);
      var updatedItems := items + [itemToSave];
      items := updatedItems;
      store.inventoryItems := updatedItems;
      if online {
        r := SavedOnline;
      } else {
        var queue := store.syncQueue;
        queue := queue + [itemToSave];
        store.syncQueue := queue;
        r := SavedOffline;
      }
      form := DefaultForm;
    }

    /** The page's own Sync Now: it reports the queue length and empties the queue
        without sending anything. */
    method SyncNow() returns (r: SyncReport)
      modifies store
      ensures r == if |old(store.syncQueue)| > 0 then Synced(|old(store.syncQueue)|) else AllSynced
      ensures store.syncQueue == []
      ensures store.inventoryItems == old(store.inventoryItems)
      ensures old(Valid()) ==> Valid()
    {
      var syncQueue := store.syncQueue;
      if |syncQueue| > 0 {
        store.syncQueue := [];
        r := Synced(|syncQueue|);
      } else {
        r := AllSynced;
      }
    }

    /** Choosing a branch clears the chosen warehouse. */
    method ChangeBranch(branchId: string)
      modifies this
      ensures form == old(form).(branchId := branchId, warehouseId := "")
      ensures items == old(items)
    {
      form := form.(branchId := branchId, warehouseId := "");
    }
  }

  /** Pressing Sync Now twice: the second press always finds nothing to sync. */
  method SyncNowTwice(page: InventoryPage) returns (first: SyncReport, second: SyncReport)
    modifies page.store
    ensures first == if |old(page.store.syncQueue)| > 0 then Synced(|old(page.store.syncQueue)|) else AllSynced
    ensures second == AllSynced
    ensures page.store.syncQueue == []
  {
    first := page.SyncNow();
    second := page.SyncNow();
  }

  /** An offline session: saving with the network down queues the item, and it
      stays in the recent list after the local sync has emptied the queue. */
  method OfflineSaveThenSync(page: InventoryPage) returns (saved: SaveOutcome, report: SyncReport)
    requires page.form.branchId != "" && page.form.warehouseId != ""
    requires page.store.syncQueue == []
    modifies page, page.store
    ensures saved == SavedOffline && report == Synced(1)
    ensures page.store.syncQueue == []
    ensures ItemOf(old(page.form)) in page.items
  {
    saved := page.Save(false);
    report := page.SyncNow();
  }
}
