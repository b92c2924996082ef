/** The warehouse page: the create/edit form, its save guard and request, and the
    searchable, branch-filterable warehouse list. */
module Warehouses {
  import opened Wrappers
  import opened Seqs
  import opened Text
  import opened Catalog

  /** The six pieces of form state the page keeps. */
  datatype WarehouseForm = WarehouseForm(
    name: string,
    branchId: string,
    capacity: string,
    manager: string,
    address: string,
    editingId: Option<string>)

  /** The blank form: what the page starts with, what a successful save and Cancel leave. */
  const EmptyForm := WarehouseForm("", "", "", "", "", None)

  /** The body of the create or update request. */
  datatype WarehouseData = WarehouseData(
    name: string,
    branchId: string,
    capacity: Option<string>,
    manager: Option<string>,
    address: Option<string>,
    status: string)

  /** POST /warehouses creates; PUT /warehouses/{id} updates. */
  datatype Request = Create(data: WarehouseData) | Update(id: string, data: WarehouseData)

  /** Why a save was refused before any request was made. */
  datatype Rejection = NameMissing | BranchMissing

  /** The request a save sends for form `f`, or the guard that stops it. The name is
      checked first, then the branch; empty optional fields are sent as missing. */
  function SaveRequest(f: WarehouseForm): (r: Result<Request, Rejection>)
    ensures IsBlank(f.name) ==> r == Err(NameMissing)
    ensures !IsBlank(f.name) && f.branchId == "" ==> r == Err(BranchMissing)
    ensures r.Ok? <==> !IsBlank(f.name) && f.branchId != ""
    ensures r.Ok? ==>
      && r.value.data.name == f.name && r.value.data.branchId == f.branchId
      && OrEmpty(r.value.data.capacity) == f.capacity && r.value.data.capacity != Some("")
      && OrEmpty(r.value.data.manager) == f.manager && r.value.data.manager != Some("")
      && OrEmpty(r.value.data.address) == f.address && r.value.data.address != Some("")
      && r.value.data.status == "active"
    ensures r.Ok? ==> (r.value.Update? <==> Editing(f.editingId))
    ensures r.Ok? && r.value.Update? ==> r.value.id == f.editingId.value
  {
    if IsBlank(f.name) then Err(NameMissing)
    else if f.branchId == "" then Err(BranchMissing)
    else
      var data := WarehouseData(f.name, f.branchId, OrUndefined(f.capacity),
                                OrUndefined(f.manager), OrUndefined(f.address), "active");
      if Editing(f.editingId) then Ok(Update(f.editingId.value, data)) else Ok(Create(data))
  }

  /** The form Edit loads for warehouse `w`: missing optional fields become "". */
  function Loaded(w: Warehouse): (f: WarehouseForm)
    ensures f.name == w.name && f.branchId == w.branchId
    ensures f.capacity == OrEmpty(w.capacity) && f.manager == OrEmpty(w.manager)
    ensures f.address == OrEmpty(w.address)
    ensures f.editingId == Some(w.id)
  {
    WarehouseForm(w.name, w.branchId, OrEmpty(w.capacity), OrEmpty(w.manager), OrEmpty(w.address), Some(w.id))
  }

  /** Editing a warehouse and saving it unchanged updates that same warehouse with
      its own fields (a field that was present but empty is sent as missing). */
  lemma EditThenSave(w: Warehouse)
    requires !IsBlank(w.name) && w.branchId != "" && w.id != ""
    ensures SaveRequest(Loaded(w)).Ok?
    ensures var q := SaveRequest(Loaded(w)).value;
      && q == Update(w.id, q.data)
      && q.data.name == w.name && q.data.branchId == w.branchId
      && q.data.capacity == (if w.capacity == Some("") then None else w.capacity)
      && q.data.manager == (if w.manager == Some("") then None else w.manager)
      && q.data.address == (if w.address == Some("") then None else w.address)
  {
  }

  /** What a press of Save led to. */
  datatype SaveOutcome = Rejected(reason: Rejection) | Sent(request: Request, succeeded: bool)

  class WarehouseEditor {
    var name: string
    var branchId: string
    var capacity: string
    var manager: string
    var address: string
    var editingId: Option<string>

    constructor ()
      ensures Form() == EmptyForm
    {
      name, branchId, capacity, manager, address := "", "", "", "", "";
      editingId := None;
    }

    /** The form state as one value. */
    function Form(): WarehouseForm
      reads this
    {
      WarehouseForm(name, branchId, capacity, manager, address, editingId)
    }

    /** `saveWarehouse`: a refused save sends nothing and changes nothing; otherwise
        the request is sent (`succeeds` is its outcome), and only a successful one
        clears the form and leaves edit mode. */
    method SaveWarehouse(succeeds: bool) returns (r: SaveOutcome)
      modifies this
      ensures var q := SaveRequest(old(Form()));
        r == if q.Err? then Rejected(q.error) else Sent(q.value, succeeds)
      ensures Form() == if r.Sent? && succeeds then EmptyForm else old(Form())
    {
      if IsBlank(name) {
        return Rejected(NameMissing);
      }
      if branchId == "" {
        return Rejected(BranchMissing);
      }
      var warehouseData := WarehouseData(name, branchId, OrUndefined(capacity),
                                         OrUndefined(manager), OrUndefined(address), "active");
      var request := if Editing(editingId) then Update(editingId.value, warehouseData)
                     else Create(warehouseData);
      r := Sent(request, succeeds);
      if succeeds {
        name := "";
        branchId := "";
        capacity := "";
        manager := "";
        address := "";
        editingId := None;
      }
    }

    /** `editWarehouse`: load the warehouse into the form and enter edit mode. */
    method EditWarehouse(w: Warehouse)
      modifies this
      ensures Form() == Loaded(w)
    {
      name := w.name;
      branchId := w.branchId;
      capacity := OrEmpty(w.capacity);
      manager := OrEmpty(w.manager);
      address := OrEmpty(w.address);
      editingId := Some(w.id);
    }

    /** `cancelEdit`: back to the blank form, out of edit mode. */
    method CancelEdit()
      modifies this
      ensures Form() == EmptyForm
    {
      name := "";
      branchId := "";
      capacity := "";
      manager := "";
      address := "";
      editingId := None;
    }
  }

  /** The row filter: the search rule, and the branch filter ("all" or a branch id). */
  predicate Listed(w: Warehouse, searchTerm: string, branchFilter: string)
  {
    SearchHit(w.name, w.address, w.manager, searchTerm) && (branchFilter == "all" || w.branchId == branchFilter)
  }

  /** `filteredWarehouses`: the listed warehouses, in list order. */
  function FilteredWarehouses(ws: seq<Warehouse>, searchTerm: string, branchFilter: string): seq<Warehouse>
  {
    Filter((w: Warehouse) => Listed(w, searchTerm, branchFilter), ws)
  }

  /** A warehouse is listed exactly when the lowered term occurs in its name,
      address or manager and the branch filter is "all" or its branch; each listed
      warehouse appears as often as in the input, the list keeps the original
      order, and an empty term with "all" lists everything. */
  lemma FilteredWarehousesSpec(ws: seq<Warehouse>, searchTerm: string, branchFilter: string)
    ensures forall w :: w in FilteredWarehouses(ws, searchTerm, branchFilter) <==>
      && w in ws
      && (|| Contains(Lower(w.name), Lower(searchTerm))
          || Contains(Lower(OrEmpty(w.address)), Lower(searchTerm))
          || Contains(Lower(OrEmpty(w.manager)), Lower(searchTerm)))
      && (branchFilter == "all" || w.branchId == branchFilter)
    ensures forall w :: multiset(FilteredWarehouses(ws, searchTerm, branchFilter))[w] ==
              if Listed(w, searchTerm, branchFilter) then multiset(ws)[w] else 0
    ensures IsSubseq(FilteredWarehouses(ws, searchTerm, branchFilter), ws)
    ensures searchTerm == "" && branchFilter == "all" ==> FilteredWarehouses(ws, searchTerm, branchFilter) == ws
  {
    var p := (w: Warehouse) => Listed(w, searchTerm, branchFilter);
    forall w
      ensures w in Filter(p, ws) <==>
        && w in ws
        && (|| Contains(Lower(w.name), Lower(searchTerm))
            || Contains(Lower(OrEmpty(w.address)), Lower(searchTerm))
            || Contains(Lower(OrEmpty(w.manager)), Lower(searchTerm)))
        && (branchFilter == "all" || w.branchId == branchFilter)
      ensures multiset(Filter(p, ws))[w] == if Listed(w, searchTerm, branchFilter) then multiset(ws)[w] else 0
    {
      FilterMembership(p, ws, w);
      FilterMultiplicity(p, ws, w);
      SearchHitIff(w.name, w.address, w.manager, searchTerm);
    }
    FilterIsSubseq(p, ws);
    if searchTerm == "" && branchFilter == "all" {
      forall i | 0 <= i < |ws| ensures p(ws[i]) {
        SearchHitIff(ws[i].name, ws[i].address, ws[i].manager, searchTerm);
      }
      FilterAllOrNone(p, ws);
    }
  }
}
