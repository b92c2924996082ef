/** The dashboard: branch and warehouse selection, the per-branch warehouse list,
    and the counts and names shown on the cards. */
module Dashboard {
  import opened Wrappers
  import opened Seqs
  import opened Catalog

  /** An inventory record as the warehouse inventory endpoint returns it; `None`
      is a field the record lacks. */
  datatype StockLine = StockLine(quantity: Option<int>, minStockLevel: Option<int>)

  /** `item.quantity <= item.minStockLevel`; a comparison with a missing field is false. */
  predicate LowStock(line: StockLine)
  {
    line.quantity.Some? && line.minStockLevel.Some? && line.quantity.value <= line.minStockLevel.value
  }

  /** `lowStockItems`: how many records are at or below their minimum level. */
  function LowStockCount(inventory: seq<StockLine>): (n: nat)
    ensures n <= |inventory|
    ensures n == |inventory| <==> forall i :: 0 <= i < |inventory| ==> LowStock(inventory[i])
    ensures n == 0 <==> forall i :: 0 <= i < |inventory| ==> !LowStock(inventory[i])
  {
    FilterLength(LowStock, inventory);
    |Filter(LowStock, inventory)|
  }

  /** `activeWarehouses`: how many listed warehouses belong to the given branch. */
  function ActiveWarehouses(ws: seq<Warehouse>, branchId: string): (n: nat)
    ensures n <= |ws|
    ensures n == |ws| <==> forall i :: 0 <= i < |ws| ==> ws[i].branchId == branchId
    ensures n == 0 <==> forall i :: 0 <= i < |ws| ==> ws[i].branchId != branchId
  {
    FilterLength(InBranch(branchId), ws);
    |Filter(InBranch(branchId), ws)|
  }

  /** Counting the warehouses of a branch over two lists adds the two counts. */
  lemma ActiveWarehousesAppend(a: seq<Warehouse>, b: seq<Warehouse>, branchId: string)
    ensures ActiveWarehouses(a + b, branchId) == ActiveWarehouses(a, branchId) + ActiveWarehouses(b, branchId)
  {
    FilterAppend(InBranch(branchId), a, b);
  }

  /** Counting the low-stock records over two lists adds the two counts. */
  lemma LowStockCountAppend(a: seq<StockLine>, b: seq<StockLine>)
    ensures LowStockCount(a + b) == LowStockCount(a) + LowStockCount(b)
  {
    FilterAppend(LowStock, a, b);
  }

  /** `getWarehouseName`: the name of the first warehouse with that `_id`, else "Select Warehouse". */
  function WarehouseName(ws: seq<Warehouse>, id: string): (r: string)
    ensures (forall j :: 0 <= j < |ws| ==> ws[j].id != id) ==> r == "Select Warehouse"
    ensures forall i :: 0 <= i < |ws| && ws[i].id == id && (forall j :: 0 <= j < i ==> ws[j].id != id) ==>
      r == ws[i].name
  {
    var k := FirstIndex((w: Warehouse) => w.id == id, ws);
    if k < |ws| then ws[k].name else "Select Warehouse"
  }

  /** The warehouse drop-down: every copy of every listed warehouse of the selected
      branch, in order. */
  function WarehouseDropdown(ws: seq<Warehouse>, selectedBranch: string): (r: seq<Warehouse>)
    ensures forall w :: w in r <==> w in ws && w.branchId == selectedBranch
    ensures forall w :: multiset(r)[w] == if w.branchId == selectedBranch then multiset(ws)[w] else 0
    ensures IsSubseq(r, ws)
  {
    BranchWarehouses(ws, selectedBranch)
  }

  /** The answer of GET /warehouses/branch/{id}: a transport error, or a response
      whose body is truthy or not. */
  datatype ByBranchResponse = Failed | Answered(bodyTruthy: bool)

  /** The effect on `[selectedBranch]` runs after the selection changes to a
      non-empty id; setting the same id again does not run it. */
  predicate BranchEffectFires(previous: string, selected: string)
  {
    selected != previous && selected != ""
  }

  /** What `fetchWarehousesByBranch(branchId)` does to the list and the selection,
      from (`ws0`, `sel0`) to (`ws1`, `sel1`), when it filters the list `source`.
      A truthy answer replaces the list by the branch's warehouses of `source` and
      selects the first of them, or ""; a falsy body changes nothing; a failed
      request keeps the list and still selects the first matching warehouse, or "". */
  ghost predicate ByBranchEffect(source: seq<Warehouse>, ws0: seq<Warehouse>, sel0: string,
                                 ws1: seq<Warehouse>, sel1: string, branchId: string, res: ByBranchResponse)
  {
    match res
    case Answered(true) => ws1 == BranchWarehouses(source, branchId) && sel1 == FirstIdOrEmpty(ws1)
    case Answered(false) => ws1 == ws0 && sel1 == sel0
    case Failed => ws1 == ws0 && sel1 == FirstIdOrEmpty(BranchWarehouses(source, branchId))
  }

  class DashboardPage {
    var branches: seq<Branch>
    var warehouses: seq<Warehouse>
    var selectedBranch: string
    var selectedWarehouse: string

    constructor ()
      ensures branches == [] && warehouses == [] && selectedBranch == "" && selectedWarehouse == ""
    {
      branches, warehouses := [], [];
      selectedBranch, selectedWarehouse := "", "";
    }

    /** `fetchBranches` (`res` is the list fetched, `None` a failed request): a
        non-empty list selects its first branch; otherwise the selection stays.
        A changed selection then runs the per-branch fetch, answered `byBranch`. */
    method FetchBranches(res: Option<seq<Branch>>, byBranch: ByBranchResponse)
      modifies this
      ensures branches == (if res.Some? then res.value else old(branches))
      ensures selectedBranch == (if res.Some? && res.value != [] then res.value[0].id else old(selectedBranch))
      ensures if BranchEffectFires(old(selectedBranch), selectedBranch)
        then ByBranchEffect(old(warehouses), old(warehouses), old(selectedWarehouse),
                            warehouses, selectedWarehouse, selectedBranch, byBranch)
        else warehouses == old(warehouses) && selectedWarehouse == old(selectedWarehouse)
    {
      var previous := selectedBranch;
      if res.Some? {
        branches := res.value;
        if res.value != [] {
          selectedBranch := res.value[0].id;
        }
      }
      if BranchEffectFires(previous, selectedBranch) {
        FetchWarehousesByBranch(selectedBranch, byBranch);
      }
    }

    /** `fetchAllWarehouses`: a successful request replaces the list. */
    method FetchAllWarehouses(res: Option<seq<Warehouse>>)
      modifies this
      ensures warehouses == (if res.Some? then res.value else old(warehouses))
      ensures branches == old(branches)
      ensures selectedBranch == old(selectedBranch) && selectedWarehouse == old(selectedWarehouse)
    {
      if res.Some? {
        warehouses := res.value;
      }
    }

    /** `fetchWarehousesByBranch`, as written: the list it narrows is the current
        one, not the answer and not the full list. */
    method FetchWarehousesByBranch(branchId: string, res: ByBranchResponse)
      modifies this
      ensures res == Answered(true) ==>
        && warehouses == BranchWarehouses(old(warehouses), branchId)
        && selectedWarehouse == FirstIdOrEmpty(warehouses)
      ensures res == Answered(false) ==>
        warehouses == old(warehouses) && selectedWarehouse == old(selectedWarehouse)
      ensures res == Failed ==>
        && warehouses == old(warehouses)
        && selectedWarehouse == FirstIdOrEmpty(BranchWarehouses(warehouses, branchId))
      ensures ByBranchEffect(old(warehouses), old(warehouses), old(selectedWarehouse),
                             warehouses, selectedWarehouse, branchId, res)
      ensures branches == old(branches) && selectedBranch == old(selectedBranch)
    {
      match res
      case Answered(bodyTruthy) =>
        if bodyTruthy {
          var filteredWarehouses := BranchWarehouses(warehouses, branchId);
          warehouses := filteredWarehouses;
          selectedWarehouse := FirstIdOrEmpty(filteredWarehouses);
        }
      case Failed =>
        var filteredWarehouses := BranchWarehouses(warehouses, branchId);
        selectedWarehouse := FirstIdOrEmpty(filteredWarehouses);
    }

    /** Choosing a branch in the selector; a change to a non-empty id runs the
        per-branch fetch, answered `res`. */
    method SelectBranch(branchId: string, res: ByBranchResponse)
      modifies this
      ensures selectedBranch == branchId && branches == old(branches)
      ensures if BranchEffectFires(old(selectedBranch), branchId)
        then ByBranchEffect(old(warehouses), old(warehouses), old(selectedWarehouse),
                            warehouses, selectedWarehouse, branchId, res)
        else warehouses == old(warehouses) && selectedWarehouse == old(selectedWarehouse)
    {
      var previous := selectedBranch;
      selectedBranch := branchId;
      if BranchEffectFires(previous, branchId) {
        FetchWarehousesByBranch(branchId, res);
      }
    }
  }

  /** Two warehouses of two branches, the data of the examples below. */
  const NorthStore := Warehouse("w1", "North Store", "b1", None, None, None)
  const SouthStore := Warehouse("w2", "South Store", "b2", None, None, None)

  /** As written, choosing branch b1 and then branch b2 leaves an empty list and no
      selection, although b2 owns South Store: the first choice discarded it. */
  method SwitchBranchAsWritten() returns (listed: seq<Warehouse>, selection: string)
    ensures listed == [] && selection == ""
    ensures SouthStore in BranchWarehouses([NorthStore, SouthStore], "b2")
  {
    var page := new DashboardPage();
    page.FetchAllWarehouses(Some([NorthStore, SouthStore]));
    page.SelectBranch("b1", Answered(true));
    assert page.warehouses == [NorthStore] by {
      SubseqOfPair(page.warehouses, NorthStore, SouthStore);
    }
    page.SelectBranch("b2", Answered(true));
    listed, selection := page.warehouses, page.selectedWarehouse;
  }

  /** The sublists of a two-element list. */
  lemma SubseqOfPair<T>(r: seq<T>, a: T, b: T)
    requires IsSubseq(r, [a, b])
    ensures r == [] || r == [a] || r == [b] || r == [a, b]
  {
    assert [a, b][1..] == [b];
    if r != [] {
      if r[0] == a {
        SubseqOfSingleton(r[1..], b);
      } else {
        SubseqOfSingleton(r, b);
      }
    }
  }

  /** The sublists of a one-element list. */
  lemma SubseqOfSingleton<T>(r: seq<T>, b: T)
    requires IsSubseq(r, [b])
    ensures r == [] || r == [b]
  {
  }

  /** The per-branch view as evidently intended: every copy of every warehouse of
      the branch in the full list, in order, with the branch's first warehouse of
      the full list selected, or "" when it has none. */
  function BranchView(all: seq<Warehouse>, branchId: string): (view: (seq<Warehouse>, string))
    ensures forall w :: w in view.0 <==> w in all && w.branchId == branchId
    ensures forall w :: multiset(view.0)[w] == if w.branchId == branchId then multiset(all)[w] else 0
    ensures IsSubseq(view.0, all)
    ensures view.1 == FirstIdOrEmpty(view.0)
    ensures var k := FirstIndex(InBranch(branchId), all);
      view.1 == if k < |all| then all[k].id else ""
  {
    var listed := BranchWarehouses(all, branchId);
    (listed, FirstIdOrEmpty(listed))
  }

  /** The dashboard as evidently intended: it keeps the full list it fetched in a
      field of its own, and the per-branch fetch narrows that list, not the one on
      screen. Everything else is as in `DashboardPage`. */
  class IntendedDashboardPage {
    var allWarehouses: seq<Warehouse>
    var warehouses: seq<Warehouse>
    var selectedBranch: string
    var selectedWarehouse: string

    constructor ()
      ensures allWarehouses == [] && warehouses == [] && selectedBranch == "" && selectedWarehouse == ""
    {
      allWarehouses, warehouses := [], [];
      selectedBranch, selectedWarehouse := "", "";
    }

    /** With a branch selected, the screen shows that branch's intended view. */
    ghost predicate ShowsSelectedBranch()
      reads this
    {
      selectedBranch != "" ==> (warehouses, selectedWarehouse) == BranchView(allWarehouses, selectedBranch)
    }

    /** `fetchAllWarehouses`: a successful request sets both the full list and the
        list on screen. */
    method FetchAllWarehouses(res: Option<seq<Warehouse>>)
      modifies this
      ensures allWarehouses == (if res.Some? then res.value else old(allWarehouses))
      ensures warehouses == (if res.Some? then res.value else old(warehouses))
      ensures selectedBranch == old(selectedBranch) && selectedWarehouse == old(selectedWarehouse)
    {
      if res.Some? {
        allWarehouses := res.value;
        warehouses := res.value;
      }
    }

    /** `fetchWarehousesByBranch`, narrowing the full list. */
    method FetchWarehousesByBranch(branchId: string, res: ByBranchResponse)
      modifies this
      ensures ByBranchEffect(allWarehouses, old(warehouses), old(selectedWarehouse),
                             warehouses, selectedWarehouse, branchId, res)
      ensures res == Answered(true) ==> (warehouses, selectedWarehouse) == BranchView(allWarehouses, branchId)
      ensures allWarehouses == old(allWarehouses) && selectedBranch == old(selectedBranch)
    {
      match res
      case Answered(bodyTruthy) =>
        if bodyTruthy {
          var filteredWarehouses := BranchWarehouses(allWarehouses, branchId);
          warehouses := filteredWarehouses;
          selectedWarehouse := FirstIdOrEmpty(filteredWarehouses);
        }
      case Failed =>
        var filteredWarehouses := BranchWarehouses(allWarehouses, branchId);
        selectedWarehouse := FirstIdOrEmpty(filteredWarehouses);
    }

    /** Choosing a branch; a change to a non-empty id runs the per-branch fetch.
        A truthy answer keeps the screen on the selected branch's view. */
    method SelectBranch(branchId: string, res: ByBranchResponse)
      modifies this
      ensures selectedBranch == branchId && allWarehouses == old(allWarehouses)
      ensures if BranchEffectFires(old(selectedBranch), branchId)
        then ByBranchEffect(allWarehouses, old(warehouses), old(selectedWarehouse),
                            warehouses, selectedWarehouse, branchId, res)
        else warehouses == old(warehouses) && selectedWarehouse == old(selectedWarehouse)
      ensures res == Answered(true) && old(ShowsSelectedBranch()) ==> ShowsSelectedBranch()
    {
      var previous := selectedBranch;
      selectedBranch := branchId;
      if BranchEffectFires(previous, branchId) {
        FetchWarehousesByBranch(branchId, res);
      }
    }
  }

  /** The last branch actually chosen among the first `n` entries of `choices`:
      the last non-empty one, or "" when all of them are empty. */
  function LastBranch(choices: seq<string>, n: nat): string
    requires n <= |choices|
  {
    if n == 0 then ""
    else if choices[n - 1] != "" then choices[n - 1]
    else LastBranch(choices, n - 1)
  }

  /** `LastBranch` is "" exactly when nothing was chosen, and otherwise an entry
      after which every entry is empty. */
  lemma {:induction false} LastBranchSpec(choices: seq<string>, n: nat)
    requires n <= |choices|
    ensures LastBranch(choices, n) == "" <==> forall i :: 0 <= i < n ==> choices[i] == ""
    ensures LastBranch(choices, n) != "" ==>
      exists i :: 0 <= i < n && choices[i] == LastBranch(choices, n) &&
                  forall j :: i < j < n ==> choices[j] == ""
  {
    if n > 0 && choices[n - 1] == "" {
      LastBranchSpec(choices, n - 1);
    }
  }

  /** The intended page, after fetching the full list `all` and then choosing each
      branch of `choices` in turn (every per-branch fetch answered): the screen
      shows the view of the last branch chosen, whatever was chosen before; an
      empty choice leaves the screen as it was, and with no branch ever chosen it
      shows the full list and no warehouse. */
  method ChooseBranchesIntended(all: seq<Warehouse>, choices: seq<string>)
    returns (listed: seq<Warehouse>, selection: string)
    ensures LastBranch(choices, |choices|) != "" ==>
      (listed, selection) == BranchView(all, LastBranch(choices, |choices|))
    ensures choices != [] && choices[|choices| - 1] != "" ==>
      (listed, selection) == BranchView(all, choices[|choices| - 1])
    ensures (forall i :: 0 <= i < |choices| ==> choices[i] == "") ==> listed == all && selection == ""
  {
    var page := new IntendedDashboardPage();
    page.FetchAllWarehouses(Some(all));
    ChooseInTurn(page, choices);
    LastBranchSpec(choices, |choices|);
    listed, selection := page.warehouses, page.selectedWarehouse;
  }

  /** Choosing each branch of `choices` in turn, every per-branch fetch answered,
      on an intended page that shows its full list with nothing selected: the
      screen ends on the view of the last branch chosen. */
  method ChooseInTurn(page: IntendedDashboardPage, choices: seq<string>)
    modifies page
    requires page.selectedBranch == "" && page.warehouses == page.allWarehouses && page.selectedWarehouse == ""
    ensures page.allWarehouses == old(page.allWarehouses)
    ensures ShowsView(page.warehouses, page.selectedWarehouse, page.allWarehouses, LastBranch(choices, |choices|))
  {
    ghost var all := page.allWarehouses;
    var i := 0;
    ghost var last := "";
    while i < |choices|
      invariant 0 <= i <= |choices|
      invariant page.allWarehouses == all
      invariant last == LastBranch(choices, i)
      invariant page.selectedBranch != "" ==> page.selectedBranch == last
      invariant ShowsView(page.warehouses, page.selectedWarehouse, all, last)
    {
      ghost var ws0, sel0, prev := page.warehouses, page.selectedWarehouse, page.selectedBranch;
      ChooseAnswered(page, choices[i]);
      ChoiceKeepsView(ws0, sel0, page.warehouses, page.selectedWarehouse, all, prev, last, choices[i]);
      if choices[i] != "" {
        last := choices[i];
      }
      i := i + 1;
    }
  }

  /** The screen (`ws`, `sel`) after the choices whose last branch is `last`: that
      branch's view, or the full list and no warehouse when none was chosen. */
  ghost predicate ShowsView(ws: seq<Warehouse>, sel: string, all: seq<Warehouse>, last: string)
  {
    if last == "" then ws == all && sel == "" else (ws, sel) == BranchView(all, last)
  }

  /** One answered choice `c`, with `prev` selected before it, takes the screen of
      the last branch chosen to the screen of the new last branch chosen. */
  lemma ChoiceKeepsView(ws0: seq<Warehouse>, sel0: string, ws1: seq<Warehouse>, sel1: string,
                        all: seq<Warehouse>, prev: string, last: string, c: string)
    requires prev != "" ==> prev == last
    requires ShowsView(ws0, sel0, all, last)
    requires BranchEffectFires(prev, c) ==> (ws1, sel1) == BranchView(all, c)
    requires !BranchEffectFires(prev, c) ==> ws1 == ws0 && sel1 == sel0
    ensures ShowsView(ws1, sel1, all, if c != "" then c else last)
  {
  }

  /** One answered choice on the intended page: the choice is selected; when the
      effect fires the screen shows the chosen branch's view, and otherwise (an
      empty choice, or the branch already selected) nothing on screen changes. */
  method ChooseAnswered(page: IntendedDashboardPage, branchId: string)
    modifies page
    ensures page.selectedBranch == branchId && page.allWarehouses == old(page.allWarehouses)
    ensures old(page.ShowsSelectedBranch()) ==> page.ShowsSelectedBranch()
    ensures BranchEffectFires(old(page.selectedBranch), branchId) ==>
      (page.warehouses, page.selectedWarehouse) == BranchView(page.allWarehouses, branchId)
    ensures !BranchEffectFires(old(page.selectedBranch), branchId) ==>
      page.warehouses == old(page.warehouses) && page.selectedWarehouse == old(page.selectedWarehouse)
  {
    page.SelectBranch(branchId, Answered(true));
  }

  /** The same two choices as in `SwitchBranchAsWritten`, on the intended page,
      list South Store and select it. */
  method SwitchBranchIntended() returns (listed: seq<Warehouse>, selection: string)
    ensures listed == [SouthStore] && selection == "w2"
  {
    listed, selection := ChooseBranchesIntended([NorthStore, SouthStore], ["b1", "b2"]);
    SubseqOfPair(listed, NorthStore, SouthStore);
  }
}
