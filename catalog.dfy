/** The records the back end returns for branches and warehouses, the JavaScript
    defaulting idioms the pages apply to their optional fields, and the lookups and
    the search rule that several pages share. */
module Catalog {
  import opened Wrappers
  import opened Seqs
  import opened Text

  /** A branch as listed by the back end; `None` is a field the record lacks. */
  datatype Branch = Branch(
    id: string,
    name: string,
    address: Option<string>,
    phone: Option<string>,
    email: Option<string>,
    manager: Option<string>)

  /** A warehouse as listed by the back end; `branchId` is the owning branch's `_id`. */
  datatype Warehouse = Warehouse(
    id: string,
    name: string,
    branchId: string,
    capacity: Option<string>,
    manager: Option<string>,
    address: Option<string>)

  /** `field || ""`: a missing field reads as the empty string. */
  function OrEmpty(field: Option<string>): (s: string)
    ensures field.Some? ==> s == field.value
    ensures field.None? ==> s == ""
  {
    match field
    case Some(v) => v
    case None => ""
  }

  /** `value || undefined`: the empty string is sent as a missing field. */
  function OrUndefined(value: string): (field: Option<string>)
    ensures field.None? <==> value == ""
    ensures field.Some? ==> field.value == value
  {
    if value == "" then None else Some(value)
  }

  /** Loading a field into a form and sending it back keeps it, except that a
      present-but-empty field comes back missing. */
  lemma OrUndefinedOrEmpty(field: Option<string>)
    ensures OrUndefined(OrEmpty(field)) == if field == Some("") then None else field
    ensures OrEmpty(OrUndefined(OrEmpty(field))) == OrEmpty(field)
  {
  }

  /** `field && field.toLowerCase().includes(term.toLowerCase())`: a field that is
      missing or empty never matches on its own. */
  predicate FieldMatches(field: Option<string>, term: string)
  {
    field.Some? && Truthy(field.value) && Contains(Lower(field.value), Lower(term))
  }

  /** The search rule shared by the branch and warehouse lists: the lowered term
      occurs in the lowered name, or in the address, or in the manager. */
  predicate SearchHit(name: string, address: Option<string>, manager: Option<string>, term: string)
  {
    Contains(Lower(name), Lower(term)) || FieldMatches(address, term) || FieldMatches(manager, term)
  }

  /** The truthiness guards on the optional fields do not change the outcome: a
      record matches exactly when the term occurs in one of the three fields, a
      missing field reading as "". An empty term matches every record. */
  lemma SearchHitIff(name: string, address: Option<string>, manager: Option<string>, term: string)
    ensures SearchHit(name, address, manager, term) <==>
      Contains(Lower(name), Lower(term)) ||
      Contains(Lower(OrEmpty(address)), Lower(term)) ||
      Contains(Lower(OrEmpty(manager)), Lower(term))
    ensures term == "" ==> SearchHit(name, address, manager, term)
  {
  }

  /** `if (editingId)`: an id counts only when present and non-empty. */
  predicate Editing(editingId: Option<string>)
  {
    editingId.Some? && Truthy(editingId.value)
  }

  /** `w => w.branchId === branchId`. */
  function InBranch(branchId: string): Warehouse -> bool
  {
    (w: Warehouse) => w.branchId == branchId
  }

  /** `warehouses.filter(w => w.branchId === branchId)`: every copy of every warehouse
      of the branch, in list order; its head is the branch's first warehouse. */
  function BranchWarehouses(ws: seq<Warehouse>, branchId: string): (r: seq<Warehouse>)
    ensures forall w :: w in r <==> w in ws && w.branchId == branchId
    ensures forall w :: multiset(r)[w] == if w.branchId == branchId then multiset(ws)[w] else 0
    ensures IsSubseq(r, ws)
    ensures (forall i :: 0 <= i < |ws| ==> ws[i].branchId == branchId) ==> r == ws
    ensures var k := FirstIndex(InBranch(branchId), ws);
      (r == [] <==> k == |ws|) && (r != [] ==> r[0] == ws[k])
  {
    var p := InBranch(branchId);
    forall w ensures w in Filter(p, ws) <==> w in ws && w.branchId == branchId {
      FilterMembership(p, ws, w);
    }
    forall w ensures multiset(Filter(p, ws))[w] == if w.branchId == branchId then multiset(ws)[w] else 0 {
      FilterMultiplicity(p, ws, w);
    }
    FilterIsSubseq(p, ws);
    FilterAllOrNone(p, ws);
    FilterHeadIsFirst(p, ws);
    Filter(p, ws)
  }

  /** `branches.find(b => b._id === id)?.name`, defaulting to "Unknown Branch". */
  function BranchName(bs: seq<Branch>, id: string): (r: string)
    ensures (forall j :: 0 <= j < |bs| ==> bs[j].id != id) ==> r == "Unknown Branch"
    ensures forall i :: 0 <= i < |bs| && bs[i].id == id && (forall j :: 0 <= j < i ==> bs[j].id != id) ==>
      r == bs[i].name
  {
    var k := FirstIndex((b: Branch) => b.id == id, bs);
    if k < |bs| then bs[k].name else "Unknown Branch"
  }

  /** The `_id` of the first warehouse of the list, or "" when the list is empty. */
  function FirstIdOrEmpty(ws: seq<Warehouse>): (id: string)
    ensures ws == [] ==> id == ""
    ensures ws != [] ==> id == ws[0].id
  {
    if ws == [] then "" else ws[0].id
  }
}
