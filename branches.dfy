/** The branch page: the create/edit form, its save guard and request, and the
    searchable branch list. */
module Branches {
  import opened Wrappers
  import opened Seqs
  import opened Text
  import opened Catalog

  /** The six pieces of form state the page keeps. */
  datatype BranchForm = BranchForm(
    name: string,
    address: string,
    phone: string,
    email: string,
    manager: string,
    editingId: Option<string>)

  /** The blank form: what the page starts with, what a successful save and Cancel leave. */
  const EmptyForm := BranchForm("", "", "", "", "", None)

  /** The body of the create or update request: the fields as typed, status "active". */
  datatype BranchData = BranchData(
    name: string,
    address: string,
    phone: string,
    email: string,
    manager: string,
    status: string)

  /** POST /branches creates; PUT /branches/{id} updates. */
  datatype Request = Create(data: BranchData) | Update(id: string, data: BranchData)

  /** Why a save was refused before any request was made. */
  datatype Rejection = NameMissing

  /** The request a save sends for form `f`, or the guard that stops it. */
  function SaveRequest(f: BranchForm): (r: Result<Request, Rejection>)
    ensures r.Err? <==> IsBlank(f.name)
    ensures r.Ok? ==> r.value.data == BranchData(f.name, f.address, f.phone, f.email, f.manager, "active")
    ensures r.Ok? ==> (r.value.Update? <==> Editing(f.editingId))
    ensures r.Ok? && r.value.Update? ==> r.value.id == f.editingId.value
  {
    if IsBlank(f.name) then Err(NameMissing)
    else
      var data := BranchData(f.name, f.address, f.phone, f.email, f.manager, "active");
      if Editing(f.editingId) then Ok(Update(f.editingId.value, data)) else Ok(Create(data))
  }

  /** The form Edit loads for branch `b`: missing optional fields become "". */
  function Loaded(b: Branch): (f: BranchForm)
    ensures f.name == b.name && f.address == OrEmpty(b.address) && f.phone == OrEmpty(b.phone)
    ensures f.email == OrEmpty(b.email) && f.manager == OrEmpty(b.manager)
    ensures f.editingId == Some(b.id)
  {
    BranchForm(b.name, OrEmpty(b.address), OrEmpty(b.phone), OrEmpty(b.email), OrEmpty(b.manager), Some(b.id))
  }

  /** Editing a branch and saving it unchanged updates that same branch, sending
      each optional field as it was, or "" where it was missing. */
  lemma EditThenSave(b: Branch)
    requires !IsBlank(b.name) && b.id != ""
    ensures SaveRequest(Loaded(b)) ==
      Ok(Update(b.id, BranchData(b.name, OrEmpty(b.address), OrEmpty(b.phone), OrEmpty(b.email),
                                 OrEmpty(b.manager), "active")))
  {
  }

  /** What a press of Save led to. */
  datatype SaveOutcome = Rejected(reason: Rejection) | Sent(request: Request, succeeded: bool)

  class BranchEditor {
    var name: string
    var address: string
    var phone: string
    var email: string
    var manager: string
    var editingId: Option<string>

    constructor ()
      ensures Form() == EmptyForm
    {
      name, address, phone, email, manager := "", "", "", "", "";
      editingId := None;
    }

    /** The form state as one value. */
    function Form(): BranchForm
      reads this
    {
      BranchForm(name, address, phone, email, manager, editingId)
    }

    /** `saveBranch`: a blank name sends nothing and changes nothing; otherwise the
        request is sent (`succeeds` is its outcome), and only a successful one clears
        the form and leaves edit mode. */
    method SaveBranch(succeeds: bool) returns (r: SaveOutcome)
      modifies this
      ensures var q := SaveRequest(old(Form()));
        r == if q.Err? then Rejected(q.error) else Sent(q.value, succeeds)
      ensures Form() == if r.Sent? && succeeds then EmptyForm else old(Form())
    {
      if IsBlank(name) {
        return Rejected(NameMissing);
      }
      var branchData := BranchData(name, address, phone, email, manager, "active");
      var request := if Editing(editingId) then Update(editingId.value, branchData)
                     else Create(branchData);
      r := Sent(request, succeeds);
      if succeeds {
        name := "";
        address := "";
        phone := "";
        email := "";
        manager := "";
        editingId := None;
      }
    }

    /** `editBranch`: load the branch into the form and enter edit mode. */
    method EditBranch(b: Branch)
      modifies this
      ensures Form() == Loaded(b)
    {
      name := b.name;
      address := OrEmpty(b.address);
      phone := OrEmpty(b.phone);
      email := OrEmpty(b.email);
      manager := OrEmpty(b.manager);
      editingId := Some(b.id);
    }

    /** `cancelEdit`: back to the blank form, out of edit mode. */
    method CancelEdit()
      modifies this
      ensures Form() == EmptyForm
    {
      name := "";
      address := "";
      phone := "";
      email := "";
      manager := "";
      editingId := None;
    }
  }

  /** `filteredBranches`: the branches matching the search term, in list order. */
  function FilteredBranches(bs: seq<Branch>, searchTerm: string): seq<Branch>
  {
    Filter((b: Branch) => SearchHit(b.name, b.address, b.manager, searchTerm), bs)
  }

  /** A branch is listed exactly when the lowered term occurs in its lowered name,
      address or manager; each listed branch appears as often as in the input,
      the list keeps the original order, and an empty term lists every branch. */
  lemma FilteredBranchesSpec(bs: seq<Branch>, searchTerm: string)
    ensures forall b :: b in FilteredBranches(bs, searchTerm) <==>
      && b in bs
      && (|| Contains(Lower(b.name), Lower(searchTerm))
          || Contains(Lower(OrEmpty(b.address)), Lower(searchTerm))
          || Contains(Lower(OrEmpty(b.manager)), Lower(searchTerm)))
    ensures forall b :: multiset(FilteredBranches(bs, searchTerm))[b] ==
              if SearchHit(b.name, b.address, b.manager, searchTerm) then multiset(bs)[b] else 0
    ensures IsSubseq(FilteredBranches(bs, searchTerm), bs)
    ensures searchTerm == "" ==> FilteredBranches(bs, searchTerm) == bs
  {
    var p := (b: Branch) => SearchHit(b.name, b.address, b.manager, searchTerm);
    forall b
      ensures b in Filter(p, bs) <==>
        && b in bs
        && (|| Contains(Lower(b.name), Lower(searchTerm))
            || Contains(Lower(OrEmpty(b.address)), Lower(searchTerm))
            || Contains(Lower(OrEmpty(b.manager)), Lower(searchTerm)))
      ensures multiset(Filter(p, bs))[b] == if SearchHit(b.name, b.address, b.manager, searchTerm) then multiset(bs)[b] else 0
    {
      FilterMembership(p, bs, b);
      FilterMultiplicity(p, bs, b);
      SearchHitIff(b.name, b.address, b.manager, searchTerm);
    }
    FilterIsSubseq(p, bs);
    if searchTerm == "" {
      forall i | 0 <= i < |bs| ensures p(bs[i]) {
        SearchHitIff(bs[i].name, bs[i].address, bs[i].manager, searchTerm);
      }
      FilterAllOrNone(p, bs);
    }
  }
}
