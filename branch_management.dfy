/** The seller's branch list of client/src/pages/seller/BranchManagement.js:
    adding and editing through one form, deletion, the active toggle and the
    header statistics. */
module BranchManagement {
  import opened Values
  import Seqs

  datatype Coordinates = Coordinates(lat: real, lng: real)

  /** A branch. `country` and `currency` are set on the initial branch only;
      branches added through the form have neither. */
  datatype Branch = Branch(
    id: int, name: string, branchType: string, address: string, city: string, state: string,
    pincode: string, phone: string, email: string, manager: string,
    products: int, staff: int, isActive: bool, coordinates: Coordinates,
    country: Option<string>, currency: Option<string>)

  /** The form (`formData`). */
  datatype BranchForm = BranchForm(
    name: string, branchType: string, address: string, city: string, state: string,
    pincode: string, phone: string, email: string, manager: string)

  const InitialForm := BranchForm("", "warehouse", "", "", "", "", "", "", "")

  const DefaultCoordinates := Coordinates(22.5726, 88.3639)

  /** The page's state cells. */
  datatype PageState = PageState(
    branches: seq<Branch>, selectedBranch: Option<Branch>, showAddForm: bool,
    formData: BranchForm, editingId: Option<int>)

  /** No two branches share an id. */
  predicate UniqueIds(branches: seq<Branch>)
  {
    forall i, j :: 0 <= i < j < |branches| ==> branches[i].id != branches[j].id
  }

  /** `Math.max(...branches.map(b => b.id), 0) + 1`. */
  function NextId(branches: seq<Branch>): (id: int)
    ensures id >= 1
    ensures forall i :: 0 <= i < |branches| ==> branches[i].id < id
    ensures (exists i :: 0 <= i < |branches| && branches[i].id == id - 1) || id == 1
  {
    if branches == [] then 1
    else
      var rest := NextId(branches[1..]);
      assert forall i :: 1 <= i < |branches| ==> branches[i] == branches[1..][i - 1];
      if branches[0].id + 1 > rest then branches[0].id + 1 else rest
  }

  /** The branch the form adds. */
  function NewBranch(f: BranchForm, id: int): Branch
  {
    Branch(id, f.name, f.branchType, f.address, f.city, f.state, f.pincode, f.phone, f.email, f.manager,
      0, 0, true, DefaultCoordinates, None, None)
  }

  /** `{...b, ...formData}`: the nine form fields replace the branch's. */
  function MergeForm(b: Branch, f: BranchForm): Branch
  {
    b.(name := f.name, branchType := f.branchType, address := f.address, city := f.city,
      state := f.state, pincode := f.pincode, phone := f.phone, email := f.email, manager := f.manager)
  }

  /** `if (editingId)`: an id of 0 is falsy and counts as not editing. */
  predicate Editing(st: PageState)
  {
    st.editingId.Some? && st.editingId.value != 0
  }

  /** `handleSubmit`: saves the form into the branch being edited, or adds a
      branch with a fresh id, no products or staff, active; then resets and
      hides the form. */
  function HandleSubmit(st: PageState): (r: PageState)
    ensures Editing(st) ==> |r.branches| == |st.branches| && r.editingId == None
    ensures Editing(st) ==> forall i :: 0 <= i < |st.branches| ==>
      r.branches[i] == (if st.branches[i].id == st.editingId.value then MergeForm(st.branches[i], st.formData) else st.branches[i])
    ensures !Editing(st) ==> r.editingId == st.editingId
    ensures !Editing(st) ==> r.branches == st.branches + [NewBranch(st.formData, NextId(st.branches))]
    ensures r.formData == InitialForm && !r.showAddForm && r.selectedBranch == st.selectedBranch
  {
    var branches :=
      if Editing(st) then
        seq(|st.branches|, i requires 0 <= i < |st.branches| =>
          if st.branches[i].id == st.editingId.value then MergeForm(st.branches[i], st.formData) else st.branches[i])
      else st.branches + [NewBranch(st.formData, NextId(st.branches))];
    st.(branches := branches, editingId := if Editing(st) then None else st.editingId,
      formData := InitialForm, showAddForm := false)
  }

  /** A submit keeps the ids unique. An edit changes no id, no counts and
      no active flag; an added branch's id exceeds every existing one. */
  lemma HandleSubmitKeepsIds(st: PageState)
    requires UniqueIds(st.branches)
    ensures UniqueIds(HandleSubmit(st).branches)
    ensures Editing(st) ==> forall i :: 0 <= i < |st.branches| ==>
      var b := HandleSubmit(st).branches[i];
      b.id == st.branches[i].id && b.products == st.branches[i].products &&
      b.staff == st.branches[i].staff && b.isActive == st.branches[i].isActive
    ensures !Editing(st) ==> forall i :: 0 <= i < |st.branches| ==>
      st.branches[i].id < HandleSubmit(st).branches[|st.branches|].id
  {
  }

  /** `handleEdit(branch)`: the form takes the branch's nine fields and is
      shown, editing that branch. */
  function HandleEdit(st: PageState, b: Branch): (r: PageState)
    ensures MergeForm(b, r.formData) == b
    ensures r.editingId == Some(b.id) && r.showAddForm && r.branches == st.branches
  {
    st.(editingId := Some(b.id), showAddForm := true,
      formData := BranchForm(b.name, b.branchType, b.address, b.city, b.state, b.pincode, b.phone, b.email, b.manager))
  }

  /** Opening a branch in the form and saving it unchanged leaves the list
      as it was and closes the form. */
  lemma EditThenSubmitUnchanged(st: PageState, k: int)
    requires UniqueIds(st.branches) && 0 <= k < |st.branches| && st.branches[k].id != 0
    ensures HandleSubmit(HandleEdit(st, st.branches[k])).branches == st.branches
    ensures HandleSubmit(HandleEdit(st, st.branches[k])).editingId == None
  {
    var r := HandleSubmit(HandleEdit(st, st.branches[k])).branches;
    assert forall i :: 0 <= i < |st.branches| ==> r[i] == st.branches[i];
  }

  /** `handleDelete(id)`: drops the branches with that id and clears the
      selection. */
  function HandleDelete(st: PageState, id: int): (r: PageState)
    ensures forall i :: 0 <= i < |r.branches| ==> r.branches[i].id != id && r.branches[i] in st.branches
    ensures forall i :: 0 <= i < |st.branches| && st.branches[i].id != id ==> st.branches[i] in r.branches
    ensures r.selectedBranch == None
  {
    st.(branches := Seqs.Filter(st.branches, (b: Branch) => b.id != id), selectedBranch := None)
  }

  /** `handleToggleActive(id)`. */
  function HandleToggleActive(branches: seq<Branch>, id: int): (r: seq<Branch>)
    ensures |r| == |branches|
    ensures forall i :: 0 <= i < |r| ==>
      r[i] == if branches[i].id == id then branches[i].(isActive := !branches[i].isActive) else branches[i]
  {
    seq(|branches|, i requires 0 <= i < |branches| =>
      if branches[i].id == id then branches[i].(isActive := !branches[i].isActive) else branches[i])
  }

  /** Toggling twice restores the list, and a toggle leaves the product and
      staff totals as they were. */
  lemma ToggleActiveEffect(branches: seq<Branch>, id: int)
    ensures HandleToggleActive(HandleToggleActive(branches, id), id) == branches
    ensures TotalProducts(HandleToggleActive(branches, id)) == TotalProducts(branches)
    ensures TotalStaff(HandleToggleActive(branches, id)) == TotalStaff(branches)
  {
    var once := HandleToggleActive(branches, id);
    assert forall i :: 0 <= i < |branches| ==> HandleToggleActive(once, id)[i] == branches[i];
    SameCounts(branches, once);
  }

  function ProductsOf(b: Branch): int { b.products }
  function StaffOf(b: Branch): int { b.staff }

  function TotalProducts(branches: seq<Branch>): int
  {
    Seqs.SumOf(branches, ProductsOf)
  }

  function TotalStaff(branches: seq<Branch>): int
  {
    Seqs.SumOf(branches, StaffOf)
  }

  lemma {:induction false} SameCounts(a: seq<Branch>, b: seq<Branch>)
    requires |a| == |b|
    requires forall i :: 0 <= i < |a| ==> a[i].products == b[i].products && a[i].staff == b[i].staff
    ensures TotalProducts(a) == TotalProducts(b) && TotalStaff(a) == TotalStaff(b)
  {
    if a != [] {
      SameCounts(a[1..], b[1..]);
    }
  }

  /** The header: total branches, active branches, total products and total
      staff. */
  datatype Stats = Stats(total: nat, active: nat, products: int, staff: int)

  function ComputeStats(branches: seq<Branch>): Stats
  {
    Stats(|branches|, |Seqs.Filter(branches, IsActive)|, TotalProducts(branches), TotalStaff(branches))
  }

  function IsActive(b: Branch): bool { b.isActive }

  /** Never more active branches than branches; adding a branch raises the
      total and the active count by one and leaves products and staff as
      they were. */
  lemma StatsFacts(st: PageState)
    ensures ComputeStats(st.branches).active <= ComputeStats(st.branches).total
    ensures !Editing(st) ==> var after := ComputeStats(HandleSubmit(st).branches);
      after.total == |st.branches| + 1 && after.active == ComputeStats(st.branches).active + 1
      && after.products == TotalProducts(st.branches) && after.staff == TotalStaff(st.branches)
  {
    if !Editing(st) {
      var nb := NewBranch(st.formData, NextId(st.branches));
      assert HandleSubmit(st).branches == st.branches + [nb];
      Seqs.FilterAppend(st.branches, [nb], IsActive);
      assert Seqs.Filter([nb], IsActive) == [nb];
      Seqs.SumOfAppend(st.branches, [nb], ProductsOf);
      Seqs.SumOfAppend(st.branches, [nb], StaffOf);
    }
  }
}
