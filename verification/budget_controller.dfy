/**
 * The budget controller (backend/controllers/budgetController.js). None of its
 * handlers reads or writes an expense.
 */
module BudgetController {
  import opened Wrappers
  import opened Text
  import opened Categories
  import opened Auth
  import opened BudgetModel
  import opened State

  /** The body of a create request: only these three fields are read. */
  datatype BudgetRequest = BudgetRequest(category: Option<string>, totalAmount: Option<int>, period: Option<string>)

  /**
   * `Budget.findOne({ category })` with the request's string: true when a stored
   * budget carries exactly that name. A request without a category finds nothing.
   */
  function CategoryTaken(bs: seq<Budget>, category: Option<string>): (r: bool)
    ensures r <==> category.Some? && exists k :: 0 <= k < |bs| && Name(bs[k].category) == category.value
  {
    if category.None? then false
    else
      match Parse(category.value)
      case None => false
      case Some(c) => IndexOfCategory(bs, c).Some?
  }

  /**
   * `createBudget`: 400 when the category already has a budget; otherwise one
   * budget is appended, created by the caller, with nothing spent yet.
   */
  function CreateBudget(caller: Caller, req: BudgetRequest, st: Store): (r: Result<Store, ErrKind>)
    ensures CategoryTaken(st.budgets, req.category) ==> r == Err(BadRequest)
    ensures r.Ok? <==>
      && !CategoryTaken(st.budgets, req.category)
      && req.category.Some? && (exists c :: Name(c) == req.category.value)
      && req.totalAmount.Some? && req.totalAmount.value >= 0
      && req.period.Some? && ValidPeriod(Trim(req.period.value))
    ensures r.Err? ==> r.error in {BadRequest, ServerError}
    ensures r.Err? && !CategoryTaken(st.budgets, req.category) ==> r.error == ServerError
    ensures r.Ok? ==>
      && |r.value.budgets| == |st.budgets| + 1
      && r.value.budgets[..|st.budgets|] == st.budgets
      && r.value.expenses == st.expenses
      && r.value.nextId == st.nextId + 1
    ensures r.Ok? ==>
      var b := r.value.budgets[|st.budgets|];
      && b.id == st.nextId
      && b.createdBy == caller.id
      && b.spentAmount == 0
      && Name(b.category) == req.category.value
      && b.totalAmount == req.totalAmount.value
      && b.period == Trim(req.period.value)
    ensures Consistent(st) && r.Ok? ==> Consistent(r.value)
  {
    if CategoryTaken(st.budgets, req.category) then Err(BadRequest)
    else
      match Create(st.nextId, req.category, req.totalAmount, req.period, caller.id)
      case None => Err(ServerError)
      case Some(b) => Ok(AppendBudget(st, b))
  }

  /** The write of a successful create: the new budget goes last and uses up the fresh id. */
  function AppendBudget(st: Store, b: Budget): (r: Store)
    ensures |r.budgets| == |st.budgets| + 1 && r.budgets[..|st.budgets|] == st.budgets
    ensures r.budgets[|st.budgets|] == b
    ensures r.expenses == st.expenses && r.nextId == st.nextId + 1
    ensures Consistent(st) && Valid(b) && b.id == st.nextId
            && (forall k :: 0 <= k < |st.budgets| ==> st.budgets[k].category != b.category)
            ==> Consistent(r)
  {
    var budgets := st.budgets + [b];
    assert budgets[..|st.budgets|] == st.budgets;
    st.(budgets := budgets, nextId := st.nextId + 1)
  }

  /** Sorted and unique by category means strictly ascending category names. */
  lemma SortedUniqueNamesAscend(bs: seq<Budget>)
    requires SortedByCategory(bs) && UniqueCategories(bs)
    ensures forall i, j :: 0 <= i < j < |bs| ==> StrLess(Name(bs[i].category), Name(bs[j].category))
  {
    forall i, j | 0 <= i < j < |bs| ensures StrLess(Name(bs[i].category), Name(bs[j].category)) {
      var a, b := bs[i].category, bs[j].category;
      assert AtRank(Rank(a)) == a && AtRank(Rank(b)) == b;
      RankOrderIsNameOrder(a, b);
    }
  }

  /** `getBudgets`: every budget, in ascending order of the category string. */
  function GetBudgets(st: Store): (r: seq<Budget>)
    ensures multiset(r) == multiset(st.budgets)
    ensures UniqueCategories(st.budgets) ==>
      forall i, j :: 0 <= i < j < |r| ==> StrLess(Name(r[i].category), Name(r[j].category))
  {
    var r := SortByCategory(st.budgets);
    SortIsPermutation(st.budgets);
    if UniqueCategories(st.budgets) then
      SortKeepsUnique(st.budgets);
      SortedUniqueNamesAscend(r);
      r
    else r
  }

  /** `getBudgetById`: the budget with that id, or 404. */
  function GetBudgetById(id: BudgetId, st: Store): (r: Result<Budget, ErrKind>)
    ensures r.Err? <==> forall k :: 0 <= k < |st.budgets| ==> st.budgets[k].id != id
    ensures r.Err? ==> r.error == NotFound
    ensures r.Ok? ==> r.value in st.budgets && r.value.id == id
  {
    match IndexOfId(st.budgets, id)
    case None => Err(NotFound)
    case Some(i) => Ok(st.budgets[i])
  }

  /** The unique index refuses a write that gives budget i a category another budget has. */
  function ClashesWithOther(bs: seq<Budget>, i: nat, c: Category): (r: bool)
    requires i < |bs|
    ensures r <==> exists k :: 0 <= k < |bs| && k != i && bs[k].category == c
  {
    var before, after := IndexOfCategory(bs[..i], c), IndexOfCategory(bs[i + 1..], c);
    if before.Some? then
      assert bs[before.value] == bs[..i][before.value];
      true
    else if after.Some? then
      assert bs[i + 1 + after.value] == bs[i + 1..][after.value];
      true
    else
      assert forall k :: 0 <= k < i ==> bs[k] == bs[..i][k];
      assert forall k :: i < k < |bs| ==> bs[k] == bs[i + 1..][k - i - 1];
      false
  }

  /**
   * `updateBudget`: 404 for an unknown id; otherwise every field the body names
   * is overwritten, `spentAmount` included, in that budget alone. A failed
   * validator or a duplicate category answers 500.
   */
  function UpdateBudget(id: BudgetId, patch: Patch, st: Store): (r: Result<Store, ErrKind>)
    ensures (forall k :: 0 <= k < |st.budgets| ==> st.budgets[k].id != id) ==> r == Err(NotFound)
    ensures r.Err? ==> r.error in {NotFound, ServerError}
    ensures IndexOfId(st.budgets, id).Some? && r.Err? ==> r.error == ServerError
    ensures r.Ok? ==>
      var i := IndexOfId(st.budgets, id).value;
      && IndexOfId(st.budgets, id).Some?
      && ApplyPatch(st.budgets[i], patch).Some?
      && r.value.budgets == st.budgets[i := ApplyPatch(st.budgets[i], patch).value]
      && r.value.expenses == st.expenses
      && r.value.nextId == st.nextId
    ensures IndexOfId(st.budgets, id).Some? ==>
      var i := IndexOfId(st.budgets, id).value;
      r.Ok? <==> ApplyPatch(st.budgets[i], patch).Some?
                 && !ClashesWithOther(st.budgets, i, ApplyPatch(st.budgets[i], patch).value.category)
    ensures Consistent(st) && r.Ok? ==> Consistent(r.value)
  {
    match IndexOfId(st.budgets, id)
    case None => Err(NotFound)
    case Some(i) =>
      match ApplyPatch(st.budgets[i], patch)
      case None => Err(ServerError)
      case Some(b) =>
        if ClashesWithOther(st.budgets, i, b.category) then Err(ServerError)
        else Ok(st.(budgets := st.budgets[i := b]))
  }

  /** `deleteBudget`: 404 for an unknown id; otherwise exactly that budget disappears. */
  function DeleteBudget(id: BudgetId, st: Store): (r: Result<Store, ErrKind>)
    ensures r.Err? <==> forall k :: 0 <= k < |st.budgets| ==> st.budgets[k].id != id
    ensures r.Err? ==> r.error == NotFound
    ensures r.Ok? ==>
      var i := IndexOfId(st.budgets, id).value;
      && IndexOfId(st.budgets, id).Some?
      && r.value.budgets == RemoveAt(st.budgets, i)
      && r.value.expenses == st.expenses
      && r.value.nextId == st.nextId
    ensures Consistent(st) && r.Ok? ==> Consistent(r.value)
  {
    match IndexOfId(st.budgets, id)
    case None => Err(NotFound)
    case Some(i) => Ok(st.(budgets := RemoveAt(st.budgets, i)))
  }
}
