/**
 * The expense controller (backend/controllers/expenseController.js): each handler
 * is a side-effect free transition from a store to a new store or an error kind, or a query.
 * The caller is the identity the authentication middleware supplies; `now` is the
 * server clock at the time of the request.
 */
module ExpenseController {
  import opened Wrappers
  import opened Text
  import opened Categories
  import opened Auth
  import opened ExpenseModel
  import B = BudgetModel
  import opened State

  /**
   * The body of a create request: only these four fields are read. `date` is
   * None for every falsy value (absent, null, empty string, 0).
   */
  datatype Submission = Submission(amount: Option<int>, category: Option<string>,
                                   description: Option<string>, date: Option<int>)

  /** `createExpense`: a new pending expense owned by the caller, under a fresh id. */
  function CreateExpense(caller: Caller, sub: Submission, st: Store, now: int): (r: Result<Store, ErrKind>)
    ensures r.Err? ==> r.error == ServerError
    ensures r.Ok? <==>
      && sub.amount.Some? && ValidAmount(sub.amount.value)
      && sub.category.Some? && (exists c :: Name(c) == sub.category.value)
      && sub.description.Some? && ValidDescription(Trim(sub.description.value))
    ensures r.Ok? ==>
      && r.value.expenses.Keys == st.expenses.Keys + {st.nextId}
      && (forall id :: id in st.expenses && id != st.nextId ==> r.value.expenses[id] == st.expenses[id])
      && r.value.budgets == st.budgets
      && r.value.nextId == st.nextId + 1
    ensures r.Ok? ==>
      var e := r.value.expenses[st.nextId];
      && e.employee == caller.id
      && e.status == Pending
      && e.reviewedBy.None? && e.reviewedAt.None? && e.receiptUrl.None?
      && e.date == (if sub.date.Some? then sub.date.value else now)
      && e.createdAt == now
      && e.amount == sub.amount.value
      && Name(e.category) == sub.category.value
      && e.description == Trim(sub.description.value)
    ensures Consistent(st) && r.Ok? ==> Consistent(r.value) && st.nextId !in st.expenses
  {
    var e := Create(caller.id, sub.amount, sub.category, sub.description, sub.date.GetOr(now), now);
    if e.None? then Err(ServerError)
    else Ok(AddExpense(st, e.value))
  }

  /** Stores `e` under the next fresh id. */
  function AddExpense(st: Store, e: Expense): (r: Store)
    ensures r.expenses.Keys == st.expenses.Keys + {st.nextId} && r.expenses[st.nextId] == e
    ensures forall id :: id in st.expenses && id != st.nextId ==> r.expenses[id] == st.expenses[id]
    ensures r.budgets == st.budgets && r.nextId == st.nextId + 1
    ensures Consistent(st) && ExpenseModel.Valid(e) ==> Consistent(r) && st.nextId !in st.expenses
  {
    st.(expenses := st.expenses[st.nextId := e], nextId := st.nextId + 1)
  }

  /** Employees see only their own expenses; any other role sees all. */
  predicate Visible(caller: Caller, e: Expense) {
    caller.role != Employee || e.employee == caller.id
  }

  /** The optional `status` query filter; an absent or empty filter matches everything. */
  predicate MatchesFilter(filter: Option<string>, e: Expense) {
    filter.None? || filter.value == [] || StatusName(e.status) == filter.value
  }

  predicate Listed(caller: Caller, filter: Option<string>, e: Expense) {
    Visible(caller, e) && MatchesFilter(filter, e)
  }

  /** Newest `createdAt` first. */
  predicate NewestFirst(r: seq<(ExpenseId, Expense)>) {
    forall i, j :: 0 <= i < j < |r| ==> r[i].1.createdAt >= r[j].1.createdAt
  }

  /** The ids a listing contains. */
  function IdsOf(r: seq<(ExpenseId, Expense)>): set<ExpenseId> {
    if r == [] then {} else {r[0].0} + IdsOf(r[1..])
  }

  predicate DistinctIds(r: seq<(ExpenseId, Expense)>) {
    forall i, j :: 0 <= i < j < |r| ==> r[i].0 != r[j].0
  }

  lemma {:induction false} IdsOfIndex(r: seq<(ExpenseId, Expense)>, id: ExpenseId)
    ensures id in IdsOf(r) <==> exists k :: 0 <= k < |r| && r[k].0 == id
  {
    if r != [] {
      IdsOfIndex(r[1..], id);
      if id in IdsOf(r[1..]) {
        var k :| 0 <= k < |r| - 1 && r[1..][k].0 == id;
        assert r[k + 1].0 == id;
      }
      if exists k :: 0 <= k < |r| && r[k].0 == id {
        var k :| 0 <= k < |r| && r[k].0 == id;
        if k > 0 {
          assert r[1..][k - 1].0 == id;
        }
      }
    }
  }

  lemma DistinctCons(x: (ExpenseId, Expense), r: seq<(ExpenseId, Expense)>)
    ensures DistinctIds([x] + r) <==> DistinctIds(r) && x.0 !in IdsOf(r)
  {
    var xs := [x] + r;
    IdsOfIndex(r, x.0);
    if DistinctIds(xs) {
      forall k | 0 <= k < |r| ensures r[k].0 != x.0 {
        assert xs[0] == x && xs[k + 1] == r[k];
        assert xs[0].0 != xs[k + 1].0;
      }
      forall i, j | 0 <= i < j < |r| ensures r[i].0 != r[j].0 {
        assert xs[i + 1] == r[i] && xs[j + 1] == r[j];
      }
    }
    if DistinctIds(r) && x.0 !in IdsOf(r) {
      forall i, j | 0 <= i < j < |xs| ensures xs[i].0 != xs[j].0 {
        assert xs[j] == r[j - 1];
        if i > 0 {
          assert xs[i] == r[i - 1];
        }
      }
    }
  }

  /** Inserts one entry into a newest-first listing. */
  function InsertNewest(x: (ExpenseId, Expense), r: seq<(ExpenseId, Expense)>): (q: seq<(ExpenseId, Expense)>)
    requires NewestFirst(r)
    ensures NewestFirst(q)
    ensures forall k :: 0 <= k < |q| ==> q[k] == x || q[k] in r
  {
    if r == [] || x.1.createdAt >= r[0].1.createdAt then [x] + r
    else
      var rest := InsertNewest(x, r[1..]);
      assert forall k :: 0 <= k < |rest| ==> rest[k] == x || rest[k] in r;
      [r[0]] + rest
  }

  lemma {:induction false} InsertNewestIds(x: (ExpenseId, Expense), r: seq<(ExpenseId, Expense)>)
    requires NewestFirst(r)
    ensures IdsOf(InsertNewest(x, r)) == IdsOf(r) + {x.0}
    ensures DistinctIds(r) && x.0 !in IdsOf(r) ==> DistinctIds(InsertNewest(x, r))
  {
    var q := InsertNewest(x, r);
    if r == [] || x.1.createdAt >= r[0].1.createdAt {
      assert q == [x] + r && q[1..] == r;
      DistinctCons(x, r);
    } else {
      var tail := r[1..];
      var rest := InsertNewest(x, tail);
      InsertNewestIds(x, tail);
      assert q == [r[0]] + rest && q[1..] == rest;
      assert r == [r[0]] + tail;
      DistinctCons(r[0], tail);
      DistinctCons(r[0], rest);
    }
  }

  /** The ids of the listed expenses outside `pending`. */
  function ListedOutside(caller: Caller, filter: Option<string>, st: Store, pending: set<ExpenseId>): set<ExpenseId> {
    set id | id in st.expenses && id !in pending && Listed(caller, filter, st.expenses[id])
  }

  /** Taking one id out of `pending` adds it to the listed ids exactly when it is listed. */
  lemma ListedOutsideStep(caller: Caller, filter: Option<string>, st: Store, pending: set<ExpenseId>, id: ExpenseId)
    requires id in pending && id in st.expenses
    ensures Listed(caller, filter, st.expenses[id]) ==>
      ListedOutside(caller, filter, st, pending - {id}) == ListedOutside(caller, filter, st, pending) + {id}
    ensures !Listed(caller, filter, st.expenses[id]) ==>
      ListedOutside(caller, filter, st, pending - {id}) == ListedOutside(caller, filter, st, pending)
  {
  }

  /**
   * `getExpenses`: every expense the caller may see and the filter admits,
   * each once, newest first.
   */
  method GetExpenses(caller: Caller, filter: Option<string>, st: Store) returns (r: seq<(ExpenseId, Expense)>)
    ensures forall k :: 0 <= k < |r| ==> r[k].0 in st.expenses && st.expenses[r[k].0] == r[k].1
    ensures IdsOf(r) == set id | id in st.expenses && Listed(caller, filter, st.expenses[id])
    ensures DistinctIds(r)
    ensures NewestFirst(r)
  {
    var todo := st.expenses.Keys;
    r := [];
    while todo != {}
      invariant todo <= st.expenses.Keys
      invariant forall p :: p in r ==> p.0 in st.expenses && st.expenses[p.0] == p.1
      invariant IdsOf(r) == ListedOutside(caller, filter, st, todo)
      invariant DistinctIds(r)
      invariant NewestFirst(r)
      decreases |todo|
    {
      var id :| id in todo;
      var e := st.expenses[id];
      ListedOutsideStep(caller, filter, st, todo, id);
      if Listed(caller, filter, e) {
        InsertNewestIds((id, e), r);
        r := InsertNewest((id, e), r);
      }
      todo := todo - {id};
    }
    assert ListedOutside(caller, filter, st, {}) == set id | id in st.expenses && Listed(caller, filter, st.expenses[id]);
    forall k | 0 <= k < |r| ensures r[k].0 in st.expenses && st.expenses[r[k].0] == r[k].1 {
      assert r[k] in r;
    }
  }

  /** `getExpenseById`: 404 for an unknown id, then 403 for an employee reading another user's expense. */
  function GetExpenseById(caller: Caller, id: ExpenseId, st: Store): (r: Result<Expense, ErrKind>)
    ensures id !in st.expenses ==> r == Err(NotFound)
    ensures id in st.expenses && caller.role == Employee && st.expenses[id].employee != caller.id
            ==> r == Err(Forbidden)
    ensures r.Ok? <==> id in st.expenses && Visible(caller, st.expenses[id])
    ensures r.Ok? ==> r.value == st.expenses[id]
  {
    if id !in st.expenses then Err(NotFound)
    else if caller.role == Employee && st.expenses[id].employee != caller.id then Err(Forbidden)
    else Ok(st.expenses[id])
  }

  /**
   * The guard `updateExpense` and `deleteExpense` share: 404, then 403 for any
   * caller who is not the owner whatever their role, then 400 unless pending.
   */
  function OwnerPendingGuard(caller: Caller, id: ExpenseId, st: Store): (r: Option<ErrKind>)
    ensures id !in st.expenses ==> r == Some(NotFound)
    ensures id in st.expenses && st.expenses[id].employee != caller.id ==> r == Some(Forbidden)
    ensures id in st.expenses && st.expenses[id].employee == caller.id && st.expenses[id].status != Pending
            ==> r == Some(BadRequest)
    ensures r.None? <==> id in st.expenses && st.expenses[id].employee == caller.id
                         && st.expenses[id].status == Pending
  {
    if id !in st.expenses then Some(NotFound)
    else if st.expenses[id].employee != caller.id then Some(Forbidden)
    else if st.expenses[id].status != Pending then Some(BadRequest)
    else None
  }

  /**
   * `updateExpense`: after the guard, the request body is applied as it stands,
   * `status` included, to that one expense; no budget is touched.
   */
  function UpdateExpense(caller: Caller, id: ExpenseId, patch: Patch, st: Store): (r: Result<Store, ErrKind>)
    ensures OwnerPendingGuard(caller, id, st).Some? ==> r == Err(OwnerPendingGuard(caller, id, st).value)
    ensures OwnerPendingGuard(caller, id, st).None? ==> (r.Ok? <==> PatchAdmissible(patch))
    ensures OwnerPendingGuard(caller, id, st).None? && r.Err? ==> r.error == ServerError
    ensures r.Ok? ==>
      && id in st.expenses
      && r.value.expenses.Keys == st.expenses.Keys
      && ApplyPatch(st.expenses[id], patch).Some?
      && r.value.expenses == st.expenses[id := ApplyPatch(st.expenses[id], patch).value]
      && r.value.budgets == st.budgets
      && r.value.nextId == st.nextId
    ensures Consistent(st) && r.Ok? ==> Consistent(r.value)
  {
    var g := OwnerPendingGuard(caller, id, st);
    if g.Some? then Err(g.value)
    else
      match ApplyPatch(st.expenses[id], patch)
      case None => Err(ServerError)
      case Some(e) => Ok(st.(expenses := st.expenses[id := e]))
  }

  /** `deleteExpense`: after the same guard, exactly that expense disappears. */
  function DeleteExpense(caller: Caller, id: ExpenseId, st: Store): (r: Result<Store, ErrKind>)
    ensures OwnerPendingGuard(caller, id, st).Some? ==> r == Err(OwnerPendingGuard(caller, id, st).value)
    ensures OwnerPendingGuard(caller, id, st).None? ==> r.Ok?
    ensures r.Ok? ==>
      && id in st.expenses && id !in r.value.expenses
      && r.value.expenses.Keys == st.expenses.Keys - {id}
      && (forall other :: other in r.value.expenses ==> r.value.expenses[other] == st.expenses[other])
      && r.value.budgets == st.budgets
      && r.value.nextId == st.nextId
    ensures Consistent(st) && r.Ok? ==> Consistent(r.value)
  {
    var g := OwnerPendingGuard(caller, id, st);
    if g.Some? then Err(g.value)
    else Ok(st.(expenses := st.expenses - {id}))
  }

  /** The status check of `updateExpenseStatus`: only "approved" and "rejected" pass. */
  function ParseDecision(status: Option<string>): (r: Option<Status>)
    ensures r.Some? <==> status.Some? && (status.value == "approved" || status.value == "rejected")
    ensures r.Some? ==> r.value != Pending && StatusName(r.value) == status.value
  {
    if status == Some("approved") then Some(Approved)
    else if status == Some("rejected") then Some(Rejected)
    else None
  }

  /** The two names the status route accepts, parsed. */
  lemma DecisionNames()
    ensures ParseDecision(Some("approved")) == Some(Approved)
    ensures ParseDecision(Some("rejected")) == Some(Rejected)
  {
    assert "rejected"[0] != "approved"[0];
  }

  /**
   * The debit of an approval: the first budget of the category (the only one,
   * under the unique index) has the amount added to its spending; with no such
   * budget nothing changes.
   */
  function DebitCategory(bs: seq<B.Budget>, c: Category, amount: int): (r: seq<B.Budget>)
    ensures |r| == |bs|
    ensures forall k :: 0 <= k < |r| ==> r[k].id == bs[k].id && r[k].category == bs[k].category
    ensures amount > 0 ==> forall k :: 0 <= k < |r| ==> B.Valid(bs[k]) ==> B.Valid(r[k])
    ensures B.IndexOfCategory(bs, c).None? ==> r == bs
    ensures B.IndexOfCategory(bs, c).Some? ==>
      var i := B.IndexOfCategory(bs, c).value;
      r == bs[i := B.Debit(bs[i], amount)]
  {
    match B.IndexOfCategory(bs, c)
    case None => bs
    case Some(i) => bs[i := B.Debit(bs[i], amount)]
  }

  /** The writes of a successful review, taken as one atomic step. */
  function RecordReview(st: Store, id: ExpenseId, decision: Status, reviewed: Expense): (r: Store)
    requires id in st.expenses
    ensures r.expenses == st.expenses[id := reviewed] && r.nextId == st.nextId
    ensures decision != Approved ==> r.budgets == st.budgets
    ensures decision == Approved ==>
      r.budgets == DebitCategory(st.budgets, st.expenses[id].category, st.expenses[id].amount)
    ensures Consistent(st) && ExpenseModel.Valid(reviewed) ==> Consistent(r)
  {
    var e := st.expenses[id];
    var budgets := if decision == Approved then DebitCategory(st.budgets, e.category, e.amount) else st.budgets;
    st.(expenses := st.expenses[id := reviewed], budgets := budgets)
  }

  /**
   * `updateExpenseStatus`: the status is checked before the lookup; the review
   * fields are set whatever the current status; an approval debits the budget of
   * the expense's category. The expense and the budget are written as one step.
   */
  function UpdateExpenseStatus(caller: Caller, id: ExpenseId, status: Option<string>, notes: Option<string>,
                               st: Store, now: int): (r: Result<Store, ErrKind>)
    ensures ParseDecision(status).None? ==> r == Err(BadRequest)
    ensures ParseDecision(status).Some? && id !in st.expenses ==> r == Err(NotFound)
    ensures r.Ok? <==> ParseDecision(status).Some? && id in st.expenses
                       && Utf16Length(Trim(notes.GetOr(""))) <= MaxTextLength
    ensures r.Err? ==> r.error in {BadRequest, NotFound, ServerError}
    ensures ParseDecision(status).Some? && id in st.expenses && r.Err? ==> r.error == ServerError
    ensures r.Ok? ==>
      && id in st.expenses
      && Review(st.expenses[id], ParseDecision(status).value, caller.id, notes.GetOr(""), now).Some?
      && r.value.expenses
         == st.expenses[id := Review(st.expenses[id], ParseDecision(status).value, caller.id, notes.GetOr(""), now).value]
      && r.value.nextId == st.nextId
    ensures r.Ok? ==>
      var e := st.expenses[id];
      && (status == Some("rejected") ==> r.value.budgets == st.budgets)
      && (B.IndexOfCategory(st.budgets, e.category).None? ==> r.value.budgets == st.budgets)
      && (status == Some("approved") && B.IndexOfCategory(st.budgets, e.category).Some? ==>
            var i := B.IndexOfCategory(st.budgets, e.category).value;
            r.value.budgets == st.budgets[i := B.Debit(st.budgets[i], e.amount)])
  {
    var decision := ParseDecision(status);
    if decision.None? then Err(BadRequest)
    else if id !in st.expenses then Err(NotFound)
    else
      var reviewed := Review(st.expenses[id], decision.value, caller.id, notes.GetOr(""), now);
      if reviewed.None? then Err(ServerError)
      else Ok(RecordReview(st, id, decision.value, reviewed.value))
  }

  /** A review keeps the store consistent: the reviewed expense stays valid and a debit keeps every budget valid. */
  lemma ReviewKeepsConsistent(caller: Caller, id: ExpenseId, status: Option<string>, notes: Option<string>,
                              st: Store, now: int)
    ensures var r := UpdateExpenseStatus(caller, id, status, notes, st, now);
      Consistent(st) && r.Ok? ==> Consistent(r.value)
  {
    var decision := ParseDecision(status);
    if Consistent(st) && decision.Some? && id in st.expenses {
      var reviewed := Review(st.expenses[id], decision.value, caller.id, notes.GetOr(""), now);
      if reviewed.Some? {
        assert Valid(reviewed.value);
      }
    }
  }

  /**
   * Approving an expense whose category has a budget (the index is unique, so
   * the budget is the only match) always succeeds when the notes fit, whatever
   * the expense's current status, and adds the amount to that budget alone.
   */
  lemma ApprovalOutcome(caller: Caller, id: ExpenseId, notes: Option<string>, st: Store, now: int, i: nat)
    requires B.UniqueCategories(st.budgets) && Utf16Length(Trim(notes.GetOr(""))) <= MaxTextLength
    requires id in st.expenses && i < |st.budgets| && st.budgets[i].category == st.expenses[id].category
    ensures var r := UpdateExpenseStatus(caller, id, Some("approved"), notes, st, now);
      && r.Ok? && id in r.value.expenses
      && r.value.expenses[id].status == Approved
      && r.value.expenses[id].employee == st.expenses[id].employee
      && r.value.expenses[id].amount == st.expenses[id].amount
      && r.value.expenses[id].category == st.expenses[id].category
      && r.value.budgets == st.budgets[i := B.Debit(st.budgets[i], st.expenses[id].amount)]
  {
    DecisionNames();
    B.OnlyMatch(st.budgets, st.expenses[id].category, i);
  }

  /** Rejecting succeeds when the notes fit, whatever the current status, and touches no budget. */
  lemma RejectionOutcome(caller: Caller, id: ExpenseId, notes: Option<string>, st: Store, now: int)
    requires id in st.expenses && Utf16Length(Trim(notes.GetOr(""))) <= MaxTextLength
    ensures var r := UpdateExpenseStatus(caller, id, Some("rejected"), notes, st, now);
      && r.Ok? && id in r.value.expenses
      && r.value.expenses[id].status == Rejected
      && r.value.expenses[id].employee == st.expenses[id].employee
      && r.value.budgets == st.budgets
  {
    DecisionNames();
  }
}
