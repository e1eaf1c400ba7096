/**
 * The routers (backend/routes/expenses.js, backend/routes/budgets.js): every
 * route first passes `protect` (a request without a valid token is refused) and
 * the admin-only routes then pass `authorize('admin')`. The middleware itself is
 * not part of this model; its two refusals are taken to answer 401 and 403.
 */
module Routes {
  import opened Wrappers
  import opened Auth
  import opened State
  import EM = ExpenseModel
  import BM = BudgetModel
  import EC = ExpenseController
  import BC = BudgetController

  datatype Access = AnyRole | AdminOnly

  /** The state-changing endpoints under /api/expenses and /api/budgets. */
  datatype Command =
    | SubmitExpense(submission: EC.Submission)                        // POST   /expenses
    | EditExpense(expenseId: EM.ExpenseId, expensePatch: EM.Patch)    // PUT    /expenses/:id
    | WithdrawExpense(expenseId: EM.ExpenseId)                        // DELETE /expenses/:id
    | ReviewExpense(expenseId: EM.ExpenseId, status: Option<string>,
                    notes: Option<string>)                            // PUT    /expenses/:id/status
    | AddBudget(request: BC.BudgetRequest)                            // POST   /budgets
    | EditBudget(budgetId: BM.BudgetId, budgetPatch: BM.Patch)        // PUT    /budgets/:id
    | RemoveBudget(budgetId: BM.BudgetId)                             // DELETE /budgets/:id

  /** Which routes carry `authorize('admin')`. */
  function CommandAccess(c: Command): (a: Access)
    ensures a == AnyRole <==> c.SubmitExpense? || c.EditExpense? || c.WithdrawExpense?
  {
    match c
    case SubmitExpense(_) => AnyRole
    case EditExpense(_, _) => AnyRole
    case WithdrawExpense(_) => AnyRole
    case ReviewExpense(_, _, _) => AdminOnly
    case AddBudget(_) => AdminOnly
    case EditBudget(_, _) => AdminOnly
    case RemoveBudget(_) => AdminOnly
  }

  /** `protect`, then `authorize('admin')` on an admin-only route. */
  function Admit(auth: Option<Caller>, access: Access): (r: Result<Caller, ErrKind>)
    ensures auth.None? ==> r == Err(Unauthorized)
    ensures auth.Some? && access == AdminOnly && auth.value.role != Admin ==> r == Err(Forbidden)
    ensures r.Ok? <==> auth.Some? && (access == AdminOnly ==> auth.value.role == Admin)
    ensures r.Ok? ==> r.value == auth.value
    ensures r.Err? ==> HttpStatus(r.error) in {401, 403}
  {
    if auth.None? then Err(Unauthorized)
    else if access == AdminOnly && auth.value.role != Admin then Err(Forbidden)
    else Ok(auth.value)
  }

  predicate NotAdmin(auth: Option<Caller>) {
    auth.None? || auth.value.role != Admin
  }

  /**
   * One state-changing request, gate and controller together. No route lets a
   * caller who is not an admin change any budget.
   */
  function Execute(auth: Option<Caller>, cmd: Command, st: Store, now: int): (r: Result<Store, ErrKind>)
    ensures auth.None? ==> r == Err(Unauthorized)
    ensures auth.Some? && auth.value.role == Employee && CommandAccess(cmd) == AdminOnly ==> r == Err(Forbidden)
    ensures NotAdmin(auth) && r.Ok? ==> r.value.budgets == st.budgets
    ensures Consistent(st) && r.Ok? ==> Consistent(r.value)
    ensures auth.Some? && cmd.SubmitExpense? ==> r == EC.CreateExpense(auth.value, cmd.submission, st, now)
    ensures auth.Some? && cmd.EditExpense? ==> r == EC.UpdateExpense(auth.value, cmd.expenseId, cmd.expensePatch, st)
    ensures auth.Some? && cmd.WithdrawExpense? ==> r == EC.DeleteExpense(auth.value, cmd.expenseId, st)
    ensures auth.Some? && auth.value.role == Admin && cmd.ReviewExpense? ==>
      r == EC.UpdateExpenseStatus(auth.value, cmd.expenseId, cmd.status, cmd.notes, st, now)
    ensures auth.Some? && auth.value.role == Admin && cmd.AddBudget? ==> r == BC.CreateBudget(auth.value, cmd.request, st)
    ensures auth.Some? && auth.value.role == Admin && cmd.EditBudget? ==> r == BC.UpdateBudget(cmd.budgetId, cmd.budgetPatch, st)
    ensures auth.Some? && auth.value.role == Admin && cmd.RemoveBudget? ==> r == BC.DeleteBudget(cmd.budgetId, st)
  {
    var caller :- Admit(auth, CommandAccess(cmd));
    match cmd
    case SubmitExpense(sub) => EC.CreateExpense(caller, sub, st, now)
    case EditExpense(id, patch) => EC.UpdateExpense(caller, id, patch, st)
    case WithdrawExpense(id) => EC.DeleteExpense(caller, id, st)
    case ReviewExpense(id, status, notes) =>
      EC.ReviewKeepsConsistent(caller, id, status, notes, st, now);
      EC.UpdateExpenseStatus(caller, id, status, notes, st, now)
    case AddBudget(req) => BC.CreateBudget(caller, req, st)
    case EditBudget(id, patch) => BC.UpdateBudget(id, patch, st)
    case RemoveBudget(id) => BC.DeleteBudget(id, st)
  }

  /** The store after one request; a refused or failed request changes nothing. */
  function Step(auth: Option<Caller>, cmd: Command, st: Store, now: int): (r: Store)
    ensures Execute(auth, cmd, st, now).Err? ==> r == st
    ensures Consistent(st) ==> Consistent(r)
    ensures NotAdmin(auth) ==> r.budgets == st.budgets
  {
    Settle(st, Execute(auth, cmd, st, now))
  }

  /** For an admin the status route is the controller's call, and a failed review changes nothing. */
  lemma AdminReviewIsControllerCall(admin: Caller, id: EM.ExpenseId, status: Option<string>, notes: Option<string>,
                                    st: Store, now: int)
    requires admin.role == Admin
    ensures Execute(Some(admin), ReviewExpense(id, status, notes), st, now)
         == EC.UpdateExpenseStatus(admin, id, status, notes, st, now)
    ensures Step(Some(admin), ReviewExpense(id, status, notes), st, now)
         == Settle(st, EC.UpdateExpenseStatus(admin, id, status, notes, st, now))
  {
    assert Admit(Some(admin), AdminOnly) == Ok(admin);
  }

  /**
   * Update and delete carry no role gate and the controller compares only the
   * owner: an employee and an admin with the same id get the same answer.
   */
  lemma OwnershipAloneGovernsEdits(id: UserId, cmd: Command, st: Store, now: int)
    requires cmd.EditExpense? || cmd.WithdrawExpense?
    ensures Execute(Some(Caller(id, Employee)), cmd, st, now) == Execute(Some(Caller(id, Admin)), cmd, st, now)
  {
  }

  /** In particular an admin cannot edit or delete an expense someone else owns. */
  lemma AdminCannotEditOthersExpense(admin: Caller, cmd: Command, st: Store, now: int)
    requires admin.role == Admin
    requires cmd.EditExpense? || cmd.WithdrawExpense?
    requires cmd.expenseId in st.expenses && st.expenses[cmd.expenseId].employee != admin.id
    ensures Execute(Some(admin), cmd, st, now) == Err(Forbidden)
    ensures Step(Some(admin), cmd, st, now) == st
  {
  }

  /** GET /expenses/:id: open to both roles; the controller restricts employees. */
  function ReadExpense(auth: Option<Caller>, id: EM.ExpenseId, st: Store): (r: Result<EM.Expense, ErrKind>)
    ensures auth.None? ==> r == Err(Unauthorized)
    ensures auth.Some? ==> r == EC.GetExpenseById(auth.value, id, st)
  {
    var caller :- Admit(auth, AnyRole);
    EC.GetExpenseById(caller, id, st)
  }

  /** GET /expenses: open to both roles; the controller restricts employees to their own. */
  method ListExpenses(auth: Option<Caller>, filter: Option<string>, st: Store)
    returns (r: Result<seq<(EM.ExpenseId, EM.Expense)>, ErrKind>)
    ensures auth.None? <==> r == Err(Unauthorized)
    ensures r.Ok? ==> EC.IdsOf(r.value) == set id | id in st.expenses && EC.Listed(auth.value, filter, st.expenses[id])
    ensures r.Ok? ==> EC.NewestFirst(r.value) && EC.DistinctIds(r.value)
  {
    if auth.None? {
      return Err(Unauthorized);
    }
    var listing := EC.GetExpenses(auth.value, filter, st);
    return Ok(listing);
  }

  /** GET /budgets: open to both roles. */
  function ReadBudgets(auth: Option<Caller>, st: Store): (r: Result<seq<BM.Budget>, ErrKind>)
    ensures auth.None? ==> r == Err(Unauthorized)
    ensures auth.Some? ==> r.Ok? && multiset(r.value) == multiset(st.budgets)
    ensures auth.Some? ==> r == Ok(BC.GetBudgets(st))
  {
    var _ :- Admit(auth, AnyRole);
    Ok(BC.GetBudgets(st))
  }

  /** GET /budgets/:id: open to both roles. */
  function ReadBudget(auth: Option<Caller>, id: BM.BudgetId, st: Store): (r: Result<BM.Budget, ErrKind>)
    ensures auth.None? ==> r == Err(Unauthorized)
    ensures auth.Some? ==> r == BC.GetBudgetById(id, st)
  {
    var _ :- Admit(auth, AnyRole);
    BC.GetBudgetById(id, st)
  }
}
