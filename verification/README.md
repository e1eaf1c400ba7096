# SpendWise expense workflow and budget accounting, in Dafny

SpendWise is a small expense-tracking service. Employees submit expense
claims, administrators approve or reject them, and each approval adds the
claimed amount to the spending of the budget for the same category. This
project models the service's backend core:

- the Expense and Budget schemas: fields, defaults, the `trim` setters, the
  validators, the unique index on a budget's category, and the
  `remainingAmount` virtual;
- the six handlers of the expense controller and the five of the budget
  controller;
- the two routers: authentication on every route, and the admin-only gate
  on some of them.

Every handler is side-effect free. It maps a document `Store` to a new store
or to an error kind (`ErrKind`). Queries return the documents read. A failed
request leaves the store unchanged (`State.Settle`). `Routes.Execute` puts a
router's gates in front of the controller call. `Workflow.Run` replays a
sequence of requests.

Modelling choices:

- Amounts are integer paise. The schema minimum of 0.01 is therefore 1.
- `maxlength` counts UTF-16 code units (`Text.Utf16Length`).
- `trim` is JavaScript's `String.prototype.trim`, with the full whitespace set (`Text.IsJsSpace`).
- Budgets are a sequence in insertion order, so `findOne` returns the first match.
- Expenses are a map from id to document. Ids come from one counter, `nextId`.
- `State.Consistent` is the invariant every store the model can reach satisfies: all validators hold, ids are fresh, and the category index is unique. It is an invariant of the model, not of the service: request bodies carrying update operators can break it there (see "## Left out").

The model proves the behaviours the code actually has:

- **Re-review.** `updateExpenseStatus` has no pending check.
  - Approving the same expense twice debits its budget twice (`Reviews.ReapprovalDebitsTwice`).
  - Rejecting an approved expense refunds nothing (`Reviews.RejectionAfterApprovalKeepsDebit`).
  - No request outside budget administration ever lowers a budget's spending (`Workflow.NoRefunds`).
- **Self-approval.** `updateExpense` applies the request body as it stands, `status` included.
  - The owner of a pending expense can mark it approved, and no budget is debited (`Workflow.OwnerSelfApprovalSkipsDebit`).
- **Ownership over role.** The update and delete handlers compare only the owner, for admins too.
  - An admin cannot edit or delete someone else's expense (`Routes.AdminCannotEditOthersExpense`).
  - An employee and an admin with the same id get the same answer (`Routes.OwnershipAloneGovernsEdits`).

Error kinds and edits, as the controllers implement them:

- Validation and duplicate-key failures answer 500 (`ErrKind.ServerError`): they reach the controllers' catch-all (budgetController.js:32-36, expenseController.js:159-164).
- A reviewed expense can be reviewed again: `updateExpenseStatus` checks only the requested status (expenseController.js:222-227).
- An owner's update may overwrite `employee`, `status` and the review fields: the request body is applied as it stands (expenseController.js:150-153).

## Model

| member | source | states |
|---|---|---|
| Text.Trim | backend/models/Expense.js:27-32 | the `trim` setter's result starts and ends with a non-space and is no longer than its input |
| Text.TrimIsInfix | backend/models/Expense.js:27-32 | trimming removes only whitespace, and only at the two ends: the result is a contiguous stretch of the input with spaces on either side |
| Text.TrimEmptyIffAllSpace | backend/models/Expense.js:27-32 | a value trims to the empty string exactly when it is all whitespace, so `required` refuses a blank description |
| Text.TrimmedIsFixed | backend/models/Budget.js:28-33 | the `trim` setter changes nothing in an already trimmed value |
| Text.Utf16Length | backend/models/Expense.js:31 | the length `maxlength` measures lies between the code-point count and twice that count |
| Categories.Parse | backend/models/Expense.js:19-26 | the category enum admits a string exactly when it spells one of the seven names |
| Categories.ParseName | backend/models/Budget.js:12-16 | the seven names are distinct: parsing a stored name gives back its category |
| Categories.RankOrderIsNameOrder | backend/controllers/budgetController.js:47 | ordering categories by rank is exactly the string order `sort('category')` uses |
| ExpenseModel.ParseStatus | backend/models/Expense.js:38-42 | the status enum admits exactly "pending", "approved" and "rejected" |
| ExpenseModel.CastDescription | backend/models/Expense.js:27-32 | a description is accepted exactly when its trimmed value is non-empty and at most 500 code units, and the trimmed value is stored |
| ExpenseModel.CastNotes | backend/models/Expense.js:56-60 | review notes are accepted exactly when their trimmed value is at most 500 code units, and the trimmed value is stored |
| ExpenseModel.Create | backend/models/Expense.js:9-60 | creation succeeds exactly when amount, category and description pass their validators; the document is valid, pending, unreviewed, and carries the given fields |
| ExpenseModel.ApplyPatch | backend/controllers/expenseController.js:150-153 | an update succeeds exactly when every present field passes its validator; present fields (status and employee included) replace the stored ones, absent ones are kept, validity is preserved |
| ExpenseModel.Review | backend/controllers/expenseController.js:239-244 | a review sets status, reviewer, time and trimmed notes and nothing else; it fails exactly when the notes are too long |
| BudgetModel.OverspentBudgetIsValid | backend/models/Budget.js:18-27 | no validator ties spending to the allocation: a valid budget may have negative remaining amount |
| BudgetModel.DebitCanOverspend | backend/controllers/expenseController.js:247-253 | an approval's debit larger than what remains leaves a valid budget with a negative remaining amount: nothing checks spending against the allocation |
| BudgetModel.CastPeriod | backend/models/Budget.js:28-33 | a period is accepted exactly when its trimmed value is non-empty, and the trimmed value is stored |
| BudgetModel.Create | backend/models/Budget.js:9-39 | creation succeeds exactly when category, total and period pass their validators; spending starts at 0, so the remaining amount is the total |
| BudgetModel.ApplyPatch | backend/controllers/budgetController.js:109-112 | an update succeeds exactly when every present field passes its validator; present fields, `spentAmount` included, overwrite the stored ones; validity is preserved |
| BudgetModel.Remaining | backend/models/Budget.js:46-48 | the `remainingAmount` virtual, total minus spent; its behaviour is stated through `BudgetModel.Create` (remaining equals the total), `BudgetModel.Debit` (a debit lowers it by the amount) and `BudgetModel.DebitCanOverspend` |
| BudgetModel.Debit | backend/controllers/expenseController.js:250 | an approval's debit adds the amount to spending, lowers the remaining amount by it, and changes nothing else |
| BudgetModel.DebitKeepsUnique | backend/models/Budget.js:12 | a debit in place keeps the category index unique |
| BudgetModel.IndexOfCategory | backend/controllers/expenseController.js:248 | `findOne` by category finds the first budget of that category, or reports that none has it |
| BudgetModel.IndexOfId | backend/controllers/budgetController.js:100 | `findById` finds the budget with that id, or reports that none has it |
| BudgetModel.OnlyMatch | backend/models/Budget.js:12 | under the unique index, the budget `findOne` finds is the only one of its category |
| BudgetModel.RemoveAt | backend/controllers/budgetController.js:142 | deleting one budget keeps the others in order and keeps both indexes unique |
| BudgetModel.InsertByCategory | backend/controllers/budgetController.js:47 | inserting into a category-sorted list keeps it sorted and adds one element |
| BudgetModel.InsertIsPermutation | backend/controllers/budgetController.js:47 | insertion adds exactly the new budget: same multiset plus one |
| BudgetModel.SortByCategory | backend/controllers/budgetController.js:47 | the sorted listing is ordered by category and as long as the input |
| BudgetModel.SortIsPermutation | backend/controllers/budgetController.js:47 | sorting neither loses nor invents a budget |
| BudgetModel.SortKeepsCategories | backend/controllers/budgetController.js:47 | sorting keeps the set of categories |
| BudgetModel.SortKeepsUnique | backend/controllers/budgetController.js:47 | sorting keeps the category index unique |
| BudgetController.CategoryTaken | backend/controllers/budgetController.js:13 | the duplicate check finds a budget exactly when one carries the requested category name |
| BudgetController.CreateBudget | backend/controllers/budgetController.js:10-37 | 400 when the category has a budget; otherwise success exactly when the validators pass (500 if not); one budget is appended, created by the caller with nothing spent; consistency is preserved |
| BudgetController.AppendBudget | backend/controllers/budgetController.js:21-26 | the created budget goes last under the fresh id and keeps the store consistent when its category is new |
| BudgetController.GetBudgets | backend/controllers/budgetController.js:47 | the listing holds every budget exactly once, in strictly ascending category name |
| BudgetController.GetBudgetById | backend/controllers/budgetController.js:69-84 | 404 exactly when no budget has the id; otherwise that budget |
| BudgetController.ClashesWithOther | backend/models/Budget.js:12 | the unique index refuses a category exactly when another budget already has it |
| BudgetController.UpdateBudget | backend/controllers/budgetController.js:100-122 | 404 for an unknown id; otherwise success exactly when the patch validates and keeps the index unique, and 500 if not; only that budget changes; consistency is preserved |
| BudgetController.DeleteBudget | backend/controllers/budgetController.js:133-147 | 404 exactly when no budget has the id; otherwise exactly that budget is removed |
| ExpenseController.CreateExpense | backend/controllers/expenseController.js:11-33 | success exactly when the validators pass (500 if not); the new expense is pending, owned by the caller, dated `date` or now, under a fresh id; nothing else changes; consistency is preserved |
| ExpenseController.AddExpense | backend/controllers/expenseController.js:13-19 | the created expense is stored under the fresh id, and every other document is unchanged |
| ExpenseController.InsertNewest | backend/controllers/expenseController.js:61 | inserting into a newest-first listing keeps it newest first and adds only the new entry |
| ExpenseController.InsertNewestIds | backend/controllers/expenseController.js:61 | insertion adds exactly one id and keeps the ids distinct |
| ExpenseController.Visible | backend/controllers/expenseController.js:47-51 | an employee sees only their own expenses and any other role sees all; the same test guards a single read (expenseController.js:95-97, stated by `ExpenseController.GetExpenseById`) |
| ExpenseController.MatchesFilter | backend/controllers/expenseController.js:54-56 | an absent or empty `status` query matches every expense, any other value only expenses whose status has that exact name |
| ExpenseController.GetExpenses | backend/controllers/expenseController.js:47-61 | the listing holds exactly the stored expenses the caller may see and the status filter admits, each once, newest first |
| ExpenseController.GetExpenseById | backend/controllers/expenseController.js:83-108 | 404 for an unknown id, 403 for an employee reading another user's expense, otherwise the expense |
| ExpenseController.OwnerPendingGuard | backend/controllers/expenseController.js:126-147 | 404, then 403 for any caller who is not the owner whatever the role, then 400 unless pending; passes exactly for the owner of a pending expense |
| ExpenseController.UpdateExpense | backend/controllers/expenseController.js:124-158 | after the guard, success exactly when the patch validates (500 if not); only that expense changes, as the patch says; budgets are untouched; consistency is preserved |
| ExpenseController.DeleteExpense | backend/controllers/expenseController.js:174-204 | after the same guard, exactly that expense is removed and nothing else changes |
| ExpenseController.ParseDecision | backend/controllers/expenseController.js:222-227 | the status check passes exactly "approved" and "rejected" |
| ExpenseController.DecisionNames | backend/controllers/expenseController.js:222 | the two accepted names parse to the two decisions |
| ExpenseController.DebitCategory | backend/controllers/expenseController.js:247-253 | the first budget of the category is debited; with none, nothing changes; ids, categories and validity are kept |
| ExpenseController.RecordReview | backend/controllers/expenseController.js:239-253 | the reviewed expense replaces the stored one; only an approval touches budgets; consistency is preserved |
| ExpenseController.UpdateExpenseStatus | backend/controllers/expenseController.js:218-267 | 400 for a bad status before any lookup, then 404; success exactly when the notes fit, whatever the current status, and 500 when they do not; an approval debits the category's budget and a rejection leaves budgets alone |
| ExpenseController.ReviewKeepsConsistent | backend/controllers/expenseController.js:238-253 | a successful review keeps the store consistent |
| ExpenseController.ApprovalOutcome | backend/controllers/expenseController.js:218-253 | approving any expense whose category has a budget succeeds whatever its status and debits that budget alone |
| ExpenseController.RejectionOutcome | backend/controllers/expenseController.js:218-247 | rejecting any expense succeeds whatever its status and touches no budget |
| Routes.CommandAccess | backend/routes/budgets.js:17-24 | exactly creating, editing and withdrawing an expense are open to any role; reviewing (routes/expenses.js:28) and every budget write are admin-only |
| Routes.Admit | backend/routes/budgets.js:14-24 | 401 without an authenticated caller, 403 for a non-admin on an admin-only route, otherwise the caller; the gates answer no other status |
| Routes.Execute | backend/routes/expenses.js:15-28 | every request passes the gates first; an authenticated caller reaches the expense create, update and delete handlers, and an admin reaches the review and budget handlers, getting exactly the controller's answer; no request by a non-admin changes a budget; consistency is preserved |
| Routes.Step | backend/routes/expenses.js:15-28 | a refused or failed request leaves the store as it was |
| Routes.AdminReviewIsControllerCall | backend/routes/expenses.js:28 | for an admin, the status route is exactly the controller's call |
| Routes.OwnershipAloneGovernsEdits | backend/controllers/expenseController.js:133-139 | update and delete give an employee and an admin with the same id the same answer |
| Routes.AdminCannotEditOthersExpense | backend/controllers/expenseController.js:183-189 | an admin editing or deleting someone else's expense gets 403 and changes nothing |
| Routes.ReadExpense | backend/routes/expenses.js:22-23 | reading one expense is open to both roles once authenticated |
| Routes.ListExpenses | backend/routes/expenses.js:18-20 | the listing is open to both roles once authenticated and lists exactly what the controller lists |
| Routes.ReadBudgets | backend/routes/budgets.js:17-19 | the budget list is open to both roles once authenticated and is exactly the controller's listing: every budget once, in ascending category name |
| Routes.ReadBudget | backend/routes/budgets.js:21-22 | reading one budget is open to both roles once authenticated |
| State.Consistent | backend/models/Budget.js:9-38 | the invariant of every store the model reaches: every expense and budget passes its validators, every id is below the fresh-id counter, and categories and ids of budgets are unique |
| Workflow.RunKeepsConsistent | backend/models/Budget.js:9-33 | every store reachable from a consistent one by any sequence of requests is consistent |
| Workflow.NonAdminTraceKeepsBudgets | backend/routes/budgets.js:17-24 | requests by non-admins never change a budget, however many there are |
| Workflow.StepOnlyAddsSpending | backend/controllers/expenseController.js:247-253 | outside budget administration a request only ever raises budgets' spending |
| Workflow.NoRefunds | backend/controllers/expenseController.js:239-253 | no sequence of requests outside budget administration lowers any budget's spending |
| Workflow.OwnerSelfApprovalSkipsDebit | backend/controllers/expenseController.js:150-153 | the owner of a pending expense can set it approved through the update route, without a reviewer and without any debit |
| Workflow.ReviewedExpenseIsLocked | backend/controllers/expenseController.js:141-147 | once reviewed, the owner's edit or delete is refused with 400 and the store is unchanged |
| Reviews.ReapprovalDebitsTwice | backend/controllers/expenseController.js:229-253 | approving the same expense twice succeeds both times and debits its budget twice |
| Reviews.RejectionAfterApprovalKeepsDebit | backend/controllers/expenseController.js:239-253 | rejecting an approved expense succeeds and gives nothing back to the budget |
| Reviews.TravelStartConsistent | backend/models/Budget.js:9-33 | the example store satisfies every validator |
| Reviews.TravelExample | backend/controllers/expenseController.js:247-253 | approving a 300.00 Travel expense against a 1000.00 Travel budget leaves 300.00 spent and 700.00 remaining, and the employee can no longer edit it |

## Left out

- The authentication middleware (`middleware/auth.js`) is not part of this model. Its refusals are taken to answer 401 (no valid token) and 403 (wrong role).
- The User model is not modelled. Callers are an id and a role supplied by the middleware.
- `populate` is not modelled. It joins user names and emails into responses; the one place where it also changes an outcome is the next line.
- ExpenseController.GetExpenseById: does not model the 500 an employee gets when the expense's `employee` refers to no existing user. The ownership check reads the populated reference (expenseController.js:97), which is null for a dangling id, so the access throws and the catch-all answers 500 (expenseController.js:109-113); the model answers 403. The state is reachable because an owner may patch `employee` to any id (expenseController.js:150).
- Response envelopes, messages and `count` are not modelled. The model keeps only the status kind and the data returned.
- Atomicity is idealised.
  - The source saves the reviewed expense and the debited budget in two separate writes, with no locking.
  - The model makes each handler one atomic step, so races between concurrent requests are not modelled.
  - A budget save that fails after the expense was saved cannot happen from a consistent store, because a debit keeps a valid budget valid.
- Floating-point amounts are replaced by integer paise, so rounding is not modelled.
- Dates are integers. The server clock is a parameter `now`.
- The `createdAt`/`updatedAt` timestamps: only `createdAt` is kept, for sorting; `updatedAt` is left out.
- Two expenses with the same `createdAt` may be listed in either order.
- ExpenseModel.ApplyPatch: request bodies that carry MongoDB update operators are not modelled. Both update handlers pass the body straight to `findByIdAndUpdate` (expenseController.js:150, budgetController.js:109), and update validators skip `$inc`. So `{"$inc": {"amount": -100}}` can store an amount below 0.01, and an admin can push `spentAmount` below 0. In the model a patch only sets fields, so `State.Consistent` is an invariant of the model and not of the service.
- BudgetModel.ApplyPatch: the same gap as the line above, for budget bodies with update operators.
- ExpenseModel.Review: promises success for any valid stored expense. In the service a document left invalid by an update operator fails the whole-document validation of `save()` (expenseController.js:244), and every later review of it answers 500. `ExpenseController.ApprovalOutcome`, `ExpenseController.RejectionOutcome` and `Reviews.ReapprovalDebitsTwice` inherit this, since they start from stores the model can reach.
- Explicit `null` in a request body is not modelled. A patch field is either absent or a value of its type.
- Cast errors are not modelled, for example a malformed id or a string where a number is expected. They all answer 500 in the source.
- `Auth.Caller`'s id is a number, not an ObjectId. The id comparisons in the controllers are modelled as equality of ids.
- `BudgetController.CategoryTaken`: a request without a category is taken to find no budget. Creation then fails the `required` validator with 500.
- The frontend and `server.js` are not modelled. They hold no workflow or accounting logic.
