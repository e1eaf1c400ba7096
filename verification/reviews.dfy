/**
 * `updateExpenseStatus` in sequence (backend/controllers/expenseController.js).
 * The controller has no pending check, so an expense can be reviewed again at
 * any time: each approval debits its budget anew and a rejection refunds
 * nothing. For an admin the status route is exactly this controller call
 * (`Routes.AdminReviewIsControllerCall`).
 */
module Reviews {
  import opened Wrappers
  import opened Text
  import opened Categories
  import opened Auth
  import opened State
  import EM = ExpenseModel
  import BM = BudgetModel
  import EC = ExpenseController

  /** Notes the review's `save()` accepts: at most 500 code units once trimmed. */
  predicate NotesFit(notes: Option<string>) {
    Utf16Length(Trim(notes.GetOr(""))) <= EM.MaxTextLength
  }

  /** The store after a review; a failed review leaves it as it was. */
  function Reviewed(reviewer: Caller, id: EM.ExpenseId, status: string, notes: Option<string>, st: Store, now: int): Store {
    Settle(st, EC.UpdateExpenseStatus(reviewer, id, Some(status), notes, st, now))
  }

  /**
   * The review has no pending check: approving the same expense twice succeeds
   * both times and debits its budget twice.
   */
  lemma ReapprovalDebitsTwice(admin: Caller, id: EM.ExpenseId, notes1: Option<string>, notes2: Option<string>,
                              st: Store, t1: int, t2: int, i: nat)
    requires BM.UniqueCategories(st.budgets) && NotesFit(notes1) && NotesFit(notes2)
    requires id in st.expenses && i < |st.budgets| && st.budgets[i].category == st.expenses[id].category
    ensures var s1 := Reviewed(admin, id, "approved", notes1, st, t1);
            var s2 := Reviewed(admin, id, "approved", notes2, s1, t2);
      && EC.UpdateExpenseStatus(admin, id, Some("approved"), notes1, st, t1).Ok?
      && EC.UpdateExpenseStatus(admin, id, Some("approved"), notes2, s1, t2).Ok?
      && id in s2.expenses && s2.expenses[id].status == EM.Approved
      && |s2.budgets| == |st.budgets|
      && s2.budgets[i].spentAmount == st.budgets[i].spentAmount + 2 * st.expenses[id].amount
  {
    EC.ApprovalOutcome(admin, id, notes1, st, t1, i);
    var s1 := EC.UpdateExpenseStatus(admin, id, Some("approved"), notes1, st, t1).value;
    assert s1 == Reviewed(admin, id, "approved", notes1, st, t1);
    BM.DebitKeepsUnique(st.budgets, i, st.expenses[id].amount);
    EC.ApprovalOutcome(admin, id, notes2, s1, t2, i);
    var s2 := EC.UpdateExpenseStatus(admin, id, Some("approved"), notes2, s1, t2).value;
    assert s2 == Reviewed(admin, id, "approved", notes2, s1, t2);
  }

  /** Rejecting an approved expense succeeds and gives its amount back to no budget. */
  lemma RejectionAfterApprovalKeepsDebit(admin: Caller, id: EM.ExpenseId, notes1: Option<string>,
                                         notes2: Option<string>, st: Store, t1: int, t2: int, i: nat)
    requires BM.UniqueCategories(st.budgets) && NotesFit(notes1) && NotesFit(notes2)
    requires id in st.expenses && i < |st.budgets| && st.budgets[i].category == st.expenses[id].category
    ensures var s1 := Reviewed(admin, id, "approved", notes1, st, t1);
            var s2 := Reviewed(admin, id, "rejected", notes2, s1, t2);
      && EC.UpdateExpenseStatus(admin, id, Some("rejected"), notes2, s1, t2).Ok?
      && id in s2.expenses && s2.expenses[id].status == EM.Rejected
      && s2.budgets == s1.budgets
      && |s2.budgets| == |st.budgets|
      && s2.budgets[i].spentAmount == st.budgets[i].spentAmount + st.expenses[id].amount
  {
    EC.ApprovalOutcome(admin, id, notes1, st, t1, i);
    var s1 := EC.UpdateExpenseStatus(admin, id, Some("approved"), notes1, st, t1).value;
    assert s1 == Reviewed(admin, id, "approved", notes1, st, t1);
    EC.RejectionOutcome(admin, id, notes2, s1, t2);
    var s2 := EC.UpdateExpenseStatus(admin, id, Some("rejected"), notes2, s1, t2).value;
    assert s2 == Reviewed(admin, id, "rejected", notes2, s1, t2);
  }

  /** A Travel budget of 1000.00 with nothing spent and a pending Travel expense of 300.00, in paise. */
  function TravelStart(): Store {
    var budget := BM.Budget(10, Travel, 100000, 0, "Q1 2024", 1);
    var expense := EM.Expense(2, 30000, Travel, "Flight", 0, EM.Pending, None, None, None, None, 0);
    Store(map[11 := expense], [budget], 12)
  }

  lemma TravelStartConsistent()
    ensures Consistent(TravelStart())
  {
    assert IsTrimmed("Flight") && IsTrimmed("Q1 2024");
    assert Utf16Length("Flight") <= EM.MaxTextLength;
  }

  /**
   * A worked example: approving the expense leaves 700.00 remaining, and a
   * later edit by the employee is refused with 400.
   */
  lemma TravelExample()
    ensures var st := TravelStart();
            var s1 := Reviewed(Caller(1, Admin), 11, "approved", None, st, 5);
            var edit := EC.UpdateExpense(Caller(2, Employee), 11, EM.Patch(None, None, None, None, None, Some("pending"),
                                                                           None, None, None, None), s1);
      && Consistent(st)
      && 11 in s1.expenses && s1.expenses[11].status == EM.Approved
      && |s1.budgets| == 1
      && s1.budgets[0].spentAmount == 30000
      && BM.Remaining(s1.budgets[0]) == 70000
      && edit == Err(BadRequest)
  {
    var st := TravelStart();
    TravelStartConsistent();
    assert NotesFit(None) by {
      assert Trim("") == "";
    }
    EC.ApprovalOutcome(Caller(1, Admin), 11, None, st, 5, 0);
    var s1 := Reviewed(Caller(1, Admin), 11, "approved", None, st, 5);
    assert s1.expenses[11].employee == 2 && s1.expenses[11].status == EM.Approved;
    assert EC.OwnerPendingGuard(Caller(2, Employee), 11, s1) == Some(BadRequest);
  }
}
