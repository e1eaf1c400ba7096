/**
 * Properties of sequences of requests: the approval workflow as the controllers
 * implement it, including the behaviours that follow from `updateExpenseStatus`
 * having no pending check and `updateExpense` applying the body as it stands.
 */
module Workflow {
  import opened Wrappers
  import opened Auth
  import opened State
  import opened Routes
  import EM = ExpenseModel
  import BM = BudgetModel

  /** One request: who sent it, what it asks, and the server clock. */
  datatype Event = Event(auth: Option<Caller>, cmd: Command, now: int)

  /** The store after a sequence of requests, handled one at a time. */
  function Run(st: Store, trace: seq<Event>): Store
    decreases |trace|
  {
    if trace == [] then st
    else Run(Step(trace[0].auth, trace[0].cmd, st, trace[0].now), trace[1..])
  }

  /** Every store reachable from a consistent one is consistent. */
  lemma {:induction false} RunKeepsConsistent(st: Store, trace: seq<Event>)
    requires Consistent(st)
    ensures Consistent(Run(st, trace))
    decreases |trace|
  {
    if trace != [] {
      RunKeepsConsistent(Step(trace[0].auth, trace[0].cmd, st, trace[0].now), trace[1..]);
    }
  }

  /** Requests sent by non-admins never change a budget, however many there are. */
  lemma {:induction false} NonAdminTraceKeepsBudgets(st: Store, trace: seq<Event>)
    requires forall k :: 0 <= k < |trace| ==> NotAdmin(trace[k].auth)
    ensures Run(st, trace).budgets == st.budgets
    decreases |trace|
  {
    if trace != [] {
      NonAdminTraceKeepsBudgets(Step(trace[0].auth, trace[0].cmd, st, trace[0].now), trace[1..]);
    }
  }

  predicate ManagesBudgets(cmd: Command) {
    cmd.AddBudget? || cmd.EditBudget? || cmd.RemoveBudget?
  }

  /** `after` is `before` with some spending added and nothing else changed. */
  predicate OnlyMoreSpent(before: seq<BM.Budget>, after: seq<BM.Budget>) {
    && |after| == |before|
    && forall k :: 0 <= k < |before| ==>
         after[k].(spentAmount := before[k].spentAmount) == before[k]
         && after[k].spentAmount >= before[k].spentAmount
  }

  lemma StepOnlyAddsSpending(auth: Option<Caller>, cmd: Command, st: Store, now: int)
    requires Consistent(st) && !ManagesBudgets(cmd)
    ensures OnlyMoreSpent(st.budgets, Step(auth, cmd, st, now).budgets)
  {
    var r := Execute(auth, cmd, st, now);
    if r.Ok? && cmd.ReviewExpense? {
      var e := st.expenses[cmd.expenseId];
      assert EM.Valid(e);
      var found := BM.IndexOfCategory(st.budgets, e.category);
      if found.Some? && cmd.status == Some("approved") {
        var i := found.value;
        assert r.value.budgets == st.budgets[i := BM.Debit(st.budgets[i], e.amount)];
      }
    }
  }

  /**
   * Outside budget administration nothing ever lowers a budget's spending:
   * rejecting an approved expense, or deleting or editing expenses, refunds nothing.
   */
  lemma {:induction false} NoRefunds(st: Store, trace: seq<Event>)
    requires Consistent(st)
    requires forall k :: 0 <= k < |trace| ==> !ManagesBudgets(trace[k].cmd)
    ensures OnlyMoreSpent(st.budgets, Run(st, trace).budgets)
    decreases |trace|
  {
    if trace != [] {
      var next := Step(trace[0].auth, trace[0].cmd, st, trace[0].now);
      StepOnlyAddsSpending(trace[0].auth, trace[0].cmd, st, trace[0].now);
      NoRefunds(next, trace[1..]);
    }
  }

  /** A patch that sets only `status`. */
  function StatusPatch(status: string): EM.Patch {
    EM.Patch(None, None, None, None, None, Some(status), None, None, None, None)
  }

  /**
   * The update route applies the body as it stands: the owner of a pending
   * expense can mark it approved themselves, and no budget is debited.
   */
  lemma OwnerSelfApprovalSkipsDebit(owner: Caller, id: EM.ExpenseId, st: Store, now: int)
    requires id in st.expenses && st.expenses[id].employee == owner.id && st.expenses[id].status == EM.Pending
    ensures var s := Step(Some(owner), EditExpense(id, StatusPatch("approved")), st, now);
      && id in s.expenses
      && s.expenses[id].status == EM.Approved
      && s.expenses[id].reviewedBy == st.expenses[id].reviewedBy
      && s.budgets == st.budgets
  {
    var r := Execute(Some(owner), EditExpense(id, StatusPatch("approved")), st, now);
    assert EM.ParseStatus("approved") == Some(EM.Approved);
    assert r.Ok?;
  }

  /** Once reviewed, an expense can no longer be edited or deleted by its owner; the store stays as it was. */
  lemma ReviewedExpenseIsLocked(owner: Caller, cmd: Command, st: Store, now: int)
    requires cmd.EditExpense? || cmd.WithdrawExpense?
    requires cmd.expenseId in st.expenses && st.expenses[cmd.expenseId].employee == owner.id
    requires st.expenses[cmd.expenseId].status != EM.Pending
    ensures Execute(Some(owner), cmd, st, now) == Err(BadRequest)
    ensures Step(Some(owner), cmd, st, now) == st
  {
  }
}
