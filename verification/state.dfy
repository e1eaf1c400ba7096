/**
 * The abstract document store both controllers act on, the error kinds they
 * answer with, and the invariant every reachable store satisfies.
 */
module State {
  import opened Wrappers
  import E = ExpenseModel
  import B = BudgetModel

  /**
   * How a request fails. Schema validation errors and duplicate-key errors are
   * not answered specially by the controllers: they reach the catch-all, which
   * answers 500.
   */
  datatype ErrKind = BadRequest | Unauthorized | Forbidden | NotFound | ServerError

  function HttpStatus(e: ErrKind): int {
    match e
    case BadRequest => 400
    case Unauthorized => 401
    case Forbidden => 403
    case NotFound => 404
    case ServerError => 500
  }

  /**
   * Expenses by id, budgets in insertion order, and the supply of fresh ids
   * (every id below `nextId` may already be taken).
   */
  datatype Store = Store(expenses: map<E.ExpenseId, E.Expense>, budgets: seq<B.Budget>, nextId: nat)

  /** The schema validators hold of every document, ids are fresh-supplied, and the unique index holds. */
  predicate Consistent(st: Store) {
    && (forall id :: id in st.expenses ==> id < st.nextId && E.Valid(st.expenses[id]))
    && (forall k :: 0 <= k < |st.budgets| ==> st.budgets[k].id < st.nextId && B.Valid(st.budgets[k]))
    && B.UniqueCategories(st.budgets)
    && B.UniqueIds(st.budgets)
  }

  /** The store after a request: a failed request leaves it as it was. */
  function Settle(st: Store, r: Result<Store, ErrKind>): Store {
    if r.Ok? then r.value else st
  }
}
