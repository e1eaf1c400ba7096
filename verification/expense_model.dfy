/**
 * The Expense record (backend/models/Expense.js): its fields, defaults, setters and
 * field validators. Amounts are integer paise, so the schema's minimum of 0.01 is
 * one unit; dates are millisecond timestamps.
 */
module ExpenseModel {
  import opened Wrappers
  import opened Text
  import opened Categories
  import opened Auth

  type ExpenseId = nat

  datatype Status = Pending | Approved | Rejected

  function StatusName(s: Status): string {
    match s
    case Pending => "pending"
    case Approved => "approved"
    case Rejected => "rejected"
  }

  /** The status enum validator: exactly the three lower-case names are admitted. */
  function ParseStatus(s: string): (r: Option<Status>)
    ensures r.Some? ==> StatusName(r.value) == s
    ensures r.None? ==> forall t :: StatusName(t) != s
  {
    if s == "pending" then Some(Pending)
    else if s == "approved" then Some(Approved)
    else if s == "rejected" then Some(Rejected)
    else None
  }

  /** Smallest admitted amount: 0.01 in paise. */
  const MinAmount: int := 1
  /** `maxlength` of description and reviewNotes. */
  const MaxTextLength: nat := 500

  datatype Expense = Expense(
    employee: UserId,
    amount: int,
    category: Category,
    description: string,
    date: int,
    status: Status,
    receiptUrl: Option<string>,
    reviewedBy: Option<UserId>,
    reviewedAt: Option<int>,
    reviewNotes: Option<string>,
    createdAt: int)

  predicate ValidAmount(a: int) {
    a >= MinAmount
  }

  /** Required, trimmed, at most 500 code units. */
  predicate ValidDescription(d: string) {
    d != [] && IsTrimmed(d) && Utf16Length(d) <= MaxTextLength
  }

  /** Optional; when present, trimmed and at most 500 code units. */
  predicate ValidNotes(n: Option<string>) {
    n.None? || (IsTrimmed(n.value) && Utf16Length(n.value) <= MaxTextLength)
  }

  /** What every stored expense satisfies (category and status hold by their types). */
  predicate Valid(e: Expense) {
    ValidAmount(e.amount) && ValidDescription(e.description) && ValidNotes(e.reviewNotes)
  }

  /** The description setter and validators applied to a request value. */
  function CastDescription(raw: string): (r: Option<string>)
    ensures r.Some? <==> ValidDescription(Trim(raw))
    ensures r.Some? ==> r.value == Trim(raw)
  {
    var t := Trim(raw);
    if t != [] && Utf16Length(t) <= MaxTextLength then Some(t) else None
  }

  /** The reviewNotes setter and validator applied to a request value. */
  function CastNotes(raw: string): (r: Option<string>)
    ensures r.Some? <==> ValidNotes(Some(Trim(raw)))
    ensures r.Some? ==> r.value == Trim(raw)
  {
    var t := Trim(raw);
    if Utf16Length(t) <= MaxTextLength then Some(t) else None
  }

  /**
   * `Expense.create`: the schema defaults fill every field the caller does not
   * supply, and the document is stored only if every validator passes.
   */
  function Create(employee: UserId, amount: Option<int>, category: Option<string>,
                  description: Option<string>, date: int, now: int): (r: Option<Expense>)
    ensures r.Some? <==>
      && amount.Some? && ValidAmount(amount.value)
      && category.Some? && (exists c :: Name(c) == category.value)
      && description.Some? && ValidDescription(Trim(description.value))
    ensures r.Some? ==>
      && Valid(r.value)
      && r.value.employee == employee
      && r.value.amount == amount.value
      && Name(r.value.category) == category.value
      && r.value.description == Trim(description.value)
      && r.value.date == date
      && r.value.status == Pending
      && r.value.receiptUrl == None && r.value.reviewedBy == None && r.value.reviewedAt == None
      && r.value.reviewNotes == None
      && r.value.createdAt == now
  {
    if amount.None? || !ValidAmount(amount.value) || category.None? || description.None? then None
    else
      var c :- Parse(category.value);
      var d :- CastDescription(description.value);
      Some(Expense(employee, amount.value, c, d, date, Pending, None, None, None, None, now))
  }

  /**
   * A request body applied to an existing expense by `findByIdAndUpdate` with
   * `runValidators`: any field of the schema may appear in it, `status` and
   * `employee` included. `createdAt` is managed by the timestamps option and
   * cannot be patched.
   */
  datatype Patch = Patch(
    employee: Option<UserId>,
    amount: Option<int>,
    category: Option<string>,
    description: Option<string>,
    date: Option<int>,
    status: Option<string>,
    receiptUrl: Option<string>,
    reviewedBy: Option<UserId>,
    reviewedAt: Option<int>,
    reviewNotes: Option<string>)

  /** True when every field present in the patch passes its setter and validator. */
  predicate PatchAdmissible(p: Patch) {
    && (p.amount.Some? ==> ValidAmount(p.amount.value))
    && (p.category.Some? ==> Parse(p.category.value).Some?)
    && (p.description.Some? ==> CastDescription(p.description.value).Some?)
    && (p.status.Some? ==> ParseStatus(p.status.value).Some?)
    && (p.reviewNotes.Some? ==> CastNotes(p.reviewNotes.value).Some?)
  }

  /**
   * The update validators check only the fields present in the patch; on success
   * each present field replaces the stored one and every absent field is kept.
   */
  function ApplyPatch(e: Expense, p: Patch): (r: Option<Expense>)
    ensures r.Some? <==> PatchAdmissible(p)
    ensures r.Some? ==> Valid(e) ==> Valid(r.value)
    ensures r.Some? ==>
      && r.value.employee == p.employee.GetOr(e.employee)
      && r.value.amount == p.amount.GetOr(e.amount)
      && (p.category.None? ==> r.value.category == e.category)
      && (p.category.Some? ==> Name(r.value.category) == p.category.value)
      && (p.description.None? ==> r.value.description == e.description)
      && (p.description.Some? ==> r.value.description == Trim(p.description.value))
      && r.value.date == p.date.GetOr(e.date)
      && (p.status.None? ==> r.value.status == e.status)
      && (p.status.Some? ==> StatusName(r.value.status) == p.status.value)
      && r.value.receiptUrl == (if p.receiptUrl.Some? then p.receiptUrl else e.receiptUrl)
      && r.value.reviewedBy == (if p.reviewedBy.Some? then p.reviewedBy else e.reviewedBy)
      && r.value.reviewedAt == (if p.reviewedAt.Some? then p.reviewedAt else e.reviewedAt)
      && (p.reviewNotes.None? ==> r.value.reviewNotes == e.reviewNotes)
      && (p.reviewNotes.Some? ==> r.value.reviewNotes == Some(Trim(p.reviewNotes.value)))
      && r.value.createdAt == e.createdAt
  {
    if !PatchAdmissible(p) then None
    else
      var category := if p.category.Some? then Parse(p.category.value).value else e.category;
      var description := if p.description.Some? then CastDescription(p.description.value).value else e.description;
      var status := if p.status.Some? then ParseStatus(p.status.value).value else e.status;
      var notes := if p.reviewNotes.Some? then Some(CastNotes(p.reviewNotes.value).value) else e.reviewNotes;
      assert Valid(e) ==> ValidDescription(description) && ValidNotes(notes);
      Some(Expense(
        p.employee.GetOr(e.employee), p.amount.GetOr(e.amount), category, description,
        p.date.GetOr(e.date), status,
        if p.receiptUrl.Some? then p.receiptUrl else e.receiptUrl,
        if p.reviewedBy.Some? then p.reviewedBy else e.reviewedBy,
        if p.reviewedAt.Some? then p.reviewedAt else e.reviewedAt,
        notes, e.createdAt))
  }

  /**
   * The review fields set by the status transition, validated by `save()`. The
   * only field that can fail validation is the notes text.
   */
  function Review(e: Expense, decision: Status, reviewer: UserId, notes: string, now: int): (r: Option<Expense>)
    ensures r.Some? <==> Utf16Length(Trim(notes)) <= MaxTextLength
    ensures r.Some? ==> Valid(e) ==> Valid(r.value)
    ensures r.Some? ==>
      && r.value.status == decision
      && r.value.reviewedBy == Some(reviewer)
      && r.value.reviewedAt == Some(now)
      && r.value.reviewNotes == Some(Trim(notes))
      && r.value.(status := e.status, reviewedBy := e.reviewedBy, reviewedAt := e.reviewedAt,
                  reviewNotes := e.reviewNotes) == e
  {
    var n :- CastNotes(notes);
    Some(e.(status := decision, reviewedBy := Some(reviewer), reviewedAt := Some(now), reviewNotes := Some(n)))
  }
}
