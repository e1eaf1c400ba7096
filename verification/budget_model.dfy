/**
 * The Budget record (backend/models/Budget.js): fields, defaults, validators, the
 * unique index on `category` and the `remainingAmount` virtual. Budgets are kept in
 * a sequence in insertion order, which is the order a query without `sort` sees
 * them in; `findOne` returns the first match.
 */
module BudgetModel {
  import opened Wrappers
  import opened Text
  import opened Categories
  import opened Auth

  type BudgetId = nat

  datatype Budget = Budget(
    id: BudgetId,
    category: Category,
    totalAmount: int,
    spentAmount: int,
    period: string,
    createdBy: UserId)

  /** Required and trimmed. */
  predicate ValidPeriod(p: string) {
    p != [] && IsTrimmed(p)
  }

  /** What every stored budget satisfies (the category enum holds by its type). */
  predicate Valid(b: Budget) {
    b.totalAmount >= 0 && b.spentAmount >= 0 && ValidPeriod(b.period)
  }

  /** The `remainingAmount` virtual, computed on every read and never stored. */
  function Remaining(b: Budget): int {
    b.totalAmount - b.spentAmount
  }

  /** Nothing ties spending to the allocation: a valid budget may be overspent. */
  lemma OverspentBudgetIsValid()
    ensures exists b: Budget :: Valid(b) && Remaining(b) < 0
  {
    var b := Budget(0, Travel, 100, 150, "Q1", 0);
    assert Valid(b) && Remaining(b) == -50;
  }

  /**
   * An approval's debit is not checked against the allocation: debiting more than
   * remains leaves a valid budget with a negative remaining amount.
   */
  lemma DebitCanOverspend(b: Budget, amount: int)
    requires Valid(b) && amount > 0 && amount > Remaining(b)
    ensures Valid(Debit(b, amount)) && Remaining(Debit(b, amount)) < 0
  {
  }

  /** The period setter and validators applied to a request value. */
  function CastPeriod(raw: string): (r: Option<string>)
    ensures r.Some? <==> ValidPeriod(Trim(raw))
    ensures r.Some? ==> r.value == Trim(raw)
  {
    var t := Trim(raw);
    if t != [] then Some(t) else None
  }

  /** `Budget.create`: `spentAmount` takes its default of 0; every validator must pass. */
  function Create(id: BudgetId, category: Option<string>, totalAmount: Option<int>,
                  period: Option<string>, createdBy: UserId): (r: Option<Budget>)
    ensures r.Some? <==>
      && category.Some? && (exists c :: Name(c) == category.value)
      && totalAmount.Some? && totalAmount.value >= 0
      && period.Some? && ValidPeriod(Trim(period.value))
    ensures r.Some? ==>
      && Valid(r.value)
      && r.value.id == id
      && Name(r.value.category) == category.value
      && r.value.totalAmount == totalAmount.value
      && r.value.spentAmount == 0
      && Remaining(r.value) == totalAmount.value
      && r.value.period == Trim(period.value)
      && r.value.createdBy == createdBy
  {
    if category.None? || totalAmount.None? || totalAmount.value < 0 || period.None? then None
    else
      var c :- Parse(category.value);
      var p :- CastPeriod(period.value);
      Some(Budget(id, c, totalAmount.value, 0, p, createdBy))
  }

  /** A request body for `findByIdAndUpdate`: any field, `spentAmount` included. */
  datatype Patch = Patch(
    category: Option<string>,
    totalAmount: Option<int>,
    spentAmount: Option<int>,
    period: Option<string>,
    createdBy: Option<UserId>)

  predicate PatchAdmissible(p: Patch) {
    && (p.category.Some? ==> Parse(p.category.value).Some?)
    && (p.totalAmount.Some? ==> p.totalAmount.value >= 0)
    && (p.spentAmount.Some? ==> p.spentAmount.value >= 0)
    && (p.period.Some? ==> CastPeriod(p.period.value).Some?)
  }

  /** Present fields overwrite the stored ones once their validators pass; absent ones are kept. */
  function ApplyPatch(b: Budget, p: Patch): (r: Option<Budget>)
    ensures r.Some? <==> PatchAdmissible(p)
    ensures r.Some? ==> Valid(b) ==> Valid(r.value)
    ensures r.Some? ==>
      && r.value.id == b.id
      && (p.category.None? ==> r.value.category == b.category)
      && (p.category.Some? ==> Name(r.value.category) == p.category.value)
      && r.value.totalAmount == p.totalAmount.GetOr(b.totalAmount)
      && r.value.spentAmount == p.spentAmount.GetOr(b.spentAmount)
      && (p.period.None? ==> r.value.period == b.period)
      && (p.period.Some? ==> r.value.period == Trim(p.period.value))
      && r.value.createdBy == p.createdBy.GetOr(b.createdBy)
  {
    if !PatchAdmissible(p) then None
    else
      var category := if p.category.Some? then Parse(p.category.value).value else b.category;
      var period := if p.period.Some? then CastPeriod(p.period.value).value else b.period;
      Some(Budget(b.id, category, p.totalAmount.GetOr(b.totalAmount),
                  p.spentAmount.GetOr(b.spentAmount), period, p.createdBy.GetOr(b.createdBy)))
  }

  /** `spentAmount += amount`: remaining shrinks by exactly the amount, nothing else moves. */
  function Debit(b: Budget, amount: int): (r: Budget)
    ensures r.spentAmount == b.spentAmount + amount
    ensures Remaining(r) == Remaining(b) - amount
    ensures r.(spentAmount := b.spentAmount) == b
    ensures Valid(b) && amount > 0 ==> Valid(r)
  {
    b.(spentAmount := b.spentAmount + amount)
  }

  /** The unique index on `category`. */
  predicate UniqueCategories(bs: seq<Budget>) {
    forall i, j :: 0 <= i < j < |bs| ==> bs[i].category != bs[j].category
  }

  /** Debiting one budget in place keeps every category where it was. */
  lemma DebitKeepsUnique(bs: seq<Budget>, i: nat, amount: int)
    requires i < |bs| && UniqueCategories(bs)
    ensures UniqueCategories(bs[i := Debit(bs[i], amount)])
  {
    var r := bs[i := Debit(bs[i], amount)];
    assert forall k :: 0 <= k < |r| ==> r[k].category == bs[k].category;
  }

  predicate UniqueIds(bs: seq<Budget>) {
    forall i, j :: 0 <= i < j < |bs| ==> bs[i].id != bs[j].id
  }

  /** `findOne({ category: c })`: the first budget of that category, if any. */
  function IndexOfCategory(bs: seq<Budget>, c: Category): (r: Option<nat>)
    ensures r.Some? ==> r.value < |bs| && bs[r.value].category == c
    ensures r.Some? ==> forall k :: 0 <= k < r.value ==> bs[k].category != c
    ensures r.None? ==> forall k :: 0 <= k < |bs| ==> bs[k].category != c
  {
    if bs == [] then None
    else if bs[0].category == c then Some(0)
    else
      match IndexOfCategory(bs[1..], c)
      case None => None
      case Some(k) => Some(k + 1)
  }

  /** `findById(id)`. */
  function IndexOfId(bs: seq<Budget>, id: BudgetId): (r: Option<nat>)
    ensures r.Some? ==> r.value < |bs| && bs[r.value].id == id
    ensures r.Some? ==> forall k :: 0 <= k < r.value ==> bs[k].id != id
    ensures r.None? ==> forall k :: 0 <= k < |bs| ==> bs[k].id != id
  {
    if bs == [] then None
    else if bs[0].id == id then Some(0)
    else
      match IndexOfId(bs[1..], id)
      case None => None
      case Some(k) => Some(k + 1)
  }

  /** Under the unique index the first match is the only match. */
  lemma OnlyMatch(bs: seq<Budget>, c: Category, k: nat)
    requires UniqueCategories(bs) && k < |bs| && bs[k].category == c
    ensures IndexOfCategory(bs, c) == Some(k)
  {
  }

  /** `deleteOne` on the budget at index i: the others keep their order. */
  function RemoveAt(bs: seq<Budget>, i: nat): (r: seq<Budget>)
    requires i < |bs|
    ensures |r| == |bs| - 1
    ensures forall k :: 0 <= k < i ==> r[k] == bs[k]
    ensures forall k :: i <= k < |r| ==> r[k] == bs[k + 1]
    ensures UniqueCategories(bs) ==> UniqueCategories(r)
    ensures UniqueIds(bs) ==> UniqueIds(r)
  {
    bs[..i] + bs[i + 1..]
  }

  predicate SortedByCategory(bs: seq<Budget>) {
    forall i, j :: 0 <= i < j < |bs| ==> Rank(bs[i].category) <= Rank(bs[j].category)
  }

  /** The categories that have a budget in `bs`. */
  function CategoriesOf(bs: seq<Budget>): set<Category> {
    if bs == [] then {} else {bs[0].category} + CategoriesOf(bs[1..])
  }

  lemma {:induction false} CategoriesOfIndex(bs: seq<Budget>, c: Category)
    ensures c in CategoriesOf(bs) <==> exists k :: 0 <= k < |bs| && bs[k].category == c
  {
    if bs != [] {
      CategoriesOfIndex(bs[1..], c);
      if c in CategoriesOf(bs[1..]) {
        var k :| 0 <= k < |bs| - 1 && bs[1..][k].category == c;
        assert bs[k + 1].category == c;
      }
      if exists k :: 0 <= k < |bs| && bs[k].category == c {
        var k :| 0 <= k < |bs| && bs[k].category == c;
        if k > 0 {
          assert bs[1..][k - 1].category == c;
        }
      }
    }
  }

  lemma UniqueCons(x: Budget, s: seq<Budget>)
    ensures UniqueCategories([x] + s) <==> UniqueCategories(s) && x.category !in CategoriesOf(s)
  {
    var xs := [x] + s;
    CategoriesOfIndex(s, x.category);
    if UniqueCategories(xs) {
      forall k | 0 <= k < |s| ensures s[k].category != x.category {
        assert xs[0] == x && xs[k + 1] == s[k];
        assert xs[0].category != xs[k + 1].category;
      }
      forall i, j | 0 <= i < j < |s| ensures s[i].category != s[j].category {
        assert xs[i + 1] == s[i] && xs[j + 1] == s[j];
      }
    }
    if UniqueCategories(s) && x.category !in CategoriesOf(s) {
      forall i, j | 0 <= i < j < |xs| ensures xs[i].category != xs[j].category {
        assert xs[j] == s[j - 1];
        if i > 0 {
          assert xs[i] == s[i - 1];
        }
      }
    }
  }

  /** A sorted sequence stays sorted under a new first element no later than its head. */
  lemma ConsSorted(x: Budget, s: seq<Budget>)
    requires SortedByCategory(s) && (s != [] ==> Rank(x.category) <= Rank(s[0].category))
    ensures SortedByCategory([x] + s)
  {
    var xs := [x] + s;
    forall i, j | 0 <= i < j < |xs| ensures Rank(xs[i].category) <= Rank(xs[j].category) {
      if i == 0 {
        assert xs[1] == s[0] && xs[j] == s[j - 1];
      } else {
        assert xs[i] == s[i - 1] && xs[j] == s[j - 1];
      }
    }
  }

  function InsertByCategory(b: Budget, bs: seq<Budget>): (r: seq<Budget>)
    requires SortedByCategory(bs)
    ensures SortedByCategory(r)
    ensures |r| == |bs| + 1 && (r[0] == b || (bs != [] && r[0] == bs[0]))
  {
    if bs == [] then [b]
    else if Rank(b.category) <= Rank(bs[0].category) then ConsSorted(b, bs); [b] + bs
    else
      var rest := InsertByCategory(b, bs[1..]);
      ConsSorted(bs[0], rest);
      [bs[0]] + rest
  }

  /** Inserting adds exactly the new budget: the result is a permutation of `bs` plus `b`. */
  lemma {:induction false} InsertIsPermutation(b: Budget, bs: seq<Budget>)
    requires SortedByCategory(bs)
    ensures multiset(InsertByCategory(b, bs)) == multiset(bs) + multiset{b}
  {
    var r := InsertByCategory(b, bs);
    if bs != [] && Rank(b.category) > Rank(bs[0].category) {
      var tail := bs[1..];
      InsertIsPermutation(b, tail);
      assert r == [bs[0]] + InsertByCategory(b, tail);
      assert bs == [bs[0]] + tail;
    }
  }

  lemma {:induction false} InsertKeepsCategories(b: Budget, bs: seq<Budget>)
    requires SortedByCategory(bs)
    ensures CategoriesOf(InsertByCategory(b, bs)) == CategoriesOf(bs) + {b.category}
  {
    var r := InsertByCategory(b, bs);
    if bs == [] {
      assert r == [b] && r[1..] == [];
    } else if Rank(b.category) <= Rank(bs[0].category) {
      assert r == [b] + bs && r[1..] == bs;
    } else {
      var tail := bs[1..];
      var rest := InsertByCategory(b, tail);
      InsertKeepsCategories(b, tail);
      assert r == [bs[0]] + rest && r[1..] == rest;
    }
  }

  lemma {:induction false} InsertKeepsUnique(b: Budget, bs: seq<Budget>)
    requires SortedByCategory(bs)
    requires UniqueCategories(bs) && b.category !in CategoriesOf(bs)
    ensures UniqueCategories(InsertByCategory(b, bs))
  {
    var r := InsertByCategory(b, bs);
    if bs == [] {
    } else if Rank(b.category) <= Rank(bs[0].category) {
      assert r == [b] + bs;
      UniqueCons(b, bs);
    } else {
      var tail := bs[1..];
      var rest := InsertByCategory(b, tail);
      UniqueCons(bs[0], tail);
      assert bs == [bs[0]] + tail;
      InsertKeepsUnique(b, tail);
      InsertKeepsCategories(b, tail);
      assert r == [bs[0]] + rest;
      UniqueCons(bs[0], rest);
    }
  }

  /**
   * `sort('category')`: an insertion sort on the category's rank, which orders
   * categories exactly as their names (RankOrderIsNameOrder).
   */
  function SortByCategory(bs: seq<Budget>): (r: seq<Budget>)
    ensures SortedByCategory(r)
    ensures |r| == |bs|
  {
    if bs == [] then []
    else InsertByCategory(bs[0], SortByCategory(bs[1..]))
  }

  /** Sorting neither loses nor invents a budget. */
  lemma {:induction false} SortIsPermutation(bs: seq<Budget>)
    ensures multiset(SortByCategory(bs)) == multiset(bs)
  {
    if bs != [] {
      SortIsPermutation(bs[1..]);
      InsertIsPermutation(bs[0], SortByCategory(bs[1..]));
      assert bs == [bs[0]] + bs[1..];
    }
  }

  /** Sorting keeps the set of categories, and with it the unique index. */
  lemma {:induction false} SortKeepsCategories(bs: seq<Budget>)
    ensures CategoriesOf(SortByCategory(bs)) == CategoriesOf(bs)
  {
    if bs != [] {
      SortKeepsCategories(bs[1..]);
      InsertKeepsCategories(bs[0], SortByCategory(bs[1..]));
    }
  }

  /** Sorting keeps the unique index: no two listed budgets share a category. */
  lemma {:induction false} SortKeepsUnique(bs: seq<Budget>)
    requires UniqueCategories(bs)
    ensures UniqueCategories(SortByCategory(bs))
  {
    if bs != [] {
      assert bs == [bs[0]] + bs[1..];
      UniqueCons(bs[0], bs[1..]);
      SortKeepsUnique(bs[1..]);
      SortKeepsCategories(bs[1..]);
      InsertKeepsUnique(bs[0], SortByCategory(bs[1..]));
    }
  }
}
