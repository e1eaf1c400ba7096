/**
 * The seven-value category enum that the Expense and Budget schemas share. Requests
 * carry categories as strings; the schemas' enum validators admit exactly the seven
 * names below, compared case-sensitively.
 */
module Categories {
  import opened Wrappers
  import opened Text

  datatype Category = Travel | Meals | OfficeSupplies | Software | Hardware | Training | Other

  /** The stored (and transmitted) spelling of each category. */
  function Name(c: Category): string {
    match c
    case Travel => "Travel"
    case Meals => "Meals"
    case OfficeSupplies => "Office Supplies"
    case Software => "Software"
    case Hardware => "Hardware"
    case Training => "Training"
    case Other => "Other"
  }

  /** The enum validator: a string is admitted exactly when it spells one of the seven names. */
  function Parse(s: string): (r: Option<Category>)
    ensures r.Some? ==> Name(r.value) == s
    ensures r.None? ==> forall c :: Name(c) != s
  {
    if s == "Travel" then Some(Travel)
    else if s == "Meals" then Some(Meals)
    else if s == "Office Supplies" then Some(OfficeSupplies)
    else if s == "Software" then Some(Software)
    else if s == "Hardware" then Some(Hardware)
    else if s == "Training" then Some(Training)
    else if s == "Other" then Some(Other)
    else None
  }

  /** Parsing a stored name gives back the category: the names are pairwise distinct. */
  lemma ParseName(c: Category)
    ensures Parse(Name(c)) == Some(c)
  {
  }

  /** Position of a category when budgets are sorted on their category string. */
  function Rank(c: Category): nat {
    match c
    case Hardware => 0
    case Meals => 1
    case OfficeSupplies => 2
    case Other => 3
    case Software => 4
    case Training => 5
    case Travel => 6
  }

  /** The category at a rank: the inverse of Rank on 0..6. */
  function AtRank(k: nat): (c: Category)
    requires k < 7
    ensures Rank(c) == k
  {
    if k == 0 then Hardware
    else if k == 1 then Meals
    else if k == 2 then OfficeSupplies
    else if k == 3 then Other
    else if k == 4 then Software
    else if k == 5 then Training
    else Travel
  }

  lemma AdjacentNamesAscend(k: nat)
    requires k < 6
    ensures StrLess(Name(AtRank(k)), Name(AtRank(k + 1)))
  {
    if k == 2 {
      assert StrLess("ffice Supplies", "ther");
    } else if k == 5 {
      assert StrLess("ining", "vel");
      assert StrLess("aining", "avel");
      assert StrLess("raining", "ravel");
    }
  }

  lemma {:induction false} NamesAscend(i: nat, j: nat)
    requires i < j < 7
    ensures StrLess(Name(AtRank(i)), Name(AtRank(j)))
    decreases j - i
  {
    AdjacentNamesAscend(i);
    if i + 1 < j {
      NamesAscend(i + 1, j);
      StrLessTransitive(Name(AtRank(i)), Name(AtRank(i + 1)), Name(AtRank(j)));
    }
  }

  /** Ordering by Rank is exactly ordering by the category string. */
  lemma RankOrderIsNameOrder(a: Category, b: Category)
    ensures Rank(a) < Rank(b) <==> StrLess(Name(a), Name(b))
  {
    assert AtRank(Rank(a)) == a && AtRank(Rank(b)) == b;
    if Rank(a) < Rank(b) {
      NamesAscend(Rank(a), Rank(b));
    } else if Rank(b) < Rank(a) {
      NamesAscend(Rank(b), Rank(a));
      StrLessAsymmetric(Name(b), Name(a));
    } else {
      StrLessIrreflexive(Name(a));
    }
  }
}
