/** Budget analysis: totals, savings rate, the 50/30/20 split and the health ladder. */
module BudgetAnalyzer {
  import opened Profile

  datatype Health = Excellent | Good | Fair | NeedsImprovement

  /** The recommended 50/30/20 split of income. */
  datatype Split = Split(needs: real, wants: real, savings: real)

  datatype BudgetAnalysis = BudgetAnalysis(
    totalIncome: real,
    totalExpenses: real,
    savings: real,
    savingsRate: real,
    needsSpending: real,
    wantsSpending: real,
    recommended: Split,
    health: Health)

  const NeedsCategories: seq<string> :=
    ["rent", "utilities", "groceries", "transportation", "insurance", "minimum_debt_payments"]
  const WantsCategories: seq<string> :=
    ["dining_out", "entertainment", "shopping", "hobbies", "subscriptions"]

  /** `sum(expenses.get(cat, 0) for cat in categories)`. */
  function SumOver(categories: seq<string>, e: seq<Expense>): real {
    if |categories| == 0 then 0.0 else Get(e, categories[0]) + SumOver(categories[1..], e)
  }

  /** The entries whose category is not listed. */
  function Outside(e: seq<Expense>, categories: seq<string>): seq<Expense> {
    if |e| == 0 then []
    else (if e[0].category in categories then [] else [e[0]]) + Outside(e[1..], categories)
  }

  predicate Distinct(s: seq<string>) {
    forall i, j :: 0 <= i < j < |s| ==> s[i] != s[j]
  }

  predicate NonNegative(e: seq<Expense>) {
    forall k :: 0 <= k < |e| ==> 0.0 <= e[k].amount
  }

  /** A rank that orders the ratings from worst to best. */
  function Rank(h: Health): nat {
    match h
    case NeedsImprovement => 0
    case Fair => 1
    case Good => 2
    case Excellent => 3
  }

  /**
   * `_assess_budget_health`: a top-down ladder on the savings rate alone;
   * `needs`, `wants` and `income` are accepted and ignored. Each rating is a
   * half-open band whose lower boundary belongs to it.
   */
  function AssessBudgetHealth(savingsRate: real, needs: real, wants: real, income: real): (h: Health)
    ensures h == Excellent <==> 20.0 <= savingsRate
    ensures h == Good <==> 10.0 <= savingsRate < 20.0
    ensures h == Fair <==> 5.0 <= savingsRate < 10.0
    ensures h == NeedsImprovement <==> savingsRate < 5.0
  {
    if savingsRate >= 20.0 then Excellent
    else if savingsRate >= 10.0 then Good
    else if savingsRate >= 5.0 then Fair
    else NeedsImprovement
  }

  /** The rating never drops as the savings rate grows, and depends on nothing else. */
  lemma HealthMonotone(r1: real, r2: real, n1: real, w1: real, i1: real, n2: real, w2: real, i2: real)
    requires r1 <= r2
    ensures Rank(AssessBudgetHealth(r1, n1, w1, i1)) <= Rank(AssessBudgetHealth(r2, n2, w2, i2))
    ensures r1 == r2 ==> AssessBudgetHealth(r1, n1, w1, i1) == AssessBudgetHealth(r2, n2, w2, i2)
  {
  }

  /** `analyze_budget(income, expenses)`. */
  function AnalyzeBudget(income: real, expenses: seq<Expense>): (r: BudgetAnalysis)
    ensures r.totalIncome == income && r.totalExpenses == Total(expenses)
    ensures r.savings == income - r.totalExpenses
    ensures income <= 0.0 ==> r.savingsRate == 0.0
    ensures income > 0.0 ==> r.savingsRate * income == 100.0 * r.savings
    ensures r.recommended.needs + r.recommended.wants + r.recommended.savings == income
    ensures r.recommended.needs == 0.5 * income && r.recommended.wants == 0.3 * income &&
      r.recommended.savings == 0.2 * income
    ensures r.needsSpending == SumOver(NeedsCategories, expenses)
    ensures r.wantsSpending == SumOver(WantsCategories, expenses)
    ensures r.health == AssessBudgetHealth(r.savingsRate, r.needsSpending, r.wantsSpending, income)
  {
    var totalExpenses := Total(expenses);
    var savings := income - totalExpenses;
    var savingsRate := if income > 0.0 then savings / income * 100.0 else 0.0;
    var recommended := Split(income * 0.50, income * 0.30, income * 0.20);
    var needs := SumOver(NeedsCategories, expenses);
    var wants := SumOver(WantsCategories, expenses);
    BudgetAnalysis(income, totalExpenses, savings, savingsRate, needs, wants, recommended,
      AssessBudgetHealth(savingsRate, needs, wants, income))
  }

  /** Over an empty mapping every category sum is zero. */
  lemma {:induction false} SumOverEmpty(categories: seq<string>)
    ensures SumOver(categories, []) == 0.0
  {
    if |categories| > 0 {
      SumOverEmpty(categories[1..]);
    }
  }

  /** Peeling the first entry off the mapping: it counts once if its category is listed. */
  lemma {:induction false} SumOverCons(categories: seq<string>, e: seq<Expense>)
    requires |e| > 0 && e[0].category !in Keys(e[1..]) && Distinct(categories)
    ensures SumOver(categories, e)
      == (if e[0].category in categories then e[0].amount else 0.0) + SumOver(categories, e[1..])
  {
    if |categories| > 0 {
      assert Distinct(categories[1..]);
      SumOverCons(categories[1..], e);
      if categories[0] == e[0].category {
        assert e[0].category !in categories[1..];
        assert Lookup(e[1..], e[0].category).None?;
      }
    }
  }

  /**
   * For listed categories without repeats: the listed sum plus the entries
   * outside the list make up the whole total, so unlisted keys count toward
   * the total only.
   */
  lemma {:induction false} ListedPlusOutside(categories: seq<string>, e: seq<Expense>)
    requires UniqueKeys(e) && Distinct(categories)
    ensures SumOver(categories, e) + Total(Outside(e, categories)) == Total(e)
  {
    if |e| == 0 {
      SumOverEmpty(categories);
    } else {
      SumOverCons(categories, e);
      ListedPlusOutside(categories, e[1..]);
      var head := if e[0].category in categories then [] else [e[0]];
      assert Outside(e, categories) == head + Outside(e[1..], categories);
      TotalAppend(head, Outside(e[1..], categories));
    }
  }

  lemma {:induction false} TotalAppend(a: seq<Expense>, b: seq<Expense>)
    ensures Total(a + b) == Total(a) + Total(b)
  {
    if |a| > 0 {
      assert (a + b)[1..] == a[1..] + b;
      TotalAppend(a[1..], b);
    } else {
      assert a + b == b;
    }
  }

  lemma {:induction false} SumOverAppend(c1: seq<string>, c2: seq<string>, e: seq<Expense>)
    ensures SumOver(c1 + c2, e) == SumOver(c1, e) + SumOver(c2, e)
  {
    if |c1| > 0 {
      assert (c1 + c2)[1..] == c1[1..] + c2;
      SumOverAppend(c1[1..], c2, e);
    } else {
      assert c1 + c2 == c2;
    }
  }

  lemma {:induction false} OutsideNonNegative(e: seq<Expense>, categories: seq<string>)
    requires NonNegative(e)
    ensures 0.0 <= Total(Outside(e, categories))
  {
    if |e| > 0 {
      OutsideNonNegative(e[1..], categories);
      var head := if e[0].category in categories then [] else [e[0]];
      TotalAppend(head, Outside(e[1..], categories));
    }
  }

  /**
   * Two category lists without repeats between or within them: their sums
   * and the spending outside both make up the total, so with non-negative
   * amounts the two sums never exceed it, and they equal it when every
   * category is on one of the lists.
   */
  lemma TwoListsWithinTotal(c1: seq<string>, c2: seq<string>, e: seq<Expense>)
    requires UniqueKeys(e) && Distinct(c1 + c2)
    ensures SumOver(c1, e) + SumOver(c2, e) + Total(Outside(e, c1 + c2)) == Total(e)
    ensures NonNegative(e) ==> SumOver(c1, e) + SumOver(c2, e) <= Total(e)
    ensures (forall k :: 0 <= k < |e| ==> e[k].category in c1 + c2) ==>
      SumOver(c1, e) + SumOver(c2, e) == Total(e)
  {
    SumOverAppend(c1, c2, e);
    ListedPlusOutside(c1 + c2, e);
    if NonNegative(e) {
      OutsideNonNegative(e, c1 + c2);
    }
    if forall k :: 0 <= k < |e| ==> e[k].category in c1 + c2 {
      AllListedNothingOutside(e, c1 + c2);
    }
  }

  lemma WhitelistsDistinct()
    ensures Distinct(NeedsCategories + WantsCategories)
  {
  }

  /**
   * `analyze_budget` on a dictionary: needs, wants and the spending outside
   * both whitelists make up the total; with non-negative amounts needs plus
   * wants never exceed the total, and equal it when every category is on a
   * whitelist.
   */
  lemma NeedsWantsWithinTotal(income: real, e: seq<Expense>)
    requires UniqueKeys(e)
    ensures var r := AnalyzeBudget(income, e);
      r.needsSpending + r.wantsSpending + Total(Outside(e, NeedsCategories + WantsCategories))
        == r.totalExpenses &&
      (NonNegative(e) ==> r.needsSpending + r.wantsSpending <= r.totalExpenses) &&
      ((forall k :: 0 <= k < |e| ==> e[k].category in NeedsCategories + WantsCategories) ==>
        r.needsSpending + r.wantsSpending == r.totalExpenses)
  {
    WhitelistsDistinct();
    TwoListsWithinTotal(NeedsCategories, WantsCategories, e);
  }

  lemma {:induction false} AllListedNothingOutside(e: seq<Expense>, categories: seq<string>)
    requires forall k :: 0 <= k < |e| ==> e[k].category in categories
    ensures Outside(e, categories) == []
  {
    if |e| > 0 {
      AllListedNothingOutside(e[1..], categories);
    }
  }
}
