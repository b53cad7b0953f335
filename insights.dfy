/** Spending insights: the top category, a follow-up tip, and a subscription check. */
module SpendingInsights {
  import opened Wrappers
  import opened Profile

  /** One insight line, by kind; its wording is fixed per kind. */
  datatype Insight =
    | HighestExpense(category: string, amount: real, percentage: real)
    | CookAtHomeTip          // students whose top category is dining out or entertainment
    | MealPrepTip            // everyone else with that top category
    | HousingCostWarning     // rent on top at more than 30% of spending
    | SubscriptionReviewTip  // subscriptions above 50

  /**
   * Entry `k` heads the stable descending sort: no entry has a larger
   * amount, and every earlier entry has a smaller one.
   */
  predicate IsFirstMax(e: seq<Expense>, k: nat) {
    k < |e| &&
    (forall j :: 0 <= j < |e| ==> e[j].amount <= e[k].amount) &&
    (forall j :: 0 <= j < k ==> e[j].amount < e[k].amount)
  }

  /** `sorted(expenses.items(), key=amount, reverse=True)[0]`, as an index. */
  function TopIndex(e: seq<Expense>): (k: nat)
    requires |e| > 0
    ensures IsFirstMax(e, k)
    decreases |e|
  {
    if |e| == 1 then 0
    else
      var k := TopIndex(e[..|e| - 1]);
      if e[|e| - 1].amount > e[k].amount then |e| - 1 else k
  }

  /** The tip that follows the top category, if any. */
  function FollowUp(category: string, percentage: real, userType: string): seq<Insight> {
    if category == "dining_out" || category == "entertainment" then
      if userType == Student then [CookAtHomeTip] else [MealPrepTip]
    else if category == "rent" && percentage > 30.0 then [HousingCostWarning]
    else []
  }

  /** The subscription tip when `'subscriptions' in expenses and expenses['subscriptions'] > 50`. */
  function SubscriptionTip(e: seq<Expense>): seq<Insight> {
    match Lookup(e, "subscriptions")
    case Some(v) => if v > 50.0 then [SubscriptionReviewTip] else []
    case None => []
  }

  /**
   * `generate_spending_insights(expenses, profile)`, before each line is
   * toned: a non-empty mapping whose amounts add up to zero divides by zero.
   */
  function InsightsFor(e: seq<Expense>, userType: string): Outcome<seq<Insight>> {
    if |e| == 0 then Ok(SubscriptionTip(e))
    else if Total(e) == 0.0 then Failed(DivisionByZero)
    else
      var top := e[TopIndex(e)];
      var percentage := top.amount / Total(e) * 100.0;
      Ok([HighestExpense(top.category, top.amount, percentage)]
         + FollowUp(top.category, percentage, userType)
         + SubscriptionTip(e))
  }

  /**
   * The head of `sorted(expenses.items(), key=amount, reverse=True)`, found
   * in one pass: a later entry replaces the current one only when strictly
   * larger, so ties keep the earliest.
   */
  method LargestExpense(expenses: seq<Expense>) returns (top: nat)
    requires |expenses| > 0
    ensures IsFirstMax(expenses, top)
  {
    top := 0;
    var i := 1;
    while i < |expenses|
      invariant 1 <= i <= |expenses|
      invariant top == TopIndex(expenses[..i])
    {
      assert expenses[..i + 1][..i] == expenses[..i];
      if expenses[i].amount > expenses[top].amount {
        top := i;
      }
      i := i + 1;
    }
    assert expenses[..i] == expenses;
  }

  /** The insights, built as `generate_spending_insights` builds them: find the head of the sort, then append. */
  method GenerateSpendingInsights(expenses: seq<Expense>, userType: string)
    returns (r: Outcome<seq<Insight>>)
    ensures r == InsightsFor(expenses, userType)
  {
    var insights: seq<Insight> := [];
    var total := Total(expenses);
    if |expenses| > 0 {
      var top := LargestExpense(expenses);
      FirstMaxUnique(expenses, top, TopIndex(expenses));
      if total == 0.0 {
        return Failed(DivisionByZero);
      }
      var category, amount := expenses[top].category, expenses[top].amount;
      var percentage := amount / total * 100.0;
      insights := insights + [HighestExpense(category, amount, percentage)];
      if category == "dining_out" || category == "entertainment" {
        if userType == Student {
          insights := insights + [CookAtHomeTip];
        } else {
          insights := insights + [MealPrepTip];
        }
      } else if category == "rent" {
        if percentage > 30.0 {
          insights := insights + [HousingCostWarning];
        }
      }
      assert insights == [HighestExpense(category, amount, percentage)] + FollowUp(category, percentage, userType);
    }
    ghost var before := insights;
    var subscriptions := Lookup(expenses, "subscriptions");
    if subscriptions.Some? && subscriptions.value > 50.0 {
      insights := insights + [SubscriptionReviewTip];
    }
    assert insights == before + SubscriptionTip(expenses);
    r := Ok(insights);
  }

  /** The head of the sort is determined: only one entry is the first maximum. */
  lemma FirstMaxUnique(e: seq<Expense>, k1: nat, k2: nat)
    requires IsFirstMax(e, k1) && IsFirstMax(e, k2)
    ensures k1 == k2
  {
    assert e[k1].amount == e[k2].amount;
  }

  /**
   * For a non-empty mapping with a non-zero total, the first insight names
   * the largest category (the earliest inserted on ties) with its share of
   * the total.
   */
  lemma TopInsight(e: seq<Expense>, userType: string, k: nat)
    requires IsFirstMax(e, k) && Total(e) != 0.0
    ensures var r := InsightsFor(e, userType);
      r.Ok? && 0 < |r.value| &&
      r.value[0] == HighestExpense(e[k].category, e[k].amount, e[k].amount / Total(e) * 100.0)
  {
    FirstMaxUnique(e, k, TopIndex(e));
  }

  /**
   * An empty mapping gives no insights; a non-empty one adding up to zero
   * fails with a division by zero.
   */
  lemma InsightsEdgeCases(e: seq<Expense>, userType: string)
    ensures |e| == 0 ==> InsightsFor(e, userType) == Ok([])
    ensures |e| > 0 && Total(e) == 0.0 ==> InsightsFor(e, userType) == Failed(DivisionByZero)
  {
  }

  /**
   * The insights that follow the first: at most one of the dining tip and the
   * housing warning, the subscription tip exactly when subscriptions exceed
   * 50, and never more than three insights in all.
   */
  lemma InsightsTail(e: seq<Expense>, userType: string)
    requires InsightsFor(e, userType).Ok?
    ensures var ins := InsightsFor(e, userType).value;
      |ins| <= 3 &&
      ((CookAtHomeTip in ins || MealPrepTip in ins) ==> HousingCostWarning !in ins) &&
      !(CookAtHomeTip in ins && MealPrepTip in ins) &&
      (SubscriptionReviewTip in ins <==> Get(e, "subscriptions") > 50.0)
  {
  }

  /**
   * The housing warning appears exactly when the first insight names rent at
   * more than 30% of spending.
   */
  lemma HousingWarningWhen(e: seq<Expense>, userType: string)
    ensures var r := InsightsFor(e, userType);
      r.Ok? && |e| > 0 ==>
        0 < |r.value| &&
        (HousingCostWarning in r.value <==>
          r.value[0].category == "rent" && r.value[0].percentage > 30.0)
  {
    var r := InsightsFor(e, userType);
    if r.Ok? && |e| > 0 {
      var h := r.value[0];
      FollowUpFacts(h.category, h.percentage, userType);
      assert r.value == [h] + FollowUp(h.category, h.percentage, userType) + SubscriptionTip(e);
    }
  }

  /**
   * The first insight's category decides the dining tip: students are told to
   * cook at home, everyone else to prepare meals.
   */
  lemma DiningTipWhen(e: seq<Expense>, userType: string)
    ensures var r := InsightsFor(e, userType);
      r.Ok? && |e| > 0 ==>
        0 < |r.value| &&
        var dining := r.value[0].category == "dining_out" || r.value[0].category == "entertainment";
        (CookAtHomeTip in r.value <==> dining && userType == Student) &&
        (MealPrepTip in r.value <==> dining && userType != Student)
  {
    var r := InsightsFor(e, userType);
    if r.Ok? && |e| > 0 {
      var h := r.value[0];
      FollowUpFacts(h.category, h.percentage, userType);
      assert r.value == [h] + FollowUp(h.category, h.percentage, userType) + SubscriptionTip(e);
    }
  }

  lemma FollowUpFacts(category: string, percentage: real, userType: string)
    ensures HousingCostWarning in FollowUp(category, percentage, userType) <==>
      category == "rent" && percentage > 30.0
    ensures CookAtHomeTip in FollowUp(category, percentage, userType) <==>
      (category == "dining_out" || category == "entertainment") && userType == Student
    ensures MealPrepTip in FollowUp(category, percentage, userType) <==>
      (category == "dining_out" || category == "entertainment") && userType != Student
  {
    assert category == "rent" ==> category != "dining_out" && category != "entertainment";
  }
}
