/**
 * The two sample profiles of the demonstration script (`main`), and what
 * the model computes for some of their queries.
 */
module Scenarios {
  import opened Wrappers
  import opened Text
  import opened Profile
  import opened TaxEstimator
  import opened InvestmentRecommender
  import opened SpendingInsights
  import opened Chatbot

  /** The student: 15000 a year, five monthly expenses, moderate risk. */
  const StudentProfile := UserProfile(
    Student, 20, Some(15000.0),
    [Expense("rent", 600.0), Expense("groceries", 200.0), Expense("transportation", 100.0),
     Expense("entertainment", 150.0), Expense("textbooks", 50.0)],
    [], "moderate")

  /** The professional: 75000 a year, seven monthly expenses, high risk. */
  const ProfessionalProfile := UserProfile(
    Professional, 28, Some(75000.0),
    [Expense("rent", 1500.0), Expense("groceries", 400.0), Expense("transportation", 300.0),
     Expense("dining_out", 300.0), Expense("entertainment", 200.0), Expense("subscriptions", 100.0),
     Expense("insurance", 200.0)],
    [], "high")

  /** A query mentioning taxes goes to the tax handler. */
  lemma TaxQueryRoutes()
    ensures Classify("How much will I pay in taxes?") == TaxIntent
  {
    var q := Lower("How much will I pay in taxes?");
    assert StartsWith(q[23..], "tax");
    assert Occurs(TaxKeywords[0], q);
  }

  /** The student owes 1580 on 15000, in the two lowest brackets. */
  lemma StudentTaxReply()
    ensures var r := HandleTaxQuery(StudentProfile);
      r.TaxReport? && r.estimate.totalTax == 1580.0 && r.estimate.afterTaxIncome == 13420.0 &&
      |r.estimate.breakdown| == 2 && r.taxTips == StudentTips
  {
    EveryStatusIsSingle("single");
    SampleStudentTax();
  }

  /**
   * The professional's investable funds mix an annual income with monthly
   * expenses, as `_handle_investment_query` does: 80% of 75000 - 3000.
   */
  lemma ProfessionalInvestmentReply()
    ensures HandleInvestmentQuery(ProfessionalProfile) ==
      InvestmentReport(57600.0, [Suggestion(GrowthStockIndex, 40320.0), Suggestion(InternationalFund, 17280.0)])
  {
    assert Total(ProfessionalProfile.expenses) == 3000.0;
  }

  /** Rent heads the student's spending at 600 of 1100, which draws the housing warning. */
  lemma StudentInsights()
    ensures var r := InsightsFor(StudentProfile.expenses, Student);
      r.Ok? && |r.value| == 2 &&
      r.value[0].HighestExpense? && r.value[0].category == "rent" && r.value[0].amount == 600.0 &&
      r.value[1] == HousingCostWarning
  {
    StudentSpending();
    RentOnlyInsights(StudentProfile.expenses, Student);
  }

  /** Rent at 600 of an 1100 total, on top, and no subscriptions. */
  lemma RentOnlyInsights(e: seq<Expense>, userType: string)
    requires |e| > 0 && e[0] == Expense("rent", 600.0) && Total(e) == 1100.0
    requires IsFirstMax(e, 0) && Get(e, "subscriptions") == 0.0
    ensures var r := InsightsFor(e, userType);
      r.Ok? && |r.value| == 2 &&
      r.value[0].HighestExpense? && r.value[0].category == "rent" && r.value[0].amount == 600.0 &&
      r.value[1] == HousingCostWarning
  {
    TopInsight(e, userType, 0);
    HousingWarningWhen(e, userType);
    InsightsTail(e, userType);
  }

  lemma StudentSpending()
    ensures var e := StudentProfile.expenses;
      Total(e) == 1100.0 && IsFirstMax(e, 0) && Get(e, "subscriptions") == 0.0
  {
    var e := StudentProfile.expenses;
    assert Total(e) == 1100.0;
    assert IsFirstMax(e, 0);
    assert Lookup(e, "subscriptions") == None;
  }

  /**
   * Rent heads the professional's spending at half of 3000, and the 100 of
   * subscriptions is over 50: three insights, the most a reply can carry.
   */
  lemma ProfessionalInsights()
    ensures var r := InsightsFor(ProfessionalProfile.expenses, Professional);
      r.Ok? && |r.value| == 3 &&
      r.value[0] == HighestExpense("rent", 1500.0, 50.0) &&
      r.value[1] == HousingCostWarning && r.value[2] == SubscriptionReviewTip
  {
    ProfessionalTotal();
    ProfessionalTop();
    ProfessionalSubscriptions();
    RentHeavyInsights(ProfessionalProfile.expenses, Professional);
  }

  /** Rent at half of a 3000 total, on top, with subscriptions over 50. */
  lemma RentHeavyInsights(e: seq<Expense>, userType: string)
    requires |e| > 0 && e[0] == Expense("rent", 1500.0) && Total(e) == 3000.0
    requires IsFirstMax(e, 0) && Get(e, "subscriptions") == 100.0
    ensures var r := InsightsFor(e, userType);
      r.Ok? && |r.value| == 3 &&
      r.value[0] == HighestExpense("rent", 1500.0, 50.0) &&
      r.value[1] == HousingCostWarning && r.value[2] == SubscriptionReviewTip
  {
    TopInsight(e, userType, 0);
    HousingWarningWhen(e, userType);
    InsightsTail(e, userType);
  }

  lemma ProfessionalTotal()
    ensures Total(ProfessionalProfile.expenses) == 3000.0
  {
    var e := ProfessionalProfile.expenses;
    assert Total(e[6..]) == 200.0;
    assert Total(e[5..]) == 300.0;
    assert Total(e[4..]) == 500.0;
    assert Total(e[3..]) == 800.0;
  }

  lemma ProfessionalTop()
    ensures IsFirstMax(ProfessionalProfile.expenses, 0)
  {
  }

  lemma ProfessionalSubscriptions()
    ensures Get(ProfessionalProfile.expenses, "subscriptions") == 100.0
  {
    var e := ProfessionalProfile.expenses;
    assert Lookup(e[5..], "subscriptions") == Some(100.0);
  }
}
