/**
 * The chatbot: intent routing by keyword, the five query handlers, the
 * exception guard of `process_query`, and the profile store.
 *
 * Replies are tagged values: a fixed message, or a report holding the
 * figures the handler computed and which block of tips it chose. The
 * formatted prose around those figures is not modelled.
 */
module Chatbot {
  import opened Wrappers
  import opened Text
  import opened Profile
  import opened TaxEstimator
  import opened BudgetAnalyzer
  import opened InvestmentRecommender
  import opened ToneAdapter
  import opened SpendingInsights

  // ---- Intent routing ----

  datatype Intent = TaxIntent | BudgetIntent | InvestmentIntent | SavingsIntent | GeneralIntent

  const TaxKeywords: seq<string> := ["tax", "taxes", "federal"]
  const BudgetKeywords: seq<string> := ["budget", "spending", "expenses"]
  const InvestmentKeywords: seq<string> := ["invest", "investment", "portfolio"]
  const SavingsKeywords: seq<string> := ["save", "savings", "emergency fund"]

  /** `any(word in query_lower for word in words)`: a substring test, not a word test. */
  predicate MentionsAny(words: seq<string>, q: string) {
    exists k :: 0 <= k < |words| && Occurs(words[k], q)
  }

  /**
   * The `if`/`elif` chain of `process_query` on the lower-cased query. The
   * first keyword list that matches wins; a query matching none is general.
   */
  function Classify(query: string): (i: Intent)
    ensures i == TaxIntent <==> MentionsAny(TaxKeywords, Lower(query))
    ensures i == BudgetIntent <==>
      !MentionsAny(TaxKeywords, Lower(query)) && MentionsAny(BudgetKeywords, Lower(query))
    ensures i == InvestmentIntent <==>
      !MentionsAny(TaxKeywords, Lower(query)) && !MentionsAny(BudgetKeywords, Lower(query)) &&
      MentionsAny(InvestmentKeywords, Lower(query))
    ensures i == SavingsIntent <==>
      !MentionsAny(TaxKeywords, Lower(query)) && !MentionsAny(BudgetKeywords, Lower(query)) &&
      !MentionsAny(InvestmentKeywords, Lower(query)) && MentionsAny(SavingsKeywords, Lower(query))
    ensures i == GeneralIntent <==>
      !MentionsAny(TaxKeywords, Lower(query)) && !MentionsAny(BudgetKeywords, Lower(query)) &&
      !MentionsAny(InvestmentKeywords, Lower(query)) && !MentionsAny(SavingsKeywords, Lower(query))
  {
    var q := Lower(query);
    if MentionsAny(TaxKeywords, q) then TaxIntent
    else if MentionsAny(BudgetKeywords, q) then BudgetIntent
    else if MentionsAny(InvestmentKeywords, q) then InvestmentIntent
    else if MentionsAny(SavingsKeywords, q) then SavingsIntent
    else GeneralIntent
  }

  // ---- Fixed texts ----

  const NoProfileText :=
    "Please create your profile first " +
    "using create_profile()."
  const ApologyText :=
    "I'm sorry, I encountered an error " +
    "processing your request. Please try " +
    "again."
  const TaxNeedsIncomeText :=
    "I need your income information to " +
    "calculate taxes. Please update your " +
    "profile with your annual income."
  const BudgetNeedsDataText :=
    "I need your income and expense " +
    "information to analyze your budget. " +
    "Please update your profile."
  const InvestNeedsIncomeText :=
    "I need your income information to " +
    "provide investment advice. Please " +
    "update your profile."
  const EmergencyFundFirstText :=
    "Focus on building an emergency fund " +
    "first before investing. Aim to save " +
    "at least $1,000 for emergencies."

  /** The greetings of the tone-style table; no other user type has an entry. */
  const Greetings: map<string, string> :=
    map[Student := "Hey there! \U{1F44B}", Professional := "Good day,"]

  // ---- Replies ----

  /** Which block of tips a report carries: the student block, or the professional one. */
  datatype TipBlock = StudentTips | ProfessionalTips

  /** The closing line of the budget summary. */
  datatype Remark = Outstanding | BoostSavings | NoRemark

  datatype Reply =
    | Message(text: string)
    | TaxReport(income: real, estimate: TaxEstimate, taxTips: TipBlock)
    | BudgetReport(greeting: string, analysis: BudgetAnalysis, remark: Remark, insights: seq<Insight>)
    | InvestmentReport(funds: real, suggestions: seq<Suggestion>)
    | SavingsReport(emergencyFundTarget: real, savingsTips: TipBlock)
    | GeneralAdvice(generalTips: TipBlock)

  /** The student tips go to students; every other user type gets the professional ones. */
  function TipsFor(userType: string): TipBlock {
    if userType == Student then StudentTips else ProfessionalTips
  }

  function RemarkFor(h: Health): Remark {
    match h
    case Excellent => Outstanding
    case NeedsImprovement => BoostSavings
    case _ => NoRemark
  }

  // ---- Handlers ----

  /** `_handle_tax_query`: the estimate for the single filing status. */
  function HandleTaxQuery(p: UserProfile): (r: Reply)
    ensures !HasIncome(p.income) <==> r == Message(TaxNeedsIncomeText)
    ensures HasIncome(p.income) ==>
      r.TaxReport? && r.income == p.income.value &&
      r.estimate == Estimate(BracketsFor("single"), p.income.value) &&
      (r.taxTips == StudentTips <==> p.userType == Student)
  {
    if !HasIncome(p.income) then Message(TaxNeedsIncomeText)
    else TaxReport(p.income.value, Estimate(BracketsFor("single"), p.income.value), TipsFor(p.userType))
  }

  /** `insights[:3]`. */
  function FirstThree(insights: seq<Insight>): seq<Insight> {
    if |insights| <= 3 then insights else insights[..3]
  }

  /**
   * `_handle_budget_query`: the analysis, then the greeting (a user type
   * outside the tone-style table raises `KeyError`), then the insights (a
   * zero expense total raises `ZeroDivisionError`).
   */
  function HandleBudgetQuery(p: UserProfile): (r: Outcome<Reply>)
    ensures !HasIncome(p.income) || |p.expenses| == 0 <==> r == Ok(Message(BudgetNeedsDataText))
    ensures r.Ok? && r.value.BudgetReport? ==>
      p.userType in Greetings && InsightsFor(p.expenses, p.userType).Ok? &&
      r.value.analysis == AnalyzeBudget(p.income.value, p.expenses) &&
      r.value.greeting == Greetings[p.userType] &&
      r.value.insights == InsightsFor(p.expenses, p.userType).value
    ensures (HasIncome(p.income) && |p.expenses| > 0 && p.userType in Greetings &&
      InsightsFor(p.expenses, p.userType).Ok?) ==>
      r == Ok(BudgetReport(Greetings[p.userType], AnalyzeBudget(p.income.value, p.expenses),
        RemarkFor(AnalyzeBudget(p.income.value, p.expenses).health),
        InsightsFor(p.expenses, p.userType).value))
  {
    if !HasIncome(p.income) || |p.expenses| == 0 then Ok(Message(BudgetNeedsDataText))
    else
      var analysis := AnalyzeBudget(p.income.value, p.expenses);
      if p.userType !in Greetings then Failed(UnknownUserType(p.userType))
      else
        match InsightsFor(p.expenses, p.userType)
        case Failed(f) => Failed(f)
        case Ok(insights) =>
          InsightsTail(p.expenses, p.userType);
          Ok(BudgetReport(Greetings[p.userType], analysis, RemarkFor(analysis.health), FirstThree(insights)))
  }

  /**
   * The funds offered for investment: 80% of what income leaves after
   * expenses, never below zero; with no expenses recorded, 80% of income
   * stands in for them.
   */
  function InvestableFunds(income: real, expenses: seq<Expense>): (f: real)
    ensures 0.0 <= f
    ensures f == 0.0 <==> income <= (if |expenses| > 0 then Total(expenses) else income * 0.8)
    ensures |expenses| == 0 && 0.0 <= income ==> f == income * 0.16
    ensures |expenses| > 0 && income > Total(expenses) ==> f == (income - Total(expenses)) * 0.8
  {
    var totalExpenses := if |expenses| > 0 then Total(expenses) else income * 0.8;
    var left := (income - totalExpenses) * 0.8;
    if 0.0 >= left then 0.0 else left
  }

  /** `_handle_investment_query`. */
  function HandleInvestmentQuery(p: UserProfile): (r: Reply)
    ensures !HasIncome(p.income) <==> r == Message(InvestNeedsIncomeText)
    ensures HasIncome(p.income) && InvestableFunds(p.income.value, p.expenses) < 100.0 ==>
      r == Message(AdaptTone(EmergencyFundFirstText, p.userType))
    ensures HasIncome(p.income) && 100.0 <= InvestableFunds(p.income.value, p.expenses) ==>
      r == InvestmentReport(InvestableFunds(p.income.value, p.expenses),
        GenerateInvestmentSuggestions(p, InvestableFunds(p.income.value, p.expenses)))
    ensures r.InvestmentReport? ==>
      HasIncome(p.income) && 100.0 <= r.funds &&
      r.funds == InvestableFunds(p.income.value, p.expenses) &&
      forall k :: 0 <= k < |r.suggestions| ==> 0.0 <= r.suggestions[k].allocation <= r.funds
  {
    if !HasIncome(p.income) then Message(InvestNeedsIncomeText)
    else
      var funds := InvestableFunds(p.income.value, p.expenses);
      if funds < 100.0 then
        EmergencyFundFirstStart(p.userType);
        Message(AdaptTone(EmergencyFundFirstText, p.userType))
      else InvestmentReport(funds, GenerateInvestmentSuggestions(p, funds))
  }

  /**
   * Six months of expenses; with no expenses recorded, 70% of income stands
   * in for them, and a missing income then raises `TypeError`. An income of
   * zero is not missing here: it gives a target of zero.
   */
  function EmergencyFundTarget(income: Option<real>, expenses: seq<Expense>): (r: Outcome<real>)
    ensures r.Failed? <==> |expenses| == 0 && income.None?
    ensures r.Failed? ==> r.fault == MissingIncome
    ensures |expenses| > 0 ==> r == Ok(Total(expenses) * 6.0)
    ensures |expenses| == 0 && income.Some? ==> r == Ok(income.value * 4.2)
  {
    if |expenses| > 0 then Ok(Total(expenses) * 6.0)
    else if income.None? then Failed(MissingIncome)
    else Ok(income.value * 0.7 * 6.0)
  }

  /** `_handle_savings_query`. */
  function HandleSavingsQuery(p: UserProfile): (r: Outcome<Reply>)
    ensures r.Failed? <==> |p.expenses| == 0 && p.income.None?
    ensures r.Ok? ==>
      r.value.SavingsReport? && r.value.savingsTips == TipsFor(p.userType) &&
      Ok(r.value.emergencyFundTarget) == EmergencyFundTarget(p.income, p.expenses)
  {
    match EmergencyFundTarget(p.income, p.expenses)
    case Failed(f) => Failed(f)
    case Ok(target) => Ok(SavingsReport(target, TipsFor(p.userType)))
  }

  /** `_handle_general_query`: `general_advice.get(user_type, general_advice['professional'])`. */
  function HandleGeneralQuery(p: UserProfile): (r: Reply)
    ensures r.GeneralAdvice? && (r.generalTips == StudentTips <==> p.userType == Student)
  {
    GeneralAdvice(TipsFor(p.userType))
  }

  /** The handler chosen by the intent. */
  function Dispatch(p: UserProfile, intent: Intent): Outcome<Reply> {
    match intent
    case TaxIntent => Ok(HandleTaxQuery(p))
    case BudgetIntent => HandleBudgetQuery(p)
    case InvestmentIntent => Ok(HandleInvestmentQuery(p))
    case SavingsIntent => HandleSavingsQuery(p)
    case GeneralIntent => Ok(HandleGeneralQuery(p))
  }

  /** The body of `process_query` for a stored profile: any exception becomes the apology. */
  function Answer(p: UserProfile, query: string): Reply {
    match Dispatch(p, Classify(query))
    case Ok(reply) => reply
    case Failed(_) => Message(ApologyText)
  }

  // ---- Properties of the router and the handlers ----

  /**
   * The tax reply for a recorded income: tax and after-tax income add up to
   * the income, the effective rate is zero exactly when the income is not
   * positive, and for a positive income the tax lies between 10% and 37% of
   * it, split over the brackets in ascending order.
   */
  lemma TaxReplyProperties(p: UserProfile)
    ensures var r := HandleTaxQuery(p);
      HasIncome(p.income) ==>
        var income := p.income.value;
        r.TaxReport? &&
        r.estimate.afterTaxIncome + r.estimate.totalTax == income &&
        (r.estimate.effectiveRate == 0.0 <==> income <= 0.0) &&
        (income < 0.0 ==> r.estimate.totalTax == 0.0 && r.estimate.breakdown == []) &&
        (0.0 <= income ==>
          0.10 * income <= r.estimate.totalTax <= 0.37 * income &&
          SumTaxable(r.estimate.breakdown) == income &&
          forall i, j :: 0 <= i < j < |r.estimate.breakdown| ==>
            r.estimate.breakdown[i].bracket.lower < r.estimate.breakdown[j].bracket.lower)
  {
    EveryStatusIsSingle("single");
    if HasIncome(p.income) {
      var income := p.income.value;
      if 0.0 <= income {
        TaxEstimateProperties(income, "single");
      } else {
        assert Breakdown(SingleBrackets, income) == [];
        assert TotalTax(SingleBrackets, income) == 0.0;
      }
    }
  }

  /**
   * The only faults: a budget query for a user type outside the tone-style
   * table or with expenses adding up to zero, and a savings query with
   * neither expenses nor income.
   */
  lemma FaultCauses(p: UserProfile, intent: Intent)
    ensures Dispatch(p, intent).Failed? <==>
      (intent == BudgetIntent && HasIncome(p.income) && |p.expenses| > 0 &&
        (p.userType !in Greetings || Total(p.expenses) == 0.0)) ||
      (intent == SavingsIntent && |p.expenses| == 0 && p.income.None?)
    ensures intent == BudgetIntent && HasIncome(p.income) && |p.expenses| > 0 && p.userType !in Greetings ==>
      Dispatch(p, intent) == Failed(UnknownUserType(p.userType))
    ensures (intent == BudgetIntent && HasIncome(p.income) && |p.expenses| > 0 &&
             p.userType in Greetings && Total(p.expenses) == 0.0) ==>
      Dispatch(p, intent) == Failed(DivisionByZero)
  {
    InsightsEdgeCases(p.expenses, p.userType);
  }

  /**
   * The adapted emergency-fund message starts with 'F', whereas the apology
   * and the three request texts all start with 'I'.
   */
  lemma EmergencyFundFirstStart(userType: string)
    ensures |AdaptTone(EmergencyFundFirstText, userType)| > 0
    ensures AdaptTone(EmergencyFundFirstText, userType)[0] == 'F'
    ensures ApologyText[0] == 'I' && TaxNeedsIncomeText[0] == 'I'
    ensures BudgetNeedsDataText[0] == 'I' && InvestNeedsIncomeText[0] == 'I'
  {
    AdaptToneKeepsFirst(EmergencyFundFirstText, userType);
  }

  /** The apology is returned exactly when the chosen handler raised. */
  lemma ApologyExactlyOnFault(p: UserProfile, query: string)
    ensures Answer(p, query) == Message(ApologyText) <==> Dispatch(p, Classify(query)).Failed?
  {
    EmergencyFundFirstStart(p.userType);
  }

  /**
   * An income of zero counts as no income for the tax, budget and investment
   * handlers, but the savings handler computes with it.
   */
  lemma ZeroIncomeCountsAsMissing(p: UserProfile)
    requires p.income == Some(0.0)
    ensures Dispatch(p, TaxIntent) == Ok(Message(TaxNeedsIncomeText))
    ensures Dispatch(p, BudgetIntent) == Ok(Message(BudgetNeedsDataText))
    ensures Dispatch(p, InvestmentIntent) == Ok(Message(InvestNeedsIncomeText))
    ensures |p.expenses| == 0 ==> Dispatch(p, SavingsIntent) == Ok(SavingsReport(0.0, TipsFor(p.userType)))
  {
  }

  /**
   * The budget reply keeps every insight: there are never more than three,
   * so the `[:3]` cut never drops one.
   */
  lemma BudgetReportKeepsAllInsights(p: UserProfile)
    ensures var r := HandleBudgetQuery(p);
      r.Ok? && r.value.BudgetReport? ==>
        r.value.insights == InsightsFor(p.expenses, p.userType).value && |r.value.insights| <= 3
  {
    if HasIncome(p.income) && |p.expenses| > 0 && p.userType in Greetings &&
      InsightsFor(p.expenses, p.userType).Ok? {
      InsightsTail(p.expenses, p.userType);
    }
  }

  /**
   * The remark closing the budget summary follows the health grade: praise
   * at a savings rate of 20% or more, a nudge below 5%, nothing between.
   */
  lemma BudgetRemark(p: UserProfile)
    ensures var r := HandleBudgetQuery(p);
      r.Ok? && r.value.BudgetReport? ==>
        var a := r.value.analysis;
        (r.value.remark == Outstanding <==> a.savingsRate >= 20.0) &&
        (r.value.remark == BoostSavings <==> a.savingsRate < 5.0)
  {
  }

  /** The three faults a handler can raise all end in the apology: first, a user type without a greeting. */
  lemma UnknownUserTypeBudgetApology(p: UserProfile, query: string)
    requires HasIncome(p.income) && |p.expenses| > 0 && p.userType !in Greetings
    requires Classify(query) == BudgetIntent
    ensures Answer(p, query) == Message(ApologyText)
  {
    FaultCauses(p, BudgetIntent);
  }

  lemma AllZeroExpensesApology(p: UserProfile, query: string)
    requires HasIncome(p.income) && |p.expenses| > 0 && Total(p.expenses) == 0.0
    requires Classify(query) == BudgetIntent
    ensures Answer(p, query) == Message(ApologyText)
  {
    FaultCauses(p, BudgetIntent);
  }

  lemma SavingsWithoutDataApology(p: UserProfile, query: string)
    requires |p.expenses| == 0 && p.income.None?
    requires Classify(query) == SavingsIntent
    ensures Answer(p, query) == Message(ApologyText)
  {
  }

  // ---- Properties of the keyword router ----

  /** A text containing `p + x` contains `p`. */
  lemma OccursPrefix(p: string, x: string, s: string)
    ensures Occurs(p + x, s) ==> Occurs(p, s)
  {
    if Occurs(p + x, s) {
      var i :| 0 <= i <= |s| && StartsWith(s[i..], p + x);
      assert s[i..][..|p|] == (p + x)[..|p|] == p;
    }
  }

  /**
   * Two of the longer keywords add nothing: "taxes" and "investment" each
   * contain a shorter keyword of their own list.
   */
  lemma RedundantKeywords(q: string)
    ensures MentionsAny(TaxKeywords, q) <==> Occurs("tax", q) || Occurs("federal", q)
    ensures MentionsAny(InvestmentKeywords, q) <==> Occurs("invest", q) || Occurs("portfolio", q)
  {
    assert "taxes" == "tax" + "es";
    assert "investment" == "invest" + "ment";
    OccursPrefix("tax", "es", q);
    OccursPrefix("invest", "ment", q);
    assert TaxKeywords[0] == "tax" && TaxKeywords[2] == "federal";
    assert InvestmentKeywords[0] == "invest" && InvestmentKeywords[2] == "portfolio";
  }

  /** Routing ignores case: the query and its lower-cased form go to the same handler. */
  lemma ClassifyIgnoresCase(query: string)
    ensures Classify(Lower(query)) == Classify(query)
  {
    LowerIdempotent(query);
  }

  /**
   * For a mapping with unique keys, a budget report's needs, wants and the
   * spending outside both whitelists make up its total expenses.
   */
  lemma BudgetReplySplitsTotal(p: UserProfile, query: string)
    requires UniqueKeys(p.expenses)
    ensures var r := Answer(p, query);
      r.BudgetReport? ==>
        r.analysis.needsSpending + r.analysis.wantsSpending +
          Total(Outside(p.expenses, NeedsCategories + WantsCategories)) == r.analysis.totalExpenses
  {
    if HasIncome(p.income) {
      NeedsWantsWithinTotal(p.income.value, p.expenses);
    }
  }

  // ---- The profile store ----

  /**
   * `PersonalFinanceChatbot`: the stored profiles by user id. Every stored
   * expense mapping has unique categories, as a Python dict does.
   */
  class FinanceChatbot {
    var profiles: map<string, UserProfile>

    ghost predicate Valid()
      reads this
    {
      forall id :: id in profiles ==> UniqueKeys(profiles[id].expenses)
    }

    constructor()
      ensures Valid() && profiles == map[]
    {
      profiles := map[];
    }

    /**
     * `create_user_profile`: builds the profile from the given fields
     * (absent expenses and goals become empty, an absent risk tolerance is
     * "moderate") and stores it under `userId`, replacing any earlier one.
     */
    method CreateUserProfile(userId: string, userType: string, age: int, income: Option<real>,
                             expenses: Option<seq<Expense>>, financialGoals: Option<seq<string>>,
                             riskTolerance: Option<string>)
      returns (profile: UserProfile)
      requires Valid()
      requires expenses.Some? ==> UniqueKeys(expenses.value)
      modifies this
      ensures Valid()
      ensures profile.userType == userType && profile.age == age && profile.income == income
      ensures profile.expenses == expenses.GetOr([])
      ensures profile.financialGoals == financialGoals.GetOr([])
      ensures profile.riskTolerance == riskTolerance.GetOr("moderate")
      ensures profiles == old(profiles)[userId := profile]
    {
      profile := UserProfile(userType, age, income, expenses.GetOr([]), financialGoals.GetOr([]),
                             riskTolerance.GetOr("moderate"));
      profiles := profiles[userId := profile];
    }

    /**
     * `update_user_expenses`: `dict.update` of the stored mapping; an
     * unknown user id changes nothing.
     */
    method UpdateUserExpenses(userId: string, expenses: seq<Expense>)
      requires Valid() && UniqueKeys(expenses)
      modifies this
      ensures Valid()
      ensures userId !in old(profiles) ==> profiles == old(profiles)
      ensures userId in old(profiles) ==>
        profiles == old(profiles)[userId := old(profiles)[userId].(expenses := Merge(old(profiles)[userId].expenses, expenses))]
    {
      if userId in profiles {
        var p := profiles[userId];
        MergeShape(p.expenses, expenses);
        profiles := profiles[userId := p.(expenses := Merge(p.expenses, expenses))];
      }
    }

    /**
     * `process_query`: an unknown user id is asked to create a profile;
     * otherwise the query is routed and answered, faults becoming the apology.
     */
    method ProcessQuery(userId: string, query: string) returns (reply: Reply)
      requires Valid()
      ensures userId !in profiles ==> reply == Message(NoProfileText)
      ensures userId in profiles ==> reply == Answer(profiles[userId], query)
      ensures userId in profiles && reply.BudgetReport? ==>
        reply.analysis.needsSpending + reply.analysis.wantsSpending +
          Total(Outside(profiles[userId].expenses, NeedsCategories + WantsCategories))
          == reply.analysis.totalExpenses
    {
      if userId !in profiles {
        return Message(NoProfileText);
      }
      BudgetReplySplitsTotal(profiles[userId], query);
      reply := Answer(profiles[userId], query);
    }
  }
}
