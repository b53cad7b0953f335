/** The investment recommender: a fixed branch table on user type and risk tolerance. */
module InvestmentRecommender {
  import opened Profile

  datatype Instrument =
    | HighYieldSavingsAccount
    | SP500IndexFund
    | BondIndexFund
    | DividendGrowthFund
    | GrowthStockIndex
    | InternationalFund

  datatype RiskLevel = VeryLow | Low | Moderate | ModerateHigh | High

  /** One suggestion; its reason, risk level and expected return are fixed per instrument. */
  datatype Suggestion = Suggestion(instrument: Instrument, allocation: real)

  function RiskLevelOf(i: Instrument): RiskLevel {
    match i
    case HighYieldSavingsAccount => VeryLow
    case SP500IndexFund => Moderate
    case BondIndexFund => Low
    case DividendGrowthFund => Moderate
    case GrowthStockIndex => High
    case InternationalFund => ModerateHigh
  }

  function ExpectedReturn(i: Instrument): string {
    match i
    case HighYieldSavingsAccount => "4-5% APY"
    case SP500IndexFund => "8-10% annually"
    case BondIndexFund => "3-5% annually"
    case DividendGrowthFund => "6-8% annually"
    case GrowthStockIndex => "10-12% annually"
    case InternationalFund => "8-10% annually"
  }

  function Reason(i: Instrument): string {
    match i
    case HighYieldSavingsAccount => "Build emergency fund with easy access"
    case SP500IndexFund => "Long-term growth with diversification"
    case BondIndexFund => "Stable income with lower volatility"
    case DividendGrowthFund => "Regular income with growth potential"
    case GrowthStockIndex => "Higher growth potential for long-term wealth building"
    case InternationalFund => "Geographic diversification"
  }

  function Min(a: real, b: real): real {
    if a <= b then a else b
  }

  /** The sum of the suggested allocations. */
  function Allocated(s: seq<Suggestion>): real {
    if |s| == 0 then 0.0 else s[0].allocation + Allocated(s[1..])
  }

  /**
   * `generate_investment_suggestions(profile, funds)`. Students get a savings
   * account capped at 5000 and an index fund of 70% (alternatives, so they
   * may add up to more than the funds); every other user type is treated as
   * a professional, whose "low" and "high" tolerances split the funds
   * exactly; any other tolerance, "moderate" included, gets nothing.
   */
  function GenerateInvestmentSuggestions(profile: UserProfile, funds: real): (r: seq<Suggestion>)
    ensures profile.userType == Student ==>
      r == [Suggestion(HighYieldSavingsAccount, Min(funds, 5000.0)), Suggestion(SP500IndexFund, funds * 0.7)]
    ensures profile.userType != Student && profile.riskTolerance == "low" ==>
      |r| == 2 && r[0].instrument == BondIndexFund && r[1].instrument == DividendGrowthFund &&
      r[0].allocation == funds * 0.4 && Allocated(r) == funds
    ensures profile.userType != Student && profile.riskTolerance == "high" ==>
      |r| == 2 && r[0].instrument == GrowthStockIndex && r[1].instrument == InternationalFund &&
      r[0].allocation == funds * 0.7 && Allocated(r) == funds
    ensures r == [] <==> profile.userType != Student && profile.riskTolerance != "low" && profile.riskTolerance != "high"
    ensures 0.0 <= funds ==> forall k :: 0 <= k < |r| ==> 0.0 <= r[k].allocation <= funds
  {
    if profile.userType == Student then
      [Suggestion(HighYieldSavingsAccount, Min(funds, 5000.0)), Suggestion(SP500IndexFund, funds * 0.7)]
    else if profile.riskTolerance == "low" then
      var r := [Suggestion(BondIndexFund, funds * 0.4), Suggestion(DividendGrowthFund, funds * 0.6)];
      assert Allocated(r[1..]) == funds * 0.6 + Allocated([]);
      r
    else if profile.riskTolerance == "high" then
      var r := [Suggestion(GrowthStockIndex, funds * 0.7), Suggestion(InternationalFund, funds * 0.3)];
      assert Allocated(r[1..]) == funds * 0.3 + Allocated([]);
      r
    else
      []
  }
}
